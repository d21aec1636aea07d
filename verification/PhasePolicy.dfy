/**
 What follows each dispatch of a phase call, read off the trace alone: the
 policy that the nested loops over targets, continuations and attempts come to.
 */
module PhasePolicy {
  import opened Common
  import opened PhaseOutput
  import opened PhaseFailover
  import opened PhaseExecutor
  import opened PhaseRetry
  import S = PhaseSession

  /** The next dispatch, or the end of the call. */
  datatype Next = Try(target: nat, continuation: nat, attempt: nat) | Ends(end: PhaseEnd)

  // ---- the policy ----

  /** The class is among the configured names. */
  predicate Listed(kind: FailureKind, names: seq<string>) {
    match kind
    case TransientRunner => "transient" in names
    case ProviderExhaustion(_) => "provider_exhaustion" in names
    case TargetUnavailable => "target_unavailable" in names
    case UnknownFailure => "unknown" in names
  }

  /** An error is retried below the cap, unless excluded, if listed or, without a list, transient. */
  predicate RetryAllowed(plan: Plan, message: string, attempt: nat) {
    var kind := plan.classify(message);
    && attempt < plan.maxAttempts && !Listed(kind, plan.noRetryOn)
    && if plan.retryOn != [] then Listed(kind, plan.retryOn) else kind.TransientRunner?
  }

  /** The outcome that is held on to: its commit message is settled where the phase commits. */
  function Held(plan: Plan, o: Outcome): Outcome {
    match o
    case Completed(commit, decision, payload) =>
      if !plan.commits then o
      else Completed(Some(if commit.Some? then commit.value else plan.fallbackMessage), decision, payload)
    case ManualPending(_, _) => o
  }

  /** The outcome says something, or need not. */
  predicate Tells(plan: Plan, o: Outcome) {
    !plan.structured || o.ManualPending? || o.commitMessage.Some? || o.decision.Some? || o.payload.Some?
  }

  /** The target `t` failed over: what is held for it is returned, or else the next target is tried. */
  function Leaves(world: World, t: nat, held: Option<Outcome>): Next {
    if held.Some? then Ends(Success(held.value, t))
    else if world.resolves(t + 1) then Try(t + 1, 0, 1)
    else Ends(PhaseErr(PreparationFailed))
  }

  /** What follows the dispatches made so far. */
  function Wants(plan: Plan, world: World, trace: seq<Dispatch>): Next {
    if trace == [] then
      if plan.providers == [] then Ends(PhaseErr(Exhausted))
      else if world.resolves(0) then Try(0, 0, 1)
      else Ends(PhaseErr(PreparationFailed))
    else
      var d := trace[|trace| - 1];
      match d.end.result
      case DispatchRetryable => Ends(PhaseErr(CheckpointIo))
      case TerminalCheckpoint => Ends(PhaseErr(CheckpointIo))
      case Delivered(o) =>
        if plan.commits && o.Completed? && world.attempts(|trace| - 1).commitFails then Ends(PhaseErr(CommitFailed))
        else if Tells(plan, Held(plan, o)) || d.continuation == plan.maxContinuations
        then Ends(Success(Held(plan, o), d.target))
        else Try(d.target, d.continuation + 1, 1)
      case StreamError(m) =>
        var kind := plan.classify(m);
        if RetryAllowed(plan, m, d.attempt) then Try(d.target, d.continuation, d.attempt + 1)
        else if d.target + 1 < |plan.providers| && (kind.ProviderExhaustion? || kind.TargetUnavailable?)
        then Leaves(world, d.target, LastKept(trace, d.target))
        else Ends(PhaseErr(Failure(m)))
  }

  /** How the call ends after these dispatches: as the policy says, or because the next one cannot be prepared. */
  predicate EndsAs(plan: Plan, world: World, trace: seq<Dispatch>, end: PhaseEnd) {
    match Wants(plan, world, trace)
    case Ends(e) => end == e
    case Try(_, _, _) => !world.attempts(|trace|).prepared && end == PhaseErr(PreparationFailed)
  }

  /** The `i`-th dispatch as the world answers it. */
  predicate Made(plan: Plan, world: World, d: Dispatch, i: nat) {
    && world.attempts(i).prepared && d.target < |plan.providers| && d.attempt >= 1
    && d.end == Attempt(d.before, plan.providers[d.target], world.attempts(i))
    && d.kept == (match d.end.result
                  case Delivered(o) =>
                    if plan.commits && o.Completed? && world.attempts(i).commitFails then None
                    else Some(Held(plan, o))
                  case _ => None)
    && d.slept == (match d.end.result
                   case StreamError(m) => if RetryAllowed(plan, m, d.attempt) then Some(Pause(d.attempt)) else None
                   case _ => None)
  }

  predicate Adheres(plan: Plan, world: World, file: Option<S.Checkpoint>, trace: seq<Dispatch>) {
    forall i :: 0 <= i < |trace| ==> AdheresAt(plan, world, file, trace, i)
  }

  predicate AdheresAt(plan: Plan, world: World, file: Option<S.Checkpoint>, trace: seq<Dispatch>, i: nat)
    requires i < |trace|
  {
    var d := trace[i];
    && Wants(plan, world, trace[..i]) == Try(d.target, d.continuation, d.attempt)
    && Made(plan, world, d, i) && d.before == if i == 0 then file else trace[i - 1].end.file
  }

  // ---- the loops come to it ----

  ghost predicate Sound(plan: Plan, world: World, file: Option<S.Checkpoint>, p: Progress) {
    Adheres(plan, world, file, p.trace) && p.file == FileAfter(file, p.trace)
  }

  lemma AdheresGrows(plan: Plan, world: World, file: Option<S.Checkpoint>, p: Progress, d: Dispatch)
    requires Sound(plan, world, file, p) && Made(plan, world, d, |p.trace|) && d.before == p.file
    requires Wants(plan, world, p.trace) == Try(d.target, d.continuation, d.attempt)
    ensures Sound(plan, world, file, Progress(d.end.file, p.trace + [d]))
    ensures LastKept(p.trace + [d], d.target) == if d.kept.Some? then d.kept else LastKept(p.trace, d.target)
  {
    var all := p.trace + [d];
    assert all[..|all| - 1] == p.trace;
    forall i | 0 <= i < |all| ensures AdheresAt(plan, world, file, all, i) {
      assert all[..i] == p.trace[..i];
      if i == |p.trace| {
        assert p.trace[..i] == p.trace;
      } else {
        assert AdheresAt(plan, world, file, p.trace, i);
      }
    }
  }

  lemma NextIsMade(plan: Plan, world: World, p: Progress, t: nat, c: nat, a: nat)
    requires t < |plan.providers| && a >= 1 && world.attempts(|p.trace|).prepared
    ensures Made(plan, world, DispatchNow(plan, world, p, t, c, a, Pause(a)), |p.trace|)
  {
  }

  /** How the attempts of a continuation end, told by the policy. */
  predicate AttemptsAs(
    plan: Plan, world: World, trace: seq<Dispatch>, t: nat, c: nat, held: Option<Outcome>, end: AttemptsEnd)
  {
    match end
    case Abort(e) => EndsAs(plan, world, trace, PhaseErr(e))
    case Succeeded(o) =>
      && LastKept(trace, t) == Some(o)
      && Wants(plan, world, trace) ==
         if Tells(plan, o) || c == plan.maxContinuations then Ends(Success(o, t)) else Try(t, c + 1, 1)
    case MoveOn =>
      && t + 1 < |plan.providers| && Wants(plan, world, trace) == Leaves(world, t, held)
      && LastKept(trace, t + 1) == None
  }

  lemma VerdictAs(plan: Plan, world: World, trace: seq<Dispatch>, t: nat, c: nat, held: Option<Outcome>)
    requires trace != [] && Made(plan, world, trace[|trace| - 1], |trace| - 1)
    requires var d := trace[|trace| - 1];
             && d.target == t && d.continuation == c
             && LastKept(trace, t) == if d.kept.Some? then d.kept else held
    ensures var d := trace[|trace| - 1];
            match PhaseRetry.Verdict(plan, d)
            case Some(end) => AttemptsAs(plan, world, trace, t, c, held, end)
            case None => Wants(plan, world, trace) == Try(t, c, d.attempt + 1) && LastKept(trace, t) == held
                         && d.attempt < plan.maxAttempts
  {
  }

  lemma OneMade(plan: Plan, world: World, file: Option<S.Checkpoint>, p: Progress, t: nat, c: nat, a: nat)
    returns (p1: Progress, verdict: Option<AttemptsEnd>)
    requires Sound(plan, world, file, p) && t < |plan.providers| && 1 <= a <= plan.maxAttempts
    requires Wants(plan, world, p.trace) == Try(t, c, a) && world.attempts(|p.trace|).prepared
    ensures Sound(plan, world, file, p1)
    ensures Attempts(plan, world, p, t, c, a, Pause(a)) ==
            match verdict
            case Some(end) => (p1, end)
            case None => Attempts(plan, world, p1, t, c, a + 1, Pause(a + 1))
    ensures match verdict
            case Some(end) => AttemptsAs(plan, world, p1.trace, t, c, LastKept(p.trace, t), end)
            case None => a < plan.maxAttempts && Wants(plan, world, p1.trace) == Try(t, c, a + 1)
                         && LastKept(p1.trace, t) == LastKept(p.trace, t)
  {
    var d := DispatchNow(plan, world, p, t, c, a, Pause(a));
    NextIsMade(plan, world, p, t, c, a);
    AdheresGrows(plan, world, file, p, d);
    PauseDoubles(a);
    p1, verdict := Progress(d.end.file, p.trace + [d]), PhaseRetry.Verdict(plan, d);
    VerdictAs(plan, world, p1.trace, t, c, LastKept(p.trace, t));
  }

  /** The attempts from `a` on leave what the policy says, `held` being held for the target before them. */
  ghost predicate AttemptsWell(
    plan: Plan, world: World, file: Option<S.Checkpoint>, p: Progress, t: nat, c: nat, a: nat, held: Option<Outcome>)
    requires t < |plan.providers| && a >= 1
  {
    var (p', end) := Attempts(plan, world, p, t, c, a, Pause(a));
    Sound(plan, world, file, p') && AttemptsAs(plan, world, p'.trace, t, c, held, end)
  }

  lemma OneAttempt(plan: Plan, world: World, file: Option<S.Checkpoint>, p: Progress, t: nat, c: nat, a: nat)
    returns (p1: Progress)
    requires Sound(plan, world, file, p) && t < |plan.providers| && 1 <= a <= plan.maxAttempts
    requires Wants(plan, world, p.trace) == Try(t, c, a)
    ensures || AttemptsWell(plan, world, file, p, t, c, a, LastKept(p.trace, t))
            || (&& a < plan.maxAttempts && Sound(plan, world, file, p1)
                && Wants(plan, world, p1.trace) == Try(t, c, a + 1)
                && LastKept(p1.trace, t) == LastKept(p.trace, t)
                && Attempts(plan, world, p, t, c, a, Pause(a)) == Attempts(plan, world, p1, t, c, a + 1, Pause(a + 1)))
  {
    p1 := p;
    if world.attempts(|p.trace|).prepared {
      var verdict;
      p1, verdict := OneMade(plan, world, file, p, t, c, a);
    }
  }

  lemma {:induction false} AttemptsAdhere(
    plan: Plan, world: World, file: Option<S.Checkpoint>, p: Progress, t: nat, c: nat, a: nat)
    requires Sound(plan, world, file, p) && t < |plan.providers| && 1 <= a <= plan.maxAttempts
    requires Wants(plan, world, p.trace) == Try(t, c, a)
    ensures AttemptsWell(plan, world, file, p, t, c, a, LastKept(p.trace, t))
    decreases plan.maxAttempts - a, 1
  {
    var p1 := OneAttempt(plan, world, file, p, t, c, a);
    if !AttemptsWell(plan, world, file, p, t, c, a, LastKept(p.trace, t)) {
      RetryAdheres(plan, world, file, p, p1, t, c, a, LastKept(p.trace, t));
    }
  }

  lemma {:induction false} RetryAdheres(
    plan: Plan, world: World, file: Option<S.Checkpoint>, p: Progress, p1: Progress, t: nat, c: nat, a: nat,
    held: Option<Outcome>)
    requires Sound(plan, world, file, p1) && t < |plan.providers| && 1 <= a < plan.maxAttempts
    requires Wants(plan, world, p1.trace) == Try(t, c, a + 1) && LastKept(p1.trace, t) == held
    requires Attempts(plan, world, p, t, c, a, Pause(a)) == Attempts(plan, world, p1, t, c, a + 1, Pause(a + 1))
    ensures AttemptsWell(plan, world, file, p, t, c, a, held)
    decreases plan.maxAttempts - a, 0
  {
    AttemptsAdhere(plan, world, file, p1, t, c, a + 1);
    WellFollows(plan, world, file, p, p1, t, c, a, held);
  }

  lemma WellFollows(
    plan: Plan, world: World, file: Option<S.Checkpoint>, p: Progress, p1: Progress, t: nat, c: nat, a: nat,
    held: Option<Outcome>)
    requires t < |plan.providers| && a >= 1
    requires Attempts(plan, world, p, t, c, a, Pause(a)) == Attempts(plan, world, p1, t, c, a + 1, Pause(a + 1))
    requires AttemptsWell(plan, world, file, p1, t, c, a + 1, held)
    ensures AttemptsWell(plan, world, file, p, t, c, a, held)
  {
  }

  /** How the continuations on a target end, told by the policy. */
  predicate ContinuationsAs(plan: Plan, world: World, trace: seq<Dispatch>, t: nat, end: ContinuationsEnd) {
    match end
    case Stop(e) => EndsAs(plan, world, trace, PhaseErr(e))
    case Finished(o) => EndsAs(plan, world, trace, Success(o, t))
    case FellThrough(Some(o)) => EndsAs(plan, world, trace, Success(o, t))
    case FellThrough(None) =>
      t + 1 < |plan.providers| && Wants(plan, world, trace) == Leaves(world, t, None) && LastKept(trace, t + 1) == None
  }

  lemma OneRound(
    plan: Plan, world: World, file: Option<S.Checkpoint>, p: Progress, t: nat, c: nat)
    returns (p1: Progress, settled: Option<ContinuationsEnd>, held: Option<Outcome>)
    requires Sound(plan, world, file, p) && t < |plan.providers| && plan.maxAttempts >= 1
    requires c <= plan.maxContinuations && Wants(plan, world, p.trace) == Try(t, c, 1)
    ensures Sound(plan, world, file, p1)
    ensures Continuations(plan, world, p, t, c, LastKept(p.trace, t)) ==
            match settled
            case Some(end) => (p1, end)
            case None => Continuations(plan, world, p1, t, c + 1, held)
    ensures match settled
            case Some(end) => ContinuationsAs(plan, world, p1.trace, t, end)
            case None =>
              && held.Some? && held == LastKept(p1.trace, t)
              && Wants(plan, world, p1.trace) ==
                 if c == plan.maxContinuations then Ends(Success(held.value, t)) else Try(t, c + 1, 1)
  {
    assert Pause(1) == 200;
    AttemptsAdhere(plan, world, file, p, t, c, 1);
    var result := Attempts(plan, world, p, t, c, 1, 200);
    var end := result.1;
    p1, settled := result.0, Settle(plan, end, LastKept(p.trace, t));
    held := if end.Succeeded? then Some(end.o) else None;
  }

  lemma {:induction false} ContinuationsAdhere(
    plan: Plan, world: World, file: Option<S.Checkpoint>, p: Progress, t: nat, c: nat)
    requires Sound(plan, world, file, p) && t < |plan.providers| && plan.maxAttempts >= 1
    requires c <= plan.maxContinuations && Wants(plan, world, p.trace) == Try(t, c, 1)
    ensures var (p', end) := Continuations(plan, world, p, t, c, LastKept(p.trace, t));
            Sound(plan, world, file, p') && ContinuationsAs(plan, world, p'.trace, t, end)
    decreases plan.maxContinuations - c
  {
    var p1, settled, held := OneRound(plan, world, file, p, t, c);
    if settled.None? && c < plan.maxContinuations { ContinuationsAdhere(plan, world, file, p1, t, c + 1); }
  }

  lemma OneTargetAs(plan: Plan, world: World, file: Option<S.Checkpoint>, p: Progress, t: nat)
    returns (p1: Progress, settled: Option<PhaseEnd>)
    requires Sound(plan, world, file, p) && t < |plan.providers| && plan.maxAttempts >= 1 && world.resolves(t)
    requires Wants(plan, world, p.trace) == Try(t, 0, 1) && LastKept(p.trace, t) == None
    ensures Sound(plan, world, file, p1)
    ensures Targets(plan, world, p, t) ==
            match settled
            case Some(end) => (p1, end)
            case None => Targets(plan, world, p1, t + 1)
    ensures match settled
            case Some(end) => EndsAs(plan, world, p1.trace, end)
            case None =>
              t + 1 < |plan.providers| && Wants(plan, world, p1.trace) == Leaves(world, t, None)
              && LastKept(p1.trace, t + 1) == None
  {
    ContinuationsAdhere(plan, world, file, p, t, 0);
    var result := Continuations(plan, world, p, t, 0, None);
    p1, settled := result.0, SettleTarget(result.1, t);
  }

  lemma {:induction false} TargetsAdhere(plan: Plan, world: World, file: Option<S.Checkpoint>, p: Progress, t: nat)
    requires Sound(plan, world, file, p) && t < |plan.providers| && plan.maxAttempts >= 1
    requires Wants(plan, world, p.trace) ==
             if world.resolves(t) then Try(t, 0, 1) else Ends(PhaseErr(PreparationFailed))
    requires LastKept(p.trace, t) == None
    ensures var (p', end) := Targets(plan, world, p, t);
            Sound(plan, world, file, p') && EndsAs(plan, world, p'.trace, end)
    decreases |plan.providers| - t
  {
    if world.resolves(t) {
      var p1, settled := OneTargetAs(plan, world, file, p, t);
      if settled.None? { TargetsAdhere(plan, world, file, p1, t + 1); }
    }
  }

  /**
   The nested loops follow the policy: every dispatch is the one it wants after
   those before, made on the checkpoint they left and answered by the world, and
   the call ends where and as it says.
   */
  lemma CallFollowsPolicy(plan: Plan, world: World, file: Option<S.Checkpoint>)
    requires plan.maxAttempts >= 1
    ensures var (trace, end) := RunPhaseCall(plan, world, file);
            Adheres(plan, world, file, trace) && EndsAs(plan, world, trace, end)
  {
    if plan.providers != [] { TargetsAdhere(plan, world, file, Progress(file, []), 0); }
  }

  // ---- what that means at each dispatch ----

  /** There is a next dispatch, and it is this one. */
  predicate NextIs(trace: seq<Dispatch>, i: nat, t: nat, c: nat, a: nat) {
    && i + 1 < |trace|
    && trace[i + 1].target == t && trace[i + 1].continuation == c && trace[i + 1].attempt == a
  }

  /** After the `i`-th dispatch the wanted one is made if it can be prepared, and otherwise the call ends. */
  lemma NextWanted(plan: Plan, world: World, file: Option<S.Checkpoint>, i: nat)
    requires plan.maxAttempts >= 1 && i < |RunPhaseCall(plan, world, file).0|
    ensures var (trace, end) := RunPhaseCall(plan, world, file);
            && Made(plan, world, trace[i], i) && trace[..i + 1] != [] && trace[..i + 1][i] == trace[i]
            && match Wants(plan, world, trace[..i + 1])
               case Try(t, c, a) =>
                 (NextIs(trace, i, t, c, a) <==> world.attempts(i + 1).prepared)
                 && (NextIs(trace, i, t, c, a) <==> i + 1 < |trace|)
               case Ends(e) => i + 1 == |trace| && end == e
  {
    CallFollowsPolicy(plan, world, file);
    var (trace, end) := RunPhaseCall(plan, world, file);
    assert AdheresAt(plan, world, file, trace, i);
    if i + 1 < |trace| {
      assert AdheresAt(plan, world, file, trace, i + 1);
    } else {
      assert trace[..i + 1] == trace;
    }
  }

  lemma {:induction false} TargetsRise(
    plan: Plan, world: World, file: Option<S.Checkpoint>, trace: seq<Dispatch>, j: nat, k: nat)
    requires Adheres(plan, world, file, trace) && j <= k < |trace|
    ensures trace[j].target <= trace[k].target
    decreases k
  {
    if j < k {
      TargetsRise(plan, world, file, trace, j, k - 1);
      assert AdheresAt(plan, world, file, trace, k) && trace[..k][k - 1] == trace[k - 1];
    }
  }

  /** No dispatch of these on its target has delivered an outcome that is held. */
  predicate HoldsNothing(trace: seq<Dispatch>, t: nat) {
    forall j :: 0 <= j < |trace| && trace[j].target == t ==> trace[j].kept.None?
  }

  lemma {:induction false} HoldsNothingIff(
    plan: Plan, world: World, file: Option<S.Checkpoint>, trace: seq<Dispatch>, n: nat)
    requires Adheres(plan, world, file, trace) && 0 < n <= |trace|
    ensures LastKept(trace[..n], trace[n - 1].target) == None <==> HoldsNothing(trace[..n], trace[n - 1].target)
    decreases n
  {
    var d, before := trace[n - 1], trace[..n - 1];
    assert trace[..n][..n - 1] == before && trace[..n][n - 1] == d;
    if n > 1 {
      TargetsRise(plan, world, file, trace, n - 2, n - 1);
      if trace[n - 2].target == d.target {
        HoldsNothingIff(plan, world, file, trace, n - 1);
      } else {
        forall j | 0 <= j < n - 1 ensures before[j].target != d.target {
          TargetsRise(plan, world, file, trace, j, n - 2);
        }
      }
    }
    assert HoldsNothing(trace[..n], d.target) <==> d.kept.None? && HoldsNothing(before, d.target) by {
      assert forall j :: 0 <= j < n - 1 ==> trace[..n][j] == before[j];
    }
  }

  /**
   At every position: an error is followed by another attempt on the same target
   and continuation if and only if attempts are left, its class is not excluded,
   and it is listed or, without a list, transient; and the attempt is prepared.
   */
  lemma RetryIff(plan: Plan, world: World, file: Option<S.Checkpoint>, i: nat)
    requires plan.maxAttempts >= 1 && i < |RunPhaseCall(plan, world, file).0|
    requires RunPhaseCall(plan, world, file).0[i].end.result.StreamError?
    ensures var trace := RunPhaseCall(plan, world, file).0;
            var d, kind := trace[i], plan.classify(trace[i].end.result.message);
            NextIs(trace, i, d.target, d.continuation, d.attempt + 1) <==>
            && d.attempt < plan.maxAttempts && !Listed(kind, plan.noRetryOn)
            && (if plan.retryOn != [] then Listed(kind, plan.retryOn) else kind.TransientRunner?)
            && world.attempts(i + 1).prepared
  {
    NextWanted(plan, world, file, i);
  }

  /**
   At every position: an error that is not retried, with nothing held for its
   target, is followed by the first dispatch on the next target if and only if
   its class is exhaustion or unavailability, there is a next target, and that
   resolves and is prepared; otherwise the call is over.
   */
  lemma FailoverIff(plan: Plan, world: World, file: Option<S.Checkpoint>, i: nat)
    requires plan.maxAttempts >= 1 && i < |RunPhaseCall(plan, world, file).0|
    requires var trace := RunPhaseCall(plan, world, file).0;
             && trace[i].end.result.StreamError? && !RetryAllowed(plan, trace[i].end.result.message, trace[i].attempt)
             && HoldsNothing(trace[..i + 1], trace[i].target)
    ensures var trace := RunPhaseCall(plan, world, file).0;
            var t, kind := trace[i].target, plan.classify(trace[i].end.result.message);
            && (NextIs(trace, i, t + 1, 0, 1) <==>
                && (kind.ProviderExhaustion? || kind.TargetUnavailable?)
                && t + 1 < |plan.providers| && world.resolves(t + 1) && world.attempts(i + 1).prepared)
            && (NextIs(trace, i, t + 1, 0, 1) <==> i + 1 < |trace|)
  {
    CallFollowsPolicy(plan, world, file);
    NextWanted(plan, world, file, i);
    HoldsNothingIff(plan, world, file, RunPhaseCall(plan, world, file).0, i + 1);
  }

  /**
   At every position: a delivered outcome, unless its commit fails, is followed
   by another continuation if and only if structure is asked for and it has no
   decision, payload or commit message, continuations are left and the next is
   prepared; with none left, or when it says something, it is returned.
   */
  lemma ContinuationIff(plan: Plan, world: World, file: Option<S.Checkpoint>, i: nat)
    requires plan.maxAttempts >= 1 && i < |RunPhaseCall(plan, world, file).0|
    requires RunPhaseCall(plan, world, file).0[i].kept.Some?
    ensures var (trace, end) := RunPhaseCall(plan, world, file);
            var d, o := trace[i], trace[i].kept.value;
            var silent :=
              plan.structured && o.Completed? && o.commitMessage.None? && o.decision.None? && o.payload.None?;
            && (NextIs(trace, i, d.target, d.continuation + 1, 1) <==>
                silent && d.continuation != plan.maxContinuations && world.attempts(i + 1).prepared)
            && (NextIs(trace, i, d.target, d.continuation + 1, 1) <==> i + 1 < |trace|)
            && (!silent || d.continuation == plan.maxContinuations ==> end == Success(o, d.target))
  {
    NextWanted(plan, world, file, i);
  }
}
