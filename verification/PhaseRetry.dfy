/**
 The loops over targets, continuations and attempts of one phase call, as
 functions of the environment, and what every call does: how often it
 dispatches, over which checkpoints, in which order, and what it returns.
 */
module PhaseRetry {
  import opened Common
  import opened DurableWrite
  import opened PhaseOutput
  import opened PhaseFailover
  import opened PhaseExecutor
  import S = PhaseSession

  datatype Plan = Plan(
    providers: seq<string>,
    maxContinuations: nat,
    maxAttempts: nat,
    structured: bool,
    commits: bool,
    fallbackMessage: string,
    retryOn: seq<string>,
    noRetryOn: seq<string>,
    classify: string -> FailureKind)

  /** How the world answers the n-th dispatch, and which targets resolve. */
  datatype World = World(attempts: nat -> AttemptEnv, resolves: nat -> bool)

  /**
   One dispatch. `kept`: the outcome, with its commit message resolved, that
   the loops hold on to; `slept`: the pause before a retry, in milliseconds.
   */
  datatype Dispatch = Dispatch(
    target: nat, continuation: nat, attempt: nat,
    before: Option<S.Checkpoint>, end: AttemptEnd,
    kept: Option<Outcome>, slept: Option<nat>)

  datatype PhaseError = CheckpointIo | Failure(message: string) | CommitFailed | PreparationFailed | Exhausted

  datatype PhaseEnd = Success(o: Outcome, target: nat) | PhaseErr(e: PhaseError)

  datatype Progress = Progress(file: Option<S.Checkpoint>, trace: seq<Dispatch>)

  datatype AttemptsEnd = Succeeded(o: Outcome) | MoveOn | Abort(e: PhaseError)

  datatype ContinuationsEnd = Finished(o: Outcome) | FellThrough(last: Option<Outcome>) | Stop(e: PhaseError)

  const MAX_BACKOFF: nat := 3000

  function NextBackoff(ms: nat): nat {
    if 2 * ms < MAX_BACKOFF then 2 * ms else MAX_BACKOFF
  }

  predicate OutcomeIsComplete(o: Outcome, structured: bool) {
    match o
    case Completed(commit, decision, payload) => !structured || decision.Some? || commit.Some? || payload.Some?
    case ManualPending(_, _) => true
  }

  predicate NeedsCommit(plan: Plan, o: Outcome) {
    plan.commits && o.Completed?
  }

  function WithCommit(plan: Plan, o: Outcome): Outcome {
    if NeedsCommit(plan, o) then o.(commitMessage := Some(o.commitMessage.GetOr(plan.fallbackMessage))) else o
  }

  predicate Retries(plan: Plan, message: string, attempt: nat) {
    attempt < plan.maxAttempts && ConfiguredRetry(plan.classify(message), plan.retryOn, plan.noRetryOn)
  }

  predicate FailsOver(plan: Plan, message: string) {
    ShouldFailover(plan.classify(message))
  }

  // ---- the loops ----

  /** The record of the next dispatch. */
  function DispatchNow(plan: Plan, world: World, p: Progress, t: nat, c: nat, a: nat, backoff: nat): Dispatch
    requires t < |plan.providers|
  {
    var e := world.attempts(|p.trace|);
    var end := Attempt(p.file, plan.providers[t], e);
    Dispatch(t, c, a, p.file, end,
             if end.result.Delivered? && !(NeedsCommit(plan, end.result.o) && e.commitFails)
             then Some(WithCommit(plan, end.result.o)) else None,
             if end.result.StreamError? && Retries(plan, end.result.message, a) then Some(backoff) else None)
  }

  /** How a dispatch ends the attempts on its target; None is a retry. */
  function Verdict(plan: Plan, d: Dispatch): Option<AttemptsEnd> {
    match d.end.result
    case Delivered(_) => Some(if d.kept.Some? then Succeeded(d.kept.value) else Abort(CommitFailed))
    case DispatchRetryable => Some(Abort(CheckpointIo))
    case TerminalCheckpoint => Some(Abort(CheckpointIo))
    case StreamError(m) =>
      if d.slept.Some? then None
      else if d.target + 1 < |plan.providers| && FailsOver(plan, m) then Some(MoveOn)
      else Some(Abort(Failure(m)))
  }

  function Attempts(plan: Plan, world: World, p: Progress, t: nat, c: nat, a: nat, backoff: nat)
    : (Progress, AttemptsEnd)
    requires t < |plan.providers|
    decreases plan.maxAttempts + 1 - a
  {
    if a > plan.maxAttempts then (p, MoveOn)
    else if !world.attempts(|p.trace|).prepared then (p, Abort(PreparationFailed))
    else
      var d := DispatchNow(plan, world, p, t, c, a, backoff);
      var p' := Progress(d.end.file, p.trace + [d]);
      match Verdict(plan, d)
      case Some(end) => (p', end)
      case None => Attempts(plan, world, p', t, c, a + 1, NextBackoff(backoff))
  }

  /** How the attempts end the continuations; None is another continuation. */
  function Settle(plan: Plan, end: AttemptsEnd, last: Option<Outcome>): Option<ContinuationsEnd> {
    match end
    case Succeeded(o) => if OutcomeIsComplete(o, plan.structured) then Some(Finished(o)) else None
    case MoveOn => Some(FellThrough(last))
    case Abort(e) => Some(Stop(e))
  }

  function Continuations(plan: Plan, world: World, p: Progress, t: nat, c: nat, last: Option<Outcome>)
    : (Progress, ContinuationsEnd)
    requires t < |plan.providers|
    decreases plan.maxContinuations + 1 - c
  {
    if c > plan.maxContinuations then (p, FellThrough(last))
    else
      var (p', end) := Attempts(plan, world, p, t, c, 1, 200);
      match Settle(plan, end, last)
      case Some(settled) => (p', settled)
      case None => Continuations(plan, world, p', t, c + 1, Some(end.o))
  }

  /** How the continuations end the targets; None is the next target. */
  function SettleTarget(end: ContinuationsEnd, t: nat): Option<PhaseEnd> {
    match end
    case Finished(o) => Some(Success(o, t))
    case FellThrough(Some(o)) => Some(Success(o, t))
    case FellThrough(None) => None
    case Stop(e) => Some(PhaseErr(e))
  }

  function Targets(plan: Plan, world: World, p: Progress, t: nat): (Progress, PhaseEnd)
    decreases |plan.providers| - t
  {
    if t >= |plan.providers| then (p, PhaseErr(Exhausted))
    else if !world.resolves(t) then (p, PhaseErr(PreparationFailed))
    else
      var (p', end) := Continuations(plan, world, p, t, 0, None);
      match SettleTarget(end, t)
      case Some(settled) => (p', settled)
      case None => Targets(plan, world, p', t + 1)
  }

  // ---- what a call may do ----

  function Pow2(n: nat): nat {
    if n == 0 then 1 else 2 * Pow2(n - 1)
  }

  /** The pause after the `a`-th attempt of a continuation. */
  function Pause(a: nat): nat
    requires a >= 1
  {
    var ms := 200 * Pow2(a - 1);
    if ms < MAX_BACKOFF then ms else MAX_BACKOFF
  }

  lemma PauseDoubles(a: nat)
    requires a >= 1
    ensures NextBackoff(Pause(a)) == Pause(a + 1)
  {
    assert Pow2(a) == 2 * Pow2(a - 1);
  }

  /** The last outcome held for target `t`, the target of the last dispatches. */
  function LastKept(trace: seq<Dispatch>, t: nat): Option<Outcome> {
    if trace == [] || trace[|trace| - 1].target != t then None
    else if trace[|trace| - 1].kept.Some? then trace[|trace| - 1].kept
    else LastKept(trace[..|trace| - 1], t)
  }

  /**
   The next dispatch may be attempt `a` of continuation `c` on target `t`. The
   checkpoint on disk is over, and it is a retry, a continuation of an incomplete outcome, or a move to the next target
   after a failover-class error with nothing held for the target left behind.
   */
  predicate Allowed(plan: Plan, trace: seq<Dispatch>, t: nat, c: nat, a: nat) {
    if trace == [] then t == 0 && c == 0 && a == 1
    else
      var d := trace[|trace| - 1];
      && S.Over(d.end.file)
      && ((t == d.target && c == d.continuation && a == d.attempt + 1
           && d.end.result.StreamError? && Retries(plan, d.end.result.message, d.attempt)
           && d.attempt >= 1 && d.slept == Some(Pause(d.attempt)))
          || (t == d.target && c == d.continuation + 1 && a == 1
              && d.kept.Some? && !OutcomeIsComplete(d.kept.value, plan.structured))
          || (t == d.target + 1 && c == 0 && a == 1
              && d.end.result.StreamError? && FailsOver(plan, d.end.result.message)
              && LastKept(trace, d.target) == None))
  }

  predicate InRange(plan: Plan, d: Dispatch) {
    && d.target < |plan.providers| && d.continuation <= plan.maxContinuations && 1 <= d.attempt <= plan.maxAttempts
    && (d.kept.Some? ==> d.end.result.Delivered? && d.kept.value == WithCommit(plan, d.end.result.o))
  }

  /** The `n`-th dispatch is an attempt that the world answered. */
  predicate Answered(plan: Plan, world: World, d: Dispatch, n: nat) {
    d.target < |plan.providers| && d.end == Attempt(d.before, plan.providers[d.target], world.attempts(n))
  }

  function FileAfter(file: Option<S.Checkpoint>, trace: seq<Dispatch>): Option<S.Checkpoint> {
    if trace == [] then file else trace[|trace| - 1].end.file
  }

  predicate Path(plan: Plan, world: World, file: Option<S.Checkpoint>, trace: seq<Dispatch>) {
    trace == [] ||
    (var front, d := trace[..|trace| - 1], trace[|trace| - 1];
     && Path(plan, world, file, front)
     && Allowed(plan, front, d.target, d.continuation, d.attempt)
     && InRange(plan, d) && d.before == FileAfter(file, front) && Answered(plan, world, d, |front|))
  }

  predicate Consistent(plan: Plan, world: World, file: Option<S.Checkpoint>, p: Progress) {
    Path(plan, world, file, p.trace) && p.file == FileAfter(file, p.trace)
  }

  lemma PathGrows(plan: Plan, world: World, file: Option<S.Checkpoint>, trace: seq<Dispatch>, d: Dispatch)
    requires Path(plan, world, file, trace) && Allowed(plan, trace, d.target, d.continuation, d.attempt)
    requires InRange(plan, d) && d.before == FileAfter(file, trace) && Answered(plan, world, d, |trace|)
    ensures Path(plan, world, file, trace + [d])
    ensures FileAfter(file, trace + [d]) == d.end.file
    ensures LastKept(trace + [d], d.target) == if d.kept.Some? then d.kept else LastKept(trace, d.target)
  {
    assert (trace + [d])[..|trace + [d]| - 1] == trace;
  }

  predicate IdsDiffer(world: World, i: nat, j: nat) {
    i != j ==> world.attempts(i).runId != world.attempts(j).runId
  }

  /** Run ids are minted per dispatch. */
  ghost predicate FreshIds(world: World) {
    forall i, j :: IdsDiffer(world, i, j)
  }

  predicate NotOnDisk(world: World, p: Progress, n: nat) {
    n >= |p.trace| && p.file.Some? ==> world.attempts(n).runId != p.file.value.runId
  }

  /** The checkpoint on disk carries the id of no dispatch still to come. */
  ghost predicate NoIdAhead(world: World, p: Progress) {
    forall n :: NotOnDisk(world, p, n)
  }

  /** The checkpoint left behind is this run's or the one found. */
  lemma AttemptIds(file: Option<S.Checkpoint>, provider: string, e: AttemptEnv)
    ensures var end := Attempt(file, provider, e);
            end.file == file || (end.file.Some? && end.file.value.runId == e.runId)
  {
    PolledKeepsStatus(S.MarkRunning(S.PendingCheckpoint(provider, e.runId)), e.polls);
  }

  /** The last dispatch failed to write its checkpoint. */
  predicate CheckpointFailed(trace: seq<Dispatch>) {
    trace != [] &&
    (trace[|trace| - 1].end.result.DispatchRetryable? || trace[|trace| - 1].end.result.TerminalCheckpoint?)
  }

  /** A progress from which the dispatch (t, c, a) may follow. */
  ghost predicate Ready(plan: Plan, world: World, file: Option<S.Checkpoint>, p: Progress, t: nat, c: nat, a: nat) {
    && t < |plan.providers| && c <= plan.maxContinuations && 1 <= a <= plan.maxAttempts
    && FreshIds(world) && Consistent(plan, world, file, p) && NoIdAhead(world, p) && Allowed(plan, p.trace, t, c, a)
  }

  /** The record of a dispatch made when it was allowed. */
  predicate Recorded(plan: Plan, world: World, p: Progress, d: Dispatch, t: nat, c: nat, a: nat) {
    && a >= 1 && d.target == t && d.continuation == c && d.attempt == a && d.before == p.file
    && (d.kept.Some? ==> d.end.result.Delivered? && d.kept.value == WithCommit(plan, d.end.result.o))
    && (d.slept.Some? ==>
          d.slept == Some(Pause(a)) && d.end.result.StreamError? && Retries(plan, d.end.result.message, a))
    && (d.end.result.Delivered? || d.end.result.StreamError? ==> S.Over(d.end.file))
    && Answered(plan, world, d, |p.trace|)
  }

  lemma DispatchStep(plan: Plan, world: World, file: Option<S.Checkpoint>, p: Progress, t: nat, c: nat, a: nat)
    requires Ready(plan, world, file, p, t, c, a)
    ensures var d := DispatchNow(plan, world, p, t, c, a, Pause(a));
            && Recorded(plan, world, p, d, t, c, a) && NoIdAhead(world, Progress(d.end.file, p.trace + [d]))
            && (S.ShieldsRun(d.end.file, world.attempts(|p.trace|).runId) ==> d.end.result.TerminalCheckpoint?)
  {
    var e := world.attempts(|p.trace|);
    var d := DispatchNow(plan, world, p, t, c, a, Pause(a));
    var p' := Progress(d.end.file, p.trace + [d]);
    assert NotOnDisk(world, p, |p.trace|);
    AttemptIds(p.file, plan.providers[t], e);
    AttemptLeavesCheckpoint(p.file, plan.providers[t], e);
    forall n: nat
      ensures NotOnDisk(world, p', n)
    {
      assert NotOnDisk(world, p, n) && IdsDiffer(world, |p.trace|, n);
    }
  }

  /** What the attempts on one continuation leave behind. */
  ghost predicate AttemptsDone(
    plan: Plan, world: World, file: Option<S.Checkpoint>, p: Progress, p': Progress, t: nat, c: nat,
    end: AttemptsEnd, most: int)
  {
    && Consistent(plan, world, file, p') && NoIdAhead(world, p')
    && p.trace <= p'.trace && |p'.trace| - |p.trace| <= most
    && (end == Abort(CheckpointIo) <==> CheckpointFailed(p'.trace))
    && (match end
        case Succeeded(o) =>
          && LastKept(p'.trace, t) == Some(o)
          && (!OutcomeIsComplete(o, plan.structured) ==>
                Allowed(plan, p'.trace, t, c + 1, 1))
        case MoveOn =>
          && LastKept(p'.trace, t) == LastKept(p.trace, t)
          && (LastKept(p.trace, t) == None ==> Allowed(plan, p'.trace, t + 1, 0, 1))
        case Abort(_) => true)
  }

  lemma RecordGrows(
    plan: Plan, world: World, file: Option<S.Checkpoint>, p: Progress, d: Dispatch, t: nat, c: nat, a: nat)
    requires Consistent(plan, world, file, p) && Allowed(plan, p.trace, t, c, a) && Recorded(plan, world, p, d, t, c, a)
    requires t < |plan.providers| && c <= plan.maxContinuations && 1 <= a <= plan.maxAttempts
    ensures var p' := Progress(d.end.file, p.trace + [d]);
            && Consistent(plan, world, file, p') && p.trace <= p'.trace
            && LastKept(p'.trace, t) == (if d.kept.Some? then d.kept else LastKept(p.trace, t))
            && (Verdict(plan, d) == None ==> Allowed(plan, p'.trace, t, c, a + 1) && a < plan.maxAttempts)
            && !(CheckpointFailed(p'.trace) && Verdict(plan, d) == None)
  {
    PathGrows(plan, world, file, p.trace, d);
  }

  lemma DispatchEnds(
    plan: Plan, world: World, file: Option<S.Checkpoint>, p: Progress, d: Dispatch, t: nat, c: nat, a: nat, most: int)
    requires Consistent(plan, world, file, p) && Allowed(plan, p.trace, t, c, a) && Recorded(plan, world, p, d, t, c, a)
    requires t < |plan.providers| && c <= plan.maxContinuations && 1 <= a <= plan.maxAttempts
    requires Verdict(plan, d).Some? && NoIdAhead(world, Progress(d.end.file, p.trace + [d])) && most >= 1
    ensures AttemptsDone(plan, world, file, p, Progress(d.end.file, p.trace + [d]), t, c, Verdict(plan, d).value, most)
  {
    RecordGrows(plan, world, file, p, d, t, c, a);
  }

  /** A dispatch made when it was allowed ends the attempts or may be retried. */
  lemma DispatchDone(
    plan: Plan, world: World, file: Option<S.Checkpoint>, p: Progress, t: nat, c: nat, a: nat, most: int)
    requires Ready(plan, world, file, p, t, c, a) && most >= 1
    ensures var d := DispatchNow(plan, world, p, t, c, a, Pause(a));
            var p1 := Progress(d.end.file, p.trace + [d]);
            match Verdict(plan, d)
            case Some(end) => AttemptsDone(plan, world, file, p, p1, t, c, end, most)
            case None => Ready(plan, world, file, p1, t, c, a + 1) && Extends(p, p1, t)
  {
    DispatchStep(plan, world, file, p, t, c, a);
    var d := DispatchNow(plan, world, p, t, c, a, Pause(a));
    if Verdict(plan, d).Some? {
      DispatchEnds(plan, world, file, p, d, t, c, a, most);
    } else {
      RecordGrows(plan, world, file, p, d, t, c, a);
    }
  }

  /** One more dispatch, with nothing new held for the target. */
  predicate Extends(p: Progress, p1: Progress, t: nat) {
    p.trace <= p1.trace && |p1.trace| == |p.trace| + 1 && LastKept(p1.trace, t) == LastKept(p.trace, t)
  }

  lemma RetryDone(
    plan: Plan, world: World, file: Option<S.Checkpoint>, p: Progress, p1: Progress, p': Progress,
    t: nat, c: nat, end: AttemptsEnd, most: int)
    requires Extends(p, p1, t) && AttemptsDone(plan, world, file, p1, p', t, c, end, most)
    ensures AttemptsDone(plan, world, file, p, p', t, c, end, most + 1)
  {
  }

  lemma UnpreparedDone(
    plan: Plan, world: World, file: Option<S.Checkpoint>, p: Progress, t: nat, c: nat, a: nat, most: nat)
    requires Ready(plan, world, file, p, t, c, a)
    ensures AttemptsDone(plan, world, file, p, p, t, c, Abort(PreparationFailed), most)
  {
  }

  /** The dispatch of attempt `a`, and the attempts after it. */
  lemma OneDispatch(
    plan: Plan, world: World, file: Option<S.Checkpoint>, p: Progress, t: nat, c: nat, a: nat, most: int)
    returns (p1: Progress, verdict: Option<AttemptsEnd>)
    requires Ready(plan, world, file, p, t, c, a) && most >= 1 && world.attempts(|p.trace|).prepared
    ensures Attempts(plan, world, p, t, c, a, Pause(a)) ==
            match verdict
            case Some(end) => (p1, end)
            case None => Attempts(plan, world, p1, t, c, a + 1, Pause(a + 1))
    ensures match verdict
            case Some(end) => AttemptsDone(plan, world, file, p, p1, t, c, end, most)
            case None => a < plan.maxAttempts && Ready(plan, world, file, p1, t, c, a + 1) && Extends(p, p1, t)
  {
    DispatchDone(plan, world, file, p, t, c, a, most);
    PauseDoubles(a);
    var d := DispatchNow(plan, world, p, t, c, a, Pause(a));
    p1, verdict := Progress(d.end.file, p.trace + [d]), Verdict(plan, d);
  }

  lemma {:induction false} AttemptsOk(
    plan: Plan, world: World, file: Option<S.Checkpoint>, p: Progress, t: nat, c: nat, a: nat)
    returns (p': Progress, end: AttemptsEnd)
    requires Ready(plan, world, file, p, t, c, a)
    ensures (p', end) == Attempts(plan, world, p, t, c, a, Pause(a))
    ensures AttemptsDone(plan, world, file, p, p', t, c, end, plan.maxAttempts - a + 1)
    decreases plan.maxAttempts - a, 1
  {
    if !world.attempts(|p.trace|).prepared {
      UnpreparedDone(plan, world, file, p, t, c, a, plan.maxAttempts - a + 1);
      p', end := p, Abort(PreparationFailed);
    } else {
      var p1, verdict := OneDispatch(plan, world, file, p, t, c, a, plan.maxAttempts - a + 1);
      if verdict.Some? {
        p', end := p1, verdict.value;
      } else {
        p', end := AttemptsRetry(plan, world, file, p, p1, t, c, a);
      }
    }
  }

  lemma {:induction false} AttemptsRetry(
    plan: Plan, world: World, file: Option<S.Checkpoint>, p: Progress, p1: Progress, t: nat, c: nat, a: nat)
    returns (p': Progress, end: AttemptsEnd)
    requires a < plan.maxAttempts && Ready(plan, world, file, p1, t, c, a + 1) && Extends(p, p1, t)
    ensures (p', end) == Attempts(plan, world, p1, t, c, a + 1, Pause(a + 1))
    ensures AttemptsDone(plan, world, file, p, p', t, c, end, plan.maxAttempts - a + 1)
    decreases plan.maxAttempts - a, 0
  {
    p', end := AttemptsOk(plan, world, file, p1, t, c, a + 1);
    RetryDone(plan, world, file, p, p1, p', t, c, end, plan.maxAttempts - a);
  }

  /** A product, one round at a time. */
  function Times(rounds: nat, size: nat): nat {
    if rounds == 0 then 0 else size + Times(rounds - 1, size)
  }

  lemma {:induction false} TimesIsProduct(rounds: nat, size: nat)
    ensures Times(rounds, size) == rounds * size
  {
    if rounds > 0 {
      TimesIsProduct(rounds - 1, size);
      assert rounds * size == size + (rounds - 1) * size;
    }
  }

  /** What the continuations on one target leave behind. */
  ghost predicate ContinuationsDone(
    plan: Plan, world: World, file: Option<S.Checkpoint>, p: Progress, p': Progress, t: nat,
    end: ContinuationsEnd)
  {
    && Consistent(plan, world, file, p') && NoIdAhead(world, p') && p.trace <= p'.trace
    && (end == Stop(CheckpointIo) <==> CheckpointFailed(p'.trace))
    && (match end
        case Finished(o) => LastKept(p'.trace, t) == Some(o) && OutcomeIsComplete(o, plan.structured)
        case FellThrough(Some(o)) => LastKept(p'.trace, t) == Some(o)
        case FellThrough(None) => Allowed(plan, p'.trace, t + 1, 0, 1)
        case Stop(_) => true)
  }

  /** A progress from which continuation `c` may start, or has run out. */
  ghost predicate ContinuationReady(
    plan: Plan, world: World, file: Option<S.Checkpoint>, p: Progress, t: nat, c: nat, last: Option<Outcome>)
  {
    && t < |plan.providers| && plan.maxAttempts >= 1 && FreshIds(world)
    && Consistent(plan, world, file, p) && NoIdAhead(world, p) && !CheckpointFailed(p.trace)
    && LastKept(p.trace, t) == last
    && (if c <= plan.maxContinuations then Allowed(plan, p.trace, t, c, 1) else last.Some?)
  }

  /** From the attempts of one continuation to what follows it. */
  lemma AfterAttempts(
    plan: Plan, world: World, file: Option<S.Checkpoint>, p: Progress, p': Progress, t: nat, c: nat,
    last: Option<Outcome>, end: AttemptsEnd, most: int)
    requires ContinuationReady(plan, world, file, p, t, c, last)
    requires AttemptsDone(plan, world, file, p, p', t, c, end, most)
    ensures match Settle(plan, end, last)
            case Some(settled) => ContinuationsDone(plan, world, file, p, p', t, settled)
            case None => ContinuationReady(plan, world, file, p', t, c + 1, Some(end.o))
  {
  }

  lemma MoreContinuations(
    plan: Plan, world: World, file: Option<S.Checkpoint>, p: Progress, p1: Progress, p': Progress, t: nat,
    end: ContinuationsEnd)
    requires p.trace <= p1.trace && ContinuationsDone(plan, world, file, p1, p', t, end)
    ensures ContinuationsDone(plan, world, file, p, p', t, end)
  {
  }

  /** The attempts of continuation `c`, and the continuations after it. */
  lemma OneContinuation(
    plan: Plan, world: World, file: Option<S.Checkpoint>, p: Progress, t: nat, c: nat, last: Option<Outcome>)
    returns (p1: Progress, settled: Option<ContinuationsEnd>, held: Option<Outcome>)
    requires ContinuationReady(plan, world, file, p, t, c, last) && c <= plan.maxContinuations
    ensures p.trace <= p1.trace
    ensures Continuations(plan, world, p, t, c, last) ==
            match settled
            case Some(end) => (p1, end)
            case None => Continuations(plan, world, p1, t, c + 1, held)
    ensures match settled
            case Some(end) => ContinuationsDone(plan, world, file, p, p1, t, end)
            case None => ContinuationReady(plan, world, file, p1, t, c + 1, held)
  {
    assert Pause(1) == 200;
    var end;
    p1, end := AttemptsOk(plan, world, file, p, t, c, 1);
    AfterAttempts(plan, world, file, p, p1, t, c, last, end, plan.maxAttempts);
    settled, held := Settle(plan, end, last), if end.Succeeded? then Some(end.o) else None;
  }

  lemma NoContinuationLeft(
    plan: Plan, world: World, file: Option<S.Checkpoint>, p: Progress, t: nat, c: nat, last: Option<Outcome>)
    requires ContinuationReady(plan, world, file, p, t, c, last) && c > plan.maxContinuations
    ensures Continuations(plan, world, p, t, c, last) == (p, FellThrough(last))
    ensures ContinuationsDone(plan, world, file, p, p, t, FellThrough(last))
  {
  }

  /** What the continuations from `c` on leave behind, when they start from `p1` some time after `p`. */
  ghost predicate ContinuationsWell(
    plan: Plan, world: World, file: Option<S.Checkpoint>, p: Progress, p1: Progress, t: nat, c: nat,
    last: Option<Outcome>)
    requires t < |plan.providers|
  {
    var (p', end) := Continuations(plan, world, p1, t, c, last);
    ContinuationsDone(plan, world, file, p, p', t, end)
  }

  lemma OneSettles(
    plan: Plan, world: World, file: Option<S.Checkpoint>, p: Progress, t: nat, c: nat, last: Option<Outcome>)
    returns (p1: Progress, held: Option<Outcome>)
    requires ContinuationReady(plan, world, file, p, t, c, last)
    ensures || ContinuationsWell(plan, world, file, p, p, t, c, last)
            || (&& c <= plan.maxContinuations
                && p.trace <= p1.trace && ContinuationReady(plan, world, file, p1, t, c + 1, held)
                && Continuations(plan, world, p, t, c, last) == Continuations(plan, world, p1, t, c + 1, held))
  {
    if c > plan.maxContinuations {
      NoContinuationLeft(plan, world, file, p, t, c, last);
      p1, held := p, last;
    } else {
      var settled;
      p1, settled, held := OneContinuation(plan, world, file, p, t, c, last);
    }
  }

  lemma {:induction false} ContinuationsOk(
    plan: Plan, world: World, file: Option<S.Checkpoint>, p: Progress, t: nat, c: nat, last: Option<Outcome>)
    requires ContinuationReady(plan, world, file, p, t, c, last) && c <= plan.maxContinuations + 1
    ensures ContinuationsWell(plan, world, file, p, p, t, c, last)
    decreases plan.maxContinuations + 1 - c, 1
  {
    var p1, held := OneSettles(plan, world, file, p, t, c, last);
    if !ContinuationsWell(plan, world, file, p, p, t, c, last) {
      ContinuationsRest(plan, world, file, p, p1, t, c + 1, held);
    }
  }

  lemma {:induction false} ContinuationsRest(
    plan: Plan, world: World, file: Option<S.Checkpoint>, p: Progress, p1: Progress, t: nat, c: nat,
    last: Option<Outcome>)
    requires ContinuationReady(plan, world, file, p1, t, c, last) && c <= plan.maxContinuations + 1
    requires p.trace <= p1.trace
    ensures ContinuationsWell(plan, world, file, p, p1, t, c, last)
    decreases plan.maxContinuations + 2 - c, 0
  {
    ContinuationsOk(plan, world, file, p1, t, c, last);
    var (p', end) := Continuations(plan, world, p1, t, c, last);
    MoreContinuations(plan, world, file, p, p1, p', t, end);
  }

  /** What the targets, from one on, leave behind. */
  ghost predicate TargetsDone(
    plan: Plan, world: World, file: Option<S.Checkpoint>, p: Progress, p': Progress, end: PhaseEnd)
  {
    && Consistent(plan, world, file, p') && p.trace <= p'.trace
    && (end == PhaseErr(CheckpointIo) <==> CheckpointFailed(p'.trace))
    && (end.Success? ==> LastKept(p'.trace, end.target) == Some(end.o))
  }

  /** A progress from which target `t` may start, or has run out. */
  ghost predicate TargetReady(plan: Plan, world: World, file: Option<S.Checkpoint>, p: Progress, t: nat) {
    && plan.maxAttempts >= 1 && t <= |plan.providers| && FreshIds(world)
    && Consistent(plan, world, file, p) && NoIdAhead(world, p) && Allowed(plan, p.trace, t, 0, 1)
  }

  lemma TargetStarts(plan: Plan, world: World, file: Option<S.Checkpoint>, p: Progress, t: nat)
    requires TargetReady(plan, world, file, p, t)
    ensures LastKept(p.trace, t) == None && !CheckpointFailed(p.trace)
    ensures t < |plan.providers| ==> ContinuationReady(plan, world, file, p, t, 0, None)
  {
  }

  /** From the continuations on one target to what follows it. */
  lemma AfterContinuations(
    plan: Plan, world: World, file: Option<S.Checkpoint>, p: Progress, p': Progress, t: nat, end: ContinuationsEnd)
    requires plan.maxAttempts >= 1 && t < |plan.providers| && FreshIds(world)
    requires ContinuationsDone(plan, world, file, p, p', t, end)
    ensures match SettleTarget(end, t)
            case Some(settled) => TargetsDone(plan, world, file, p, p', settled)
            case None => TargetReady(plan, world, file, p', t + 1)
  {
  }

  lemma MoreTargets(
    plan: Plan, world: World, file: Option<S.Checkpoint>, p: Progress, p1: Progress, p': Progress, end: PhaseEnd)
    requires p.trace <= p1.trace && TargetsDone(plan, world, file, p1, p', end)
    ensures TargetsDone(plan, world, file, p, p', end)
  {
  }

  /** All continuations on target `t`, and the targets after it. */
  lemma OneTarget(plan: Plan, world: World, file: Option<S.Checkpoint>, p: Progress, t: nat)
    returns (p1: Progress, settled: Option<PhaseEnd>)
    requires TargetReady(plan, world, file, p, t) && t < |plan.providers| && world.resolves(t)
    ensures p.trace <= p1.trace
    ensures Targets(plan, world, p, t) ==
            match settled
            case Some(end) => (p1, end)
            case None => Targets(plan, world, p1, t + 1)
    ensures match settled
            case Some(end) => TargetsDone(plan, world, file, p, p1, end)
            case None => TargetReady(plan, world, file, p1, t + 1)
  {
    TargetStarts(plan, world, file, p, t);
    ContinuationsOk(plan, world, file, p, t, 0, None);
    var result := Continuations(plan, world, p, t, 0, None);
    var end := result.1;
    p1 := result.0;
    AfterContinuations(plan, world, file, p, p1, t, end);
    settled := SettleTarget(end, t);
  }

  lemma {:induction false} TargetsOk(plan: Plan, world: World, file: Option<S.Checkpoint>, p: Progress, t: nat)
    requires TargetReady(plan, world, file, p, t)
    ensures var (p', end) := Targets(plan, world, p, t);
            TargetsDone(plan, world, file, p, p', end)
    decreases |plan.providers| - t, 1
  {
    if t == |plan.providers| || !world.resolves(t) {
      TargetStarts(plan, world, file, p, t);
    } else {
      var p1, settled := OneTarget(plan, world, file, p, t);
      if settled.None? { TargetsRest(plan, world, file, p, p1, t + 1); }
    }
  }

  lemma {:induction false} TargetsRest(
    plan: Plan, world: World, file: Option<S.Checkpoint>, p: Progress, p1: Progress, t: nat)
    requires TargetReady(plan, world, file, p1, t) && p.trace <= p1.trace
    ensures var (p', end) := Targets(plan, world, p1, t);
            TargetsDone(plan, world, file, p, p', end)
    decreases |plan.providers| + 1 - t, 0
  {
    TargetsOk(plan, world, file, p1, t);
    var (p', end) := Targets(plan, world, p1, t);
    MoreTargets(plan, world, file, p, p1, p', end);
  }

  // ---- how many dispatches ----

  lemma {:induction false} AttemptsCount(
    plan: Plan, world: World, p: Progress, t: nat, c: nat, a: nat, backoff: nat, left: nat)
    requires t < |plan.providers| && a + left == plan.maxAttempts + 1
    ensures |Attempts(plan, world, p, t, c, a, backoff).0.trace| <= |p.trace| + left
    decreases left
  {
    if left > 0 && world.attempts(|p.trace|).prepared {
      var d := DispatchNow(plan, world, p, t, c, a, backoff);
      AttemptsCount(plan, world, Progress(d.end.file, p.trace + [d]), t, c, a + 1, NextBackoff(backoff), left - 1);
    }
  }

  lemma {:induction false} ContinuationsCount(
    plan: Plan, world: World, p: Progress, t: nat, c: nat, last: Option<Outcome>, left: nat)
    requires t < |plan.providers| && c + left == plan.maxContinuations + 1
    ensures |Continuations(plan, world, p, t, c, last).0.trace| <= |p.trace| + Times(left, plan.maxAttempts)
    decreases left
  {
    if left > 0 {
      AttemptsCount(plan, world, p, t, c, 1, 200, plan.maxAttempts);
      var (p1, end) := Attempts(plan, world, p, t, c, 1, 200);
      if Settle(plan, end, last).None? { ContinuationsCount(plan, world, p1, t, c + 1, Some(end.o), left - 1); }
    }
  }

  lemma {:induction false} TargetsCount(plan: Plan, world: World, p: Progress, t: nat, left: nat)
    requires t + left == |plan.providers|
    ensures |Targets(plan, world, p, t).0.trace| <=
            |p.trace| + Times(left, Times(plan.maxContinuations + 1, plan.maxAttempts))
    decreases left
  {
    if left > 0 && world.resolves(t) {
      ContinuationsCount(plan, world, p, t, 0, None, plan.maxContinuations + 1);
      var (p1, end) := Continuations(plan, world, p, t, 0, None);
      if SettleTarget(end, t).None? { TargetsCount(plan, world, p1, t + 1, left - 1); }
    }
  }

  lemma CallCount(plan: Plan, world: World, file: Option<S.Checkpoint>)
    ensures |RunPhaseCall(plan, world, file).0| <=
            |plan.providers| * ((plan.maxContinuations + 1) * plan.maxAttempts)
  {
    TargetsCount(plan, world, Progress(file, []), 0, |plan.providers|);
    TimesIsProduct(plan.maxContinuations + 1, plan.maxAttempts);
    TimesIsProduct(|plan.providers|, Times(plan.maxContinuations + 1, plan.maxAttempts));
  }

  // ---- the guarantees of one phase call ----

  /** A call on the checkpoint file `file` with no dispatch made yet. */
  function RunPhaseCall(plan: Plan, world: World, file: Option<S.Checkpoint>): (seq<Dispatch>, PhaseEnd) {
    var (p, end) := Targets(plan, world, Progress(file, []), 0);
    (p.trace, end)
  }

  ghost predicate FreshFor(world: World, file: Option<S.Checkpoint>) {
    FreshIds(world) && NoIdAhead(world, Progress(file, []))
  }

  /** With no attempt allowed the targets are walked through without a dispatch. */
  lemma {:induction false} NoAttempts(plan: Plan, world: World, p: Progress, t: nat)
    requires plan.maxAttempts == 0
    ensures Targets(plan, world, p, t) ==
            (p, PhaseErr(if forall i :: t <= i < |plan.providers| ==> world.resolves(i) then Exhausted
                         else PreparationFailed))
    decreases |plan.providers| - t
  {
    if t < |plan.providers| && world.resolves(t) {
      assert Attempts(plan, world, p, t, 0, 1, 200) == (p, MoveOn);
      NoAttempts(plan, world, p, t + 1);
    }
  }

  lemma CallOk(plan: Plan, world: World, file: Option<S.Checkpoint>)
    requires FreshFor(world, file) && plan.maxAttempts >= 1
    ensures var (trace, end) := RunPhaseCall(plan, world, file);
            && Path(plan, world, file, trace)
            && |trace| <= |plan.providers| * ((plan.maxContinuations + 1) * plan.maxAttempts)
            && (end.Success? ==> LastKept(trace, end.target) == Some(end.o))
            && (end == PhaseErr(CheckpointIo) <==> CheckpointFailed(trace))
  {
    TargetsOk(plan, world, file, Progress(file, []), 0);
    CallCount(plan, world, file);
  }

  /**
   For every plan and world: the dispatches form a path of retries,
   continuations and failovers; there are at most
   targets * (continuations + 1) * attempts of them; a returned outcome is the
   last one held for its target; and the call ends in a checkpoint error exactly
   when its last dispatch failed to write its checkpoint.
   */
  lemma CallIsPath(plan: Plan, world: World, file: Option<S.Checkpoint>)
    requires FreshFor(world, file)
    ensures var (trace, end) := RunPhaseCall(plan, world, file);
            && Path(plan, world, file, trace)
            && |trace| <= |plan.providers| * ((plan.maxContinuations + 1) * plan.maxAttempts)
            && (end.Success? ==> LastKept(trace, end.target) == Some(end.o))
            && (end == PhaseErr(CheckpointIo) <==> CheckpointFailed(trace))
  {
    if plan.maxAttempts == 0 {
      NoAttempts(plan, world, Progress(file, []), 0);
    } else {
      CallOk(plan, world, file);
    }
  }

  lemma {:induction false} PathPrefix(
    plan: Plan, world: World, file: Option<S.Checkpoint>, trace: seq<Dispatch>, n: nat)
    requires Path(plan, world, file, trace) && n <= |trace|
    ensures Path(plan, world, file, trace[..n])
  {
    if n < |trace| {
      PathPrefix(plan, world, file, trace[..|trace| - 1], n);
      assert trace[..|trace| - 1][..n] == trace[..n];
    } else {
      assert trace[..n] == trace;
    }
  }

  /** Every dispatch was answered by the world, and all but the first were allowed after those before. */
  lemma NextAllowed(plan: Plan, world: World, file: Option<S.Checkpoint>, i: nat)
    requires FreshFor(world, file)
    requires i + 1 < |RunPhaseCall(plan, world, file).0|
    ensures var trace := RunPhaseCall(plan, world, file).0;
            var next := trace[i + 1];
            && Allowed(plan, trace[..i + 1], next.target, next.continuation, next.attempt)
            && InRange(plan, next) && next.before == trace[i].end.file
            && InRange(plan, trace[i]) && Answered(plan, world, trace[i], i)
  {
    CallIsPath(plan, world, file);
    var trace := RunPhaseCall(plan, world, file).0;
    PathPrefix(plan, world, file, trace, i + 2);
    PathPrefix(plan, world, file, trace, i + 1);
    assert trace[..i + 2][..i + 1] == trace[..i + 1];
  }

  /**
   No dispatch happens over a live checkpoint: whatever writes fail, when a
   dispatch is followed by another one, the checkpoint on disk was Completed or
   Failed in between and the result was neither of the checkpoint errors; so
   after such an error nothing is dispatched. The session of the first is still
   at work if and only if it outlives its stream.
   */
  lemma NoDispatchOverLiveSession(plan: Plan, world: World, file: Option<S.Checkpoint>, i: nat)
    requires FreshFor(world, file)
    requires i + 1 < |RunPhaseCall(plan, world, file).0|
    ensures var trace := RunPhaseCall(plan, world, file).0;
            && S.Over(trace[i].end.file) && trace[i + 1].before == trace[i].end.file
            && (trace[i].end.result.Delivered? || trace[i].end.result.StreamError?)
            && (trace[i].end.live <==> world.attempts(i).outlives)
  {
    NextAllowed(plan, world, file, i);
    var trace := RunPhaseCall(plan, world, file).0;
    assert trace[..i + 1][i] == trace[i];
  }

  /**
   A retry follows an error that the author's configuration lets through: its
   class is not excluded, is listed when there is a list, and is transient when
   there is none. It waits the capped doubling of 200 milliseconds.
   */
  lemma RetriesFollowConfiguration(plan: Plan, world: World, file: Option<S.Checkpoint>, i: nat)
    requires FreshFor(world, file)
    requires i + 1 < |RunPhaseCall(plan, world, file).0| && RunPhaseCall(plan, world, file).0[i + 1].attempt > 1
    ensures var d := RunPhaseCall(plan, world, file).0[i];
            && d.end.result.StreamError? && d.attempt >= 1 && d.slept == Some(Pause(d.attempt))
            && var kind := plan.classify(d.end.result.message);
            && FailureToken(kind) !in plan.noRetryOn
            && (plan.retryOn != [] ==> FailureToken(kind) in plan.retryOn)
            && (plan.retryOn == [] ==> kind.TransientRunner?)
  {
    NextAllowed(plan, world, file, i);
    var trace := RunPhaseCall(plan, world, file).0;
    assert trace[..i + 1][i] == trace[i];
  }

  /** A target is left for the next one only after a failover-class error, with no outcome held for it. */
  lemma TargetsLeftOnFailover(plan: Plan, world: World, file: Option<S.Checkpoint>, i: nat)
    requires FreshFor(world, file)
    requires i + 1 < |RunPhaseCall(plan, world, file).0|
    ensures var trace := RunPhaseCall(plan, world, file).0;
            trace[i + 1].target != trace[i].target ==>
              && trace[i + 1].target == trace[i].target + 1
              && trace[i].end.result.StreamError? && ShouldFailover(plan.classify(trace[i].end.result.message))
              && LastKept(trace[..i + 1], trace[i].target) == None
  {
    NextAllowed(plan, world, file, i);
    var trace := RunPhaseCall(plan, world, file).0;
    assert trace[..i + 1][i] == trace[i];
  }

  // ---- a retry can meet a session that is still at work ----

  lemma {:induction false} AttemptsExtend(plan: Plan, world: World, p: Progress, t: nat, c: nat, a: nat, backoff: nat)
    requires t < |plan.providers|
    ensures p.trace <= Attempts(plan, world, p, t, c, a, backoff).0.trace
    decreases plan.maxAttempts + 1 - a
  {
    if a <= plan.maxAttempts && world.attempts(|p.trace|).prepared {
      var d := DispatchNow(plan, world, p, t, c, a, backoff);
      var p' := Progress(d.end.file, p.trace + [d]);
      if Verdict(plan, d).None? { AttemptsExtend(plan, world, p', t, c, a + 1, NextBackoff(backoff)); }
    }
  }

  lemma {:induction false} ContinuationsExtend(
    plan: Plan, world: World, p: Progress, t: nat, c: nat, last: Option<Outcome>)
    requires t < |plan.providers|
    ensures p.trace <= Continuations(plan, world, p, t, c, last).0.trace
    ensures c <= plan.maxContinuations ==>
              Attempts(plan, world, p, t, c, 1, 200).0.trace <= Continuations(plan, world, p, t, c, last).0.trace
    decreases plan.maxContinuations + 1 - c
  {
    if c <= plan.maxContinuations {
      AttemptsExtend(plan, world, p, t, c, 1, 200);
      var (p', end) := Attempts(plan, world, p, t, c, 1, 200);
      if Settle(plan, end, last).None? { ContinuationsExtend(plan, world, p', t, c + 1, Some(end.o)); }
    }
  }

  lemma {:induction false} TargetsExtend(plan: Plan, world: World, p: Progress, t: nat)
    ensures p.trace <= Targets(plan, world, p, t).0.trace
    ensures t < |plan.providers| && world.resolves(t) ==>
              Continuations(plan, world, p, t, 0, None).0.trace <= Targets(plan, world, p, t).0.trace
    decreases |plan.providers| - t
  {
    if t < |plan.providers| && world.resolves(t) {
      ContinuationsExtend(plan, world, p, t, 0, None);
      var (p', end) := Continuations(plan, world, p, t, 0, None);
      if SettleTarget(end, t).None? { TargetsExtend(plan, world, p', t + 1); }
    }
  }

  /** The first attempt starts its session, writes its checkpoints and ends in the error `m`. */
  predicate FailsWith(e: AttemptEnv, m: string) {
    && e.prepared && e.pending.Clean? && e.startError.None? && e.running.Clean? && e.terminal.Clean?
    && e.stream == Err(m)
  }

  lemma FirstAttemptFails(plan: Plan, world: World, file: Option<S.Checkpoint>, m: string) returns (d: Dispatch)
    requires |plan.providers| >= 1 && FailsWith(world.attempts(0), m) && Retries(plan, m, 1)
    ensures d == DispatchNow(plan, world, Progress(file, []), 0, 0, 1, 200)
    ensures Verdict(plan, d) == None && d.end.live == world.attempts(0).outlives
  {
    var e := world.attempts(0);
    PolledKeepsStatus(S.MarkRunning(S.PendingCheckpoint(plan.providers[0], e.runId)), e.polls);
    d := DispatchNow(plan, world, Progress(file, []), 0, 0, 1, 200);
  }

  /**
   After an error the configuration retries, the second dispatch is made whether
   or not the first session is still at work: it meets a live session exactly
   when that session outlives its stream.
   */
  lemma RetryMeetsSession(plan: Plan, world: World, file: Option<S.Checkpoint>, m: string)
    requires |plan.providers| >= 1 && world.resolves(0)
    requires FailsWith(world.attempts(0), m) && Retries(plan, m, 1) && world.attempts(1).prepared
    ensures var trace := RunPhaseCall(plan, world, file).0;
            |trace| >= 2 && trace[1].before == trace[0].end.file && (trace[0].end.live <==> world.attempts(0).outlives)
  {
    var p := Progress(file, []);
    var d := FirstAttemptFails(plan, world, file, m);
    var p1 := Progress(d.end.file, [d]);
    assert p.trace + [d] == [d];
    var d1 := DispatchNow(plan, world, p1, 0, 0, 2, NextBackoff(200));
    var p2 := Progress(d1.end.file, p1.trace + [d1]);
    if Verdict(plan, d1).None? { AttemptsExtend(plan, world, p2, 0, 0, 3, NextBackoff(NextBackoff(200))); }
    assert p2.trace <= Attempts(plan, world, p1, 0, 0, 2, NextBackoff(200)).0.trace;
    assert Attempts(plan, world, p, 0, 0, 1, 200) == Attempts(plan, world, p1, 0, 0, 2, NextBackoff(200));
    ContinuationsExtend(plan, world, p, 0, 0, None);
    TargetsExtend(plan, world, p, 0);
    var trace := RunPhaseCall(plan, world, file).0;
    assert trace[0] == p2.trace[0] == d && trace[1] == p2.trace[1] == d1;
  }
}
