/**
 Guarantees of the workflow loop over every run: exactly-once execution,
 faithful replay, the eval budget and the manual gate. The two guarantees that
 need a condition come with runs that break them when it fails.
 */
module CrashTheorems {
  import opened Common
  import opened DurableWrite
  import opened Json
  import opened PhaseOutput
  import opened PhaseEvals
  import opened CrashReplay
  import opened CrashInvariants

  // ---- exactly once ----

  /** How often the workflow loop has begun `key`. */
  function BeganCount(log: seq<Event>, key: Key): nat {
    if log == [] then 0
    else (if log[|log| - 1].Began? && log[|log| - 1].key == key then 1 else 0) + BeganCount(log[..|log| - 1], key)
  }

  /** How often `key` has run, in the workflow loop or alone. */
  function Executions(log: seq<Event>, key: Key): nat {
    if log == [] then 0
    else
      var e := log[|log| - 1];
      (if (e.Began? || e.RanAlone?) && e.key == key then 1 else 0) + Executions(log[..|log| - 1], key)
  }

  lemma CountsGrow(log: seq<Event>, e: Event, key: Key)
    ensures BeganCount(log + [e], key) == BeganCount(log, key) + if e.Began? && e.key == key then 1 else 0
    ensures Executions(log + [e], key) ==
            Executions(log, key) + if (e.Began? || e.RanAlone?) && e.key == key then 1 else 0
  {
    assert (log + [e])[..|log + [e]| - 1] == log;
  }

  /** The single-phase runs in `run` that name `key.id` while its present attempt is `key.attempt`. */
  ghost function AloneRuns(c: Config, hub: Hub, s: State, run: seq<Action>, key: Key): nat
    requires Possible(c, hub, s, run)
    decreases |run|
  {
    if run == [] then 0
    else
      (if run[0].SinglePhase? && AloneKey(s.disk.workflow, run[0].id) == key then 1 else 0) +
      AloneRuns(c, hub, Do(c, hub, s, run[0]), run[1..], key)
  }

  /** What an action adds to the log. */
  lemma Logged(c: Config, hub: Hub, s: State, a: Action) returns (e: Option<Event>)
    requires Enabled(c, s, a)
    ensures Do(c, hub, s, a).log == if e.Some? then s.log + [e.value] else s.log
    ensures e.Some? && e.value.Began? <==> a.Begin?
    ensures a.Begin? ==> e.value.key == CurrentKey(s.mem) && e.value.context == s.mem.reworkContext
    ensures e.Some? && e.value.RanAlone? <==> a.SinglePhase?
    ensures a.SinglePhase? ==> e.value.key == AloneKey(s.disk.workflow, a.id)
    ensures e.Some? && e.value.Started? <==> a.Start?
    ensures e.Some? && e.value.Applied? <==> a.Apply? || a.Replay?
  {
    var s' := Do(c, hub, s, a);
    e := if s'.log == s.log then None else Some(s'.log[|s.log|]);
  }

  /** A marked attempt is not begun by any action, and executed by a single-phase run alone. */
  lemma MarkedStep(c: Config, hub: Hub, s: State, a: Action, key: Key)
    requires Enabled(c, s, a) && key in s.disk.markers
    ensures var s' := Do(c, hub, s, a);
            && key in s'.disk.markers
            && BeganCount(s'.log, key) == BeganCount(s.log, key)
            && Executions(s'.log, key) ==
               Executions(s.log, key) + if a.SinglePhase? && AloneKey(s.disk.workflow, a.id) == key then 1 else 0
  {
    var e := Logged(c, hub, s, a);
    if e.Some? { CountsGrow(s.log, e.value, key); }
  }

  /**
   Once the marker of a (phase, attempt) is durable, the loop never begins that
   attempt again, whatever crashes, failed writes or single-phase runs occur.
   Its further executions are exactly the single-phase runs made at it.
   */
  lemma {:induction false} MarkedRunsOnlyAlone(c: Config, hub: Hub, s: State, run: seq<Action>, key: Key)
    requires Possible(c, hub, s, run) && key in s.disk.markers
    ensures var s' := EndOf(c, hub, s, run);
            && key in s'.disk.markers
            && BeganCount(s'.log, key) == BeganCount(s.log, key)
            && Executions(s'.log, key) == Executions(s.log, key) + AloneRuns(c, hub, s, run, key)
    decreases |run|
  {
    if run != [] {
      MarkedStep(c, hub, s, run[0], key);
      MarkedRunsOnlyAlone(c, hub, Do(c, hub, s, run[0]), run[1..], key);
    }
  }

  lemma {:induction false} NoAloneRuns(c: Config, hub: Hub, s: State, run: seq<Action>, key: Key)
    requires Possible(c, hub, s, run) && FullWorkflow(run)
    ensures AloneRuns(c, hub, s, run, key) == 0
    decreases |run|
  {
    if run != [] { NoAloneRuns(c, hub, Do(c, hub, s, run[0]), run[1..], key); }
  }

  /** Without single-phase runs a marked attempt is never executed again. */
  lemma MarkedNeverRunsAgain(c: Config, hub: Hub, s: State, run: seq<Action>, key: Key)
    requires Possible(c, hub, s, run) && FullWorkflow(run) && key in s.disk.markers
    ensures key in EndOf(c, hub, s, run).disk.markers
    ensures Executions(EndOf(c, hub, s, run).log, key) == Executions(s.log, key)
  {
    MarkedRunsOnlyAlone(c, hub, s, run, key);
    NoAloneRuns(c, hub, s, run, key);
  }

  // ---- once in a call ----

  /** How often the loop has begun `key` since the current call started. */
  function BegunInCall(log: seq<Event>, key: Key): nat {
    if log == [] then 0
    else
      var e := log[|log| - 1];
      if e.Started? then 0
      else (if e.Began? && e.key == key then 1 else 0) + BegunInCall(log[..|log| - 1], key)
  }

  lemma CallGrows(log: seq<Event>, e: Event, key: Key)
    ensures BegunInCall(log + [e], key) ==
            if e.Started? then 0 else (if e.Began? && e.key == key then 1 else 0) + BegunInCall(log, key)
  {
    assert (log + [e])[..|log + [e]| - 1] == log;
  }

  /** What the loop has begun in this call is being executed now, or is over. */
  predicate BegunIsOver(s: State, key: Key) {
    && BegunInCall(s.log, key) <= 1
    && (Live(s.proc) && BegunInCall(s.log, key) == 1 ==>
          || (MidPhase(s.proc) && MemRuns(s.mem) && CurrentKey(s.mem) == key)
          || SettledOrPast(s.disk.workflow, key))
  }

  /** Completing the phase that runs settles its attempt. */
  lemma ApplyEnds(c: Config, hub: Hub, s: State, key: Key)
    requires HubOk(hub) && Sync(s) && BegunIsOver(s, key) && Enabled(c, s, Apply)
    ensures BegunIsOver(Do(c, hub, s, Apply), key)
  {
    var e := Logged(c, hub, s, Apply);
    CallGrows(s.log, e.value, key);
    CurrentKeyIs(s);
    HubOrSame(c, hub, s, Apply);
    assert HubAnswers(hub, s.disk.workflow, s.proc.o.decision);
  }

  lemma OtherStepsKeepOver(c: Config, hub: Hub, s: State, a: Action, key: Key)
    requires HubOk(hub) && Sync(s) && BegunIsOver(s, key) && Enabled(c, s, a) && !a.Apply? && !a.Begin? && !a.Start?
    ensures BegunIsOver(Do(c, hub, s, a), key)
  {
    var e := Logged(c, hub, s, a);
    if e.Some? { CallGrows(s.log, e.value, key); }
    HubOrSame(c, hub, s, a);
    if SettledOrPast(s.disk.workflow, key) {
      SettledStays(s.disk.workflow, Do(c, hub, s, a).disk.workflow, key);
    }
  }

  lemma StepKeepsOver(c: Config, hub: Hub, s: State, a: Action, key: Key)
    requires HubOk(hub) && Sync(s) && BegunIsOver(s, key) && Enabled(c, s, a)
    ensures BegunIsOver(Do(c, hub, s, a), key)
  {
    if a.Apply? {
      ApplyEnds(c, hub, s, key);
    } else if a.Begin? || a.Start? {
      var e := Logged(c, hub, s, a);
      CallGrows(s.log, e.value, key);
      if a.Begin? { CurrentKeyIs(s); }
    } else {
      OtherStepsKeepOver(c, hub, s, a, key);
    }
  }

  lemma {:induction false} OverHolds(c: Config, hub: Hub, s: State, run: seq<Action>, key: Key)
    requires HubOk(hub) && Sync(s) && BegunIsOver(s, key) && Possible(c, hub, s, run)
    ensures BegunIsOver(EndOf(c, hub, s, run), key)
    decreases |run|
  {
    if run != [] {
      StepKeepsOver(c, hub, s, run[0], key);
      SyncKept(c, hub, s, run[0]);
      OverHolds(c, hub, Do(c, hub, s, run[0]), run[1..], key);
    }
  }

  /**
   In one call the loop begins each (phase, attempt) at most once, marked or
   not, and in the call's further course that attempt is executed now or is over.
   */
  lemma BegunOncePerCall(c: Config, hub: Hub, s0: State, run: seq<Action>, key: Key)
    requires HubOk(hub) && Initial(s0) && Possible(c, hub, s0, run)
    ensures BegunInCall(EndOf(c, hub, s0, run).log, key) <= 1
    ensures BegunIsOver(EndOf(c, hub, s0, run), key)
  {
    OverHolds(c, hub, s0, run, key);
  }

  // ---- what a rework is told ----

  /** A decision reached by running the phase in this call asks for a rework with reason `r`. */
  predicate AsksRework(e: Event, r: string) {
    e.Applied? && !e.replayed && e.decision.Some? && e.decision.value.verdict.Rework? && e.decision.value.reason == r
  }

  /** Starting, beginning a phase and applying a new decision leave no earlier request standing. */
  predicate Clears(e: Event) {
    e.Started? || e.Began? || (e.Applied? && !e.replayed)
  }

  /** The last of these events asks for a rework with reason `r`. */
  predicate Asked(log: seq<Event>, r: string) {
    exists j :: 0 <= j < |log| && AsksRework(log[j], r) && forall k :: j < k < |log| ==> !Clears(log[k])
  }

  /** What `e` makes of the requests before it. */
  predicate AskedThen(log: seq<Event>, e: Event, r: string) {
    if Clears(e) then AsksRework(e, r) else Asked(log, r)
  }

  lemma AskedGrows(log: seq<Event>, e: Event, r: string)
    ensures Asked(log + [e], r) <==> AskedThen(log, e, r)
  {
    if Asked(log + [e], r) { AskedBefore(log, e, r); }
    if AskedThen(log, e, r) { AskedAfter(log, e, r); }
  }

  lemma AskedBefore(log: seq<Event>, e: Event, r: string)
    requires Asked(log + [e], r)
    ensures AskedThen(log, e, r)
  {
    var all := log + [e];
    var j :| 0 <= j < |all| && AsksRework(all[j], r) && forall k :: j < k < |all| ==> !Clears(all[k]);
    assert all[|log|] == e;
    if j < |log| {
      assert AsksRework(log[j], r);
      forall k | j < k < |log| ensures !Clears(log[k]) { assert log[k] == all[k]; }
    }
  }

  lemma AskedAfter(log: seq<Event>, e: Event, r: string)
    requires AskedThen(log, e, r)
    ensures Asked(log + [e], r)
  {
    var all := log + [e];
    assert all[|log|] == e;
    if !Clears(e) {
      var j :| 0 <= j < |log| && AsksRework(log[j], r) && forall k :: j < k < |log| ==> !Clears(log[k]);
      assert AsksRework(all[j], r);
      forall k | j < k < |all| ensures !Clears(all[k]) { assert k < |log| ==> all[k] == log[k]; }
    }
  }

  /** Each beginning so far was told what was asked, and so will be the next one. */
  ghost predicate Told(s: State) {
    && (forall i, r :: 0 <= i < |s.log| && s.log[i].Began? ==>
          (s.log[i].context == Some(r) <==> Asked(s.log[..i], r)))
    && (Live(s.proc) ==> forall r :: s.mem.reworkContext == Some(r) <==> Asked(s.log, r))
  }

  lemma ToldLog(log: seq<Event>, e: Event, context: Option<string>)
    requires forall i, r :: 0 <= i < |log| && log[i].Began? ==> (log[i].context == Some(r) <==> Asked(log[..i], r))
    requires e.Began? ==> e.context == context && forall r :: context == Some(r) <==> Asked(log, r)
    ensures var all := log + [e];
            forall i, r :: 0 <= i < |all| && all[i].Began? ==> (all[i].context == Some(r) <==> Asked(all[..i], r))
  {
    var all := log + [e];
    forall i, r | 0 <= i < |all| && all[i].Began? ensures all[i].context == Some(r) <==> Asked(all[..i], r) {
      assert all[..i] == log[..i];
      if i == |log| { assert log[..i] == log; }
    }
  }

  /** The loop keeps in memory what the log asks for. */
  lemma ContextKept(c: Config, hub: Hub, s: State, a: Action, r: string)
    requires Enabled(c, s, a) && (Live(s.proc) ==> (s.mem.reworkContext == Some(r) <==> Asked(s.log, r)))
    ensures var s' := Do(c, hub, s, a);
            Live(s'.proc) ==> (s'.mem.reworkContext == Some(r) <==> Asked(s'.log, r))
  {
    if a.Apply? {
      AskedGrows(s.log, Applied(CurrentKey(s.mem), s.proc.o.decision, false), r);
    } else if a.Replay? {
      var d := ReadDecision(FileOf(s.disk, CurrentKey(s.mem).id)).value;
      AskedGrows(s.log, Applied(CurrentKey(s.mem), Some(d), true), r);
    } else {
      OthersKeepContext(c, hub, s, a, r);
    }
  }

  lemma OthersKeepContext(c: Config, hub: Hub, s: State, a: Action, r: string)
    requires Enabled(c, s, a) && (Live(s.proc) ==> (s.mem.reworkContext == Some(r) <==> Asked(s.log, r)))
    requires !a.Apply? && !a.Replay?
    ensures var s' := Do(c, hub, s, a);
            Live(s'.proc) ==> (s'.mem.reworkContext == Some(r) <==> Asked(s'.log, r))
  {
    var e := Logged(c, hub, s, a);
    if e.Some? { AskedGrows(s.log, e.value, r); }
  }

  lemma ToldKept(c: Config, hub: Hub, s: State, a: Action)
    requires Told(s) && Enabled(c, s, a)
    ensures Told(Do(c, hub, s, a))
  {
    var e := Logged(c, hub, s, a);
    if e.Some? { ToldLog(s.log, e.value, s.mem.reworkContext); }
    forall r ensures var s' := Do(c, hub, s, a);
                     Live(s'.proc) ==> (s'.mem.reworkContext == Some(r) <==> Asked(s'.log, r)) {
      ContextKept(c, hub, s, a, r);
    }
  }

  lemma {:induction false} ToldHolds(c: Config, hub: Hub, s: State, run: seq<Action>)
    requires Told(s) && Possible(c, hub, s, run)
    ensures Told(EndOf(c, hub, s, run))
    decreases |run|
  {
    if run != [] {
      ToldKept(c, hub, s, run[0]);
      ToldHolds(c, hub, Do(c, hub, s, run[0]), run[1..]);
    }
  }

  /**
   In every run a phase is begun with the reason of a rework if and only if the
   last decision that the loop reached by running a phase, in the same call and
   with no phase begun since, asked for a rework with that reason.
   */
  lemma ReworkIsTold(c: Config, hub: Hub, s0: State, run: seq<Action>, i: nat, r: string)
    requires Initial(s0) && Possible(c, hub, s0, run)
    requires i < |EndOf(c, hub, s0, run).log| && EndOf(c, hub, s0, run).log[i].Began?
    ensures var log := EndOf(c, hub, s0, run).log;
            log[i].context == Some(r) <==> Asked(log[..i], r)
  {
    ToldHolds(c, hub, s0, run);
  }

  // ---- applied once ----

  /**
   After any full-workflow run: each attempt's decision was applied at most
   once, never before its marker was durable, and never while that attempt
   could still be entered again.
   */
  lemma AppliedAtMostOnce(c: Config, hub: Hub, s0: State, run: seq<Action>)
    requires HubOk(hub) && Initial(s0) && Possible(c, hub, s0, run) && FullWorkflow(run)
    ensures var s := EndOf(c, hub, s0, run);
            && (forall i, j :: 0 <= i < j < |s.log| && s.log[i].Applied? && s.log[j].Applied? ==>
                  s.log[i].key != s.log[j].key)
            && (forall i :: 0 <= i < |s.log| && s.log[i].Applied? ==> s.log[i].key in s.disk.markers)
            && (Live(s.proc) && MemRuns(s.mem) ==>
                  forall i :: 0 <= i < |s.log| && s.log[i].Applied? ==> s.log[i].key != CurrentKey(s.mem))
  {
    InitialInv(c, s0);
    InvHolds(c, hub, s0, run);
    var s := EndOf(c, hub, s0, run);
    if Live(s.proc) && MemRuns(s.mem) { CurrentKeyIs(s); }
  }

  /**
   In every reachable state where the loop finds a marker, the output file
   holds what that same attempt wrote after it last began, although the file is
   keyed by phase only. The loop replays that attempt's decision, and blocks
   exactly when the verdict was `unknown`.
   */
  lemma ReplayAppliesOwnAttempt(c: Config, hub: Hub, s0: State, run: seq<Action>)
    requires HubOk(hub) && Initial(s0) && Possible(c, hub, s0, run) && FullWorkflow(run)
    ensures var s := EndOf(c, hub, s0, run);
            s.proc.AtLoop? && MemRuns(s.mem) && CurrentKey(s.mem) in s.disk.markers ==>
              var key := CurrentKey(s.mem);
              var o := LastWrote(s.log, key);
              && o.Some? && o.value.Completed?
              && FileOf(s.disk, key.id) == Holding(Persisted(key.id, o.value))
              && (Enabled(c, s, Replay) <==> Replayable(o.value))
              && (Enabled(c, s, Block) <==> !Replayable(o.value))
              && (Enabled(c, s, Replay) ==>
                    ReadDecision(FileOf(s.disk, key.id)).value.verdict == DecidedVerdict(o.value.decision))
  {
    InitialInv(c, s0);
    InvHolds(c, hub, s0, run);
    var s := EndOf(c, hub, s0, run);
    if s.proc.AtLoop? && MemRuns(s.mem) && CurrentKey(s.mem) in s.disk.markers {
      var key := CurrentKey(s.mem);
      CurrentKeyIs(s);
      assert Attested(s, key);
      PersistRoundTrip(key.id, LastWrote(s.log, key).value);
    }
  }

  // ---- the eval gate ----

  /** In one call, eval-forced reworks never exceed the phase's budget. */
  lemma EvalBudgetHolds(c: Config, hub: Hub, s0: State, run: seq<Action>, id: string)
    requires HubOk(hub) && Initial(s0) && Possible(c, hub, s0, run) && FullWorkflow(run)
    ensures ReworksInCall(EndOf(c, hub, s0, run).log, id) <= Budget(c, id)
  {
    InitialInv(c, s0);
    InvHolds(c, hub, s0, run);
  }

  /** One gate step under the budget's bookkeeping. */
  lemma MissStep(c: Config, hub: Hub, s: State, results: seq<CheckResult>, detail: string)
    requires WithinBudget(c, s) && Enabled(c, s, Evaluate(results, detail))
    requires var id := CurrentKey(s.mem).id;
             && EvalAdvancing(s.proc.o) && HasEvals(c, id)
             && FromResults(results).passRate < c.evals[id].passThreshold
    ensures var id := CurrentKey(s.mem).id;
            var s' := Do(c, hub, s, Evaluate(results, detail));
            && s'.proc.Gated? && s'.disk == s.disk
            && (s'.proc.o.ManualPending? <==>
                  ReworksInCall(s.log, id) == Budget(c, id) || c.evals[id].onFail == BlockPhase)
            && (s'.proc.o.Completed? ==>
                  && s'.proc.o.decision.Some? && s'.proc.o.decision.value.verdict == Rework
                  && ReworksInCall(s'.log, id) == ReworksInCall(s.log, id) + 1 <= Budget(c, id))
  {
    var id := CurrentKey(s.mem).id;
    var used := Used(s.mem, id);
    assert used == ReworksInCall(s.log, id);
    var s' := GateState(c, s, id, results, detail);
    assert s' == Do(c, hub, s, Evaluate(results, detail));
    LogGrows(s.log, Reworked(id));
  }

  /**
   After every full-workflow run, a miss of the checks is answered by the
   reworks of this call so far: once they have used up the phase's budget the
   phase stops for a human, and before that the miss becomes one more rework
   when the phase asks for reworks. Nothing durable changes at the gate.
   */
  lemma MissReworksOrPauses(
    c: Config, hub: Hub, s0: State, run: seq<Action>, results: seq<CheckResult>, detail: string)
    requires HubOk(hub) && Initial(s0) && Possible(c, hub, s0, run) && FullWorkflow(run)
    requires Enabled(c, EndOf(c, hub, s0, run), Evaluate(results, detail))
    requires var s := EndOf(c, hub, s0, run);
             var id := CurrentKey(s.mem).id;
             && EvalAdvancing(s.proc.o) && HasEvals(c, id)
             && FromResults(results).passRate < c.evals[id].passThreshold
    ensures var s := EndOf(c, hub, s0, run);
            var id, s' := CurrentKey(s.mem).id, Do(c, hub, s, Evaluate(results, detail));
            && s'.proc.Gated? && s'.disk == s.disk
            && (s'.proc.o.ManualPending? <==>
                  ReworksInCall(s.log, id) == Budget(c, id) || c.evals[id].onFail == BlockPhase)
            && (s'.proc.o.Completed? ==>
                  && s'.proc.o.decision.Some? && s'.proc.o.decision.value.verdict == Rework
                  && ReworksInCall(s'.log, id) == ReworksInCall(s.log, id) + 1 <= Budget(c, id))
  {
    InitialInv(c, s0);
    InvHolds(c, hub, s0, run);
    MissStep(c, hub, EndOf(c, hub, s0, run), results, detail);
  }

  /** A marker, if there is one, attests the outcome the gate let through. */
  predicate GateSound(s: State) {
    s.proc.Gated? && MemRuns(s.mem) && CurrentKey(s.mem) in s.disk.markers ==>
      HoldsOutput(s, CurrentKey(s.mem), s.proc.o)
  }

  /**
   A failing command writes its output and marker before the gate runs, so
   no command phase may declare checks that can miss.
   */
  predicate NoGatedCommand(c: Config) {
    forall id :: id in c.commands && HasEvals(c, id) ==> !Missable(c.evals[id])
  }

  predicate EarlySound(c: Config, s: State) {
    && (s.proc.EarlyOutput? && MemRuns(s.mem) ==> CurrentKey(s.mem).id in c.commands)
    && ((s.proc.Ran? || s.proc.Gated?) && MemRuns(s.mem) && CurrentKey(s.mem) in s.disk.markers ==>
          HoldsOutput(s, CurrentKey(s.mem), s.proc.o) && CurrentKey(s.mem).id in c.commands)
  }

  lemma GateEarlySound(c: Config, hub: Hub, s: State, results: seq<CheckResult>, detail: string)
    requires NoGatedCommand(c) && EarlySound(c, s) && Enabled(c, s, Evaluate(results, detail))
    ensures EarlySound(c, Do(c, hub, s, Evaluate(results, detail)))
  {
    var id := CurrentKey(s.mem).id;
    if CurrentKey(s.mem) in s.disk.markers && EvalAdvancing(s.proc.o) && HasEvals(c, id) {
      GateCanMissIff(c.evals[id], Used(s.mem, id));
    }
  }

  lemma EarlySoundKept(c: Config, hub: Hub, s: State, a: Action)
    requires NoGatedCommand(c) && Inv(c, s) && EarlySound(c, s) && Enabled(c, s, a)
    ensures EarlySound(c, Do(c, hub, s, a))
  {
    match a
    case Evaluate(results, detail) => GateEarlySound(c, hub, s, results, detail);
    case CommandMarker(_) => CurrentKeyIs(s);
    case _ =>
  }

  lemma {:induction false} EarlySoundHolds(c: Config, hub: Hub, s: State, run: seq<Action>)
    requires HubOk(hub) && NoGatedCommand(c) && Inv(c, s) && EarlySound(c, s)
    requires Possible(c, hub, s, run) && FullWorkflow(run)
    ensures EarlySound(c, EndOf(c, hub, s, run))
    decreases |run|
  {
    if run != [] {
      EarlySoundKept(c, hub, s, run[0]);
      InvKept(c, hub, s, run[0]);
      EarlySoundHolds(c, hub, Do(c, hub, s, run[0]), run[1..]);
    }
  }

  ghost predicate GateSoundAlways(c: Config) {
    forall hub, s0, run ::
      HubOk(hub) && Initial(s0) && Possible(c, hub, s0, run) && FullWorkflow(run) ==>
        GateSound(EndOf(c, hub, s0, run))
  }

  /** No phase waiting at the manual gate has a completion marker. */
  lemma ManualPendingNeverMarked(c: Config, hub: Hub, s0: State, run: seq<Action>)
    requires HubOk(hub) && Initial(s0) && Possible(c, hub, s0, run) && FullWorkflow(run)
    requires NoGatedCommand(c)
    ensures var s := EndOf(c, hub, s0, run);
            s.proc.Gated? && s.proc.o.ManualPending? ==> MemRuns(s.mem) && CurrentKey(s.mem) !in s.disk.markers
    ensures forall key :: key in EndOf(c, hub, s0, run).disk.markers ==>
              Attested(EndOf(c, hub, s0, run), key)
  {
    InitialInv(c, s0);
    InvHolds(c, hub, s0, run);
    EarlySoundHolds(c, hub, s0, run);
  }

  // ---- runs that break an unconditioned claim ----

  /** A run extended by one action. */
  lemma {:induction false} Append(c: Config, hub: Hub, s: State, run: seq<Action>, a: Action)
    requires Possible(c, hub, s, run) && Enabled(c, EndOf(c, hub, s, run), a)
    ensures Possible(c, hub, s, run + [a])
    ensures EndOf(c, hub, s, run + [a]) == Do(c, hub, EndOf(c, hub, s, run), a)
    decreases |run|
  {
    if run == [] {
      assert (run + [a])[1..] == [];
    } else {
      Append(c, hub, Do(c, hub, s, run[0]), run[1..], a);
      assert (run + [a])[1..] == run[1..] + [a];
    }
  }

  /** `Append`, naming the extended run. */
  lemma Then(c: Config, hub: Hub, s: State, run: seq<Action>, a: Action) returns (run': seq<Action>)
    requires Possible(c, hub, s, run) && Enabled(c, EndOf(c, hub, s, run), a)
    ensures run' == run + [a] && Possible(c, hub, s, run')
    ensures EndOf(c, hub, s, run') == Do(c, hub, EndOf(c, hub, s, run), a)
    ensures FullWorkflow(run') <==> FullWorkflow(run) && !a.SinglePhase?
  {
    Append(c, hub, s, run, a);
    run' := run + [a];
    assert run'[|run|] == a;
    if FullWorkflow(run') {
      forall i | 0 <= i < |run| ensures !run[i].SinglePhase? { assert run'[i] == run[i]; }
    }
  }

  /** A hub that goes through the phases in order and settles each of them; it pauses by status alone. */
  function NextPhase(w: Workflow): Workflow {
    if w.current < |w.phases| then
      Workflow(if w.current + 1 == |w.phases| then Succeeded else w.status, w.current + 1,
               Settle(w.phases, w.current + 1), w.rest)
    else w.(status := Succeeded)
  }

  /** The first `n` phases are settled; the rest can run. */
  function Settle(phases: seq<PhaseRecord>, n: nat): seq<PhaseRecord> {
    seq(|phases|, i requires 0 <= i < |phases| =>
          if i < n then phases[i].(settled := true)
          else if phases[i].settled then PhaseRecord(phases[i].id, phases[i].attempt + 1, false)
          else phases[i])
  }

  const IN_ORDER := Hub((w: Workflow, d: Option<Decision>) => NextPhase(w),
                       (w: Workflow) => w.(status := Failed),
                       (w: Workflow) => w.(status := Paused))

  lemma InOrderHubOk()
    ensures HubOk(IN_ORDER)
  {
    forall w: Workflow, d: Option<Decision>
      ensures HubAnswers(IN_ORDER, w, d)
    {
      if Pending(w) { InOrderAnswers(w); }
    }
  }

  /** A phase of the next state: same place and name, no earlier attempt. */
  lemma NextRecord(w: Workflow, id: string)
    requires DistinctIds(w) && Find(w.phases, id).Some?
    ensures var w' := NextPhase(w);
            && Find(w'.phases, id).Some? && Later(Find(w.phases, id).value, Find(w'.phases, id).value)
            && (w.current < |w.phases| && id == w.phases[w.current].id ==> Find(w'.phases, id).value.settled)
  {
    var w' := NextPhase(w);
    var i :| 0 <= i < |w.phases| && w.phases[i].id == id;
    assert |w'.phases| == |w.phases| && w'.phases[i].id == id;
    FindAt(w.phases, i);
    FindAt(w'.phases, i);
  }

  lemma InOrderEvolves(w: Workflow)
    requires DistinctIds(w)
    ensures Evolves(w, NextPhase(w))
  {
    var w' := NextPhase(w);
    assert DistinctIds(w') && (LoopRuns(w') ==> !w'.phases[w'.current].settled);
    forall id | Find(w.phases, id).Some?
      ensures Find(w'.phases, id).Some? && Later(Find(w.phases, id).value, Find(w'.phases, id).value)
    {
      NextRecord(w, id);
    }
  }

  lemma InOrderCompletes(w: Workflow)
    requires DistinctIds(w)
    ensures Completes(w, NextPhase(w))
  {
    InOrderEvolves(w);
    if LoopRuns(w) {
      FindAt(w.phases, w.current);
      NextRecord(w, w.phases[w.current].id);
    }
  }

  lemma InOrderAnswers(w: Workflow)
    requires Pending(w)
    ensures Completes(w, NextPhase(w)) && Evolves(w, w.(status := Failed)) && Evolves(w, w.(status := Paused))
  {
    InOrderCompletes(w);
  }

  /** The workflow of a single runnable phase at attempt `n`. */
  function OneAttempt(id: string, n: nat): Workflow {
    Workflow(Running, 0, [PhaseRecord(id, n, false)], "")
  }

  /** Nothing has run yet. */
  function OnePhase(id: string, n: nat): State {
    State(Disk(OneAttempt(id, n), map[], {}), BLANK, Down, [])
  }

  /**
   What a failing command of phase `id` returns when it is configured to
   advance on failure: its decision, built from the exit code, and its payload.
   */
  function AdvancedOnFailure(id: string): (o: Outcome)
    ensures CommandOutcome(o) && EvalAdvancing(o)
  {
    var reason := "command failed";
    Completed(None,
              Some(Decision("phase_decision", id, Advance, 1.0, Medium, reason,
                            [Evidence("custom", "Command `build` exited with code 1", None)], [], None, None)),
              Some(Obj(map["kind" := Str("phase_result"), "phase_id" := Str(id), "verdict" := Str("advance"),
                           "reason" := Str(reason), "exit_code" := Num(1.0)])))
  }

  /** The run that has just begun the only phase. */
  lemma BeginOnly(c: Config, id: string, n: nat) returns (run: seq<Action>)
    ensures Possible(c, IN_ORDER, OnePhase(id, n), run) && FullWorkflow(run)
    ensures var s := OnePhase(id, n);
            EndOf(c, IN_ORDER, s, run) ==
            State(s.disk, Memory(s.disk.workflow, 0, None, map[]), InFlight, [Started, Began(Key(id, n), None)])
  {
    run := Then(c, IN_ORDER, OnePhase(id, n), [], Start);
    run := Then(c, IN_ORDER, OnePhase(id, n), run, Begin);
  }

  /** A command phase has failed with `o` and persisted it, and the gate is next. */
  lemma CommandPersisted(c: Config, id: string, n: nat, o: Outcome) returns (run: seq<Action>)
    requires id in c.commands && CommandOutcome(o)
    ensures Possible(c, IN_ORDER, OnePhase(id, n), run) && FullWorkflow(run)
    ensures var s := OnePhase(id, n);
            EndOf(c, IN_ORDER, s, run) ==
            State(Disk(s.disk.workflow, map[id := Persisted(id, o)], {Key(id, n)}),
                  Memory(s.disk.workflow, 0, None, map[]), Ran(o),
                  [Started, Began(Key(id, n), None)] + [Wrote(Key(id, n), o)])
  {
    run := BeginOnly(c, id, n);
    run := Then(c, IN_ORDER, OnePhase(id, n), run, CommandOutput(o, Clean));
    run := Then(c, IN_ORDER, OnePhase(id, n), run, CommandMarker(Clean));
  }

  /**
   A failing command that advances, on a phase whose checks miss: the marker
   says "advance" while the gate has asked for something else.
   */
  lemma GatedCommandRun(c: Config, id: string, n: nat, o: Outcome, results: seq<CheckResult>)
    returns (run: seq<Action>)
    requires id in c.commands && HasEvals(c, id) && Answers(c.evals[id], results)
    requires CommandOutcome(o) && o.decision.value.verdict == Advance
    requires DecideGate(c.evals[id], FromResults(results), 0) != Pass
    ensures Possible(c, IN_ORDER, OnePhase(id, n), run) && FullWorkflow(run)
    ensures !GateSound(EndOf(c, IN_ORDER, OnePhase(id, n), run))
  {
    var s0, key := OnePhase(id, n), Key(id, n);
    run := CommandPersisted(c, id, n, o);
    var s := EndOf(c, IN_ORDER, s0, run);
    LogGrows([Started, Began(key, None)], Wrote(key, o));
    run := Then(c, IN_ORDER, s0, run, Evaluate(results, ""));
    LogGrows(s.log, Reworked(id));
  }

  /**
   The marker always attests the gated outcome if and only if no command
   phase declares checks that can miss.
   */
  lemma GateSoundIff(c: Config)
    ensures GateSoundAlways(c) <==> NoGatedCommand(c)
  {
    if NoGatedCommand(c) {
      forall hub, s0, run |
        HubOk(hub) && Initial(s0) && Possible(c, hub, s0, run) && FullWorkflow(run)
        ensures GateSound(EndOf(c, hub, s0, run))
      {
        InitialInv(c, s0);
        EarlySoundHolds(c, hub, s0, run);
      }
    } else {
      var id :| id in c.commands && HasEvals(c, id) && Missable(c.evals[id]);
      GateCanMissIff(c.evals[id], 0);
      var results :| Answers(c.evals[id], results) && DecideGate(c.evals[id], FromResults(results), 0) != Pass;
      var run := GatedCommandRun(c, id, 0, AdvancedOnFailure(id), results);
      InOrderHubOk();
      assert Initial(OnePhase(id, 0));
    }
  }
}
