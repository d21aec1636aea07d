/**
 Crashes are invisible: when outcomes depend only on (phase, attempt), every
 schedule of crashes and restarts follows the crash-free execution.
 */
module CrashRefinement {
  import opened Common
  import opened DurableWrite
  import opened PhaseOutput
  import opened CrashReplay
  import opened CrashInvariants
  import opened CrashTheorems

  /** What running a phase attempt gives. */
  datatype Answer = Produces(o: Outcome) | Errs

  type Oracle = Key -> Answer

  /** The workflow and the verdicts applied to it so far. */
  datatype Progress = Progress(workflow: Workflow, applied: seq<(Key, Verdict)>)

  // ---- the crash-free execution ----

  predicate Runnable(w: Workflow) {
    w.status.Running? && w.current < |w.phases|
  }

  function KeyOf(w: Workflow): Key
    requires w.current < |w.phases|
  {
    CurrentKey(Memory(w, w.current, None, map[]))
  }

  function Advance(hub: Hub, oracle: Oracle, p: Progress): Progress {
    if !Runnable(p.workflow) then p
    else
      var key := KeyOf(p.workflow);
      match oracle(key)
      case Produces(Completed(_, d, _)) =>
        Progress(hub.complete(p.workflow, d), p.applied + [(key, DecidedVerdict(d))])
      case Produces(ManualPending(_, _)) => p.(workflow := hub.pause(p.workflow))
      case Errs => p.(workflow := hub.fail(p.workflow))
  }

  function Iterate(hub: Hub, oracle: Oracle, w: Workflow, n: nat): Progress {
    if n == 0 then Progress(w, []) else Advance(hub, oracle, Iterate(hub, oracle, w, n - 1))
  }

  // ---- hypotheses ----

  /** Writing, crashing and replaying changes nothing for the hub. */
  ghost predicate Transparent(hub: Hub, oracle: Oracle, w: Workflow, key: Key) {
    var a := oracle(key);
    a.Produces? && a.o.Completed? ==>
      && Replayable(a.o)
      && hub.complete(w, Some(ReadDecision(Holding(Persisted(key.id, a.o))).value)) == hub.complete(w, a.o.decision)
  }

  /** The answer to a workflow that runs, or is over, leaves it running or over. */
  ghost predicate DecisiveStatus(hub: Hub, w: Workflow, d: Option<Decision>) {
    w.status.Running? || Terminal(w.status) ==>
      && (hub.complete(w, d).status.Running? || Terminal(hub.complete(w, d).status))
      && !hub.fail(w).status.Running? && !hub.pause(w).status.Running?
  }

  ghost predicate Faithful(hub: Hub, oracle: Oracle) {
    && HubOk(hub)
    && (forall w, key :: Transparent(hub, oracle, w, key))
    && (forall w, d :: DecisiveStatus(hub, w, d))
  }

  predicate ReplayableAnswer(oracle: Oracle, key: Key) {
    oracle(key).Produces? && oracle(key).o.Completed? ==> Replayable(oracle(key).o)
  }

  /** The hub looks at nothing but the verdict of a decision, and takes none for `advance`. */
  ghost predicate VerdictOnly(hub: Hub) {
    forall w: Workflow, d, e :: DecidedVerdict(d) == DecidedVerdict(e) ==> hub.complete(w, d) == hub.complete(w, e)
  }

  /** The hypotheses can be met: by every hub that goes by the verdict, for every replayable oracle. */
  lemma VerdictHubsAreFaithful(hub: Hub, oracle: Oracle)
    requires HubOk(hub) && VerdictOnly(hub) && forall w, d :: DecisiveStatus(hub, w, d)
    requires forall key :: ReplayableAnswer(oracle, key)
    ensures Faithful(hub, oracle)
  {
    forall w, key
      ensures Transparent(hub, oracle, w, key)
    {
      assert ReplayableAnswer(oracle, key);
      if oracle(key).Produces? && oracle(key).o.Completed? {
        var o := oracle(key).o;
        PersistRoundTrip(key.id, o);
        var d := Some(ReadDecision(Holding(Persisted(key.id, o))).value);
        assert DecidedVerdict(d) == DecidedVerdict(o.decision);
        assert hub.complete(w, d) == hub.complete(w, o.decision);
      }
    }
  }

  /** In particular by the hub that goes in order. */
  lemma InOrderFaithful(oracle: Oracle)
    requires forall key :: ReplayableAnswer(oracle, key)
    ensures Faithful(IN_ORDER, oracle)
  {
    InOrderHubOk();
    forall w, key
      ensures Transparent(IN_ORDER, oracle, w, key)
    {
      assert ReplayableAnswer(oracle, key);
      if oracle(key).Produces? { PersistRoundTrip(key.id, oracle(key).o); }
    }
  }

  /** The action follows the oracle and its writes succeed. */
  predicate Follows(s: State, a: Action, oracle: Oracle) {
    match a
    case Finish(o) => MemRuns(s.mem) && oracle(CurrentKey(s.mem)) == Produces(o)
    case FinishErr => MemRuns(s.mem) && oracle(CurrentKey(s.mem)) == Errs
    case CommandOutput(o, f) => f.Clean? && MemRuns(s.mem) && oracle(CurrentKey(s.mem)) == Produces(o)
    case CommandMarker(f) => f.Clean?
    case WriteOutput(f) => f.Clean?
    case WriteMarker(f) => f.Clean?
    case External(_) => false
    case SinglePhase(_, _) => false
    case _ => true
  }

  /** The only disturbances of the run are crashes, at any point. */
  ghost predicate CrashesOnly(c: Config, hub: Hub, s: State, run: seq<Action>, oracle: Oracle)
    requires Possible(c, hub, s, run)
    decreases |run|
  {
    run == [] ||
    (Follows(s, run[0], oracle) && CrashesOnly(c, hub, Do(c, hub, s, run[0]), run[1..], oracle))
  }

  predicate NoEvals(c: Config) {
    forall id :: id in c.evals ==> c.evals[id].checks == []
  }

  function AppliedVerdicts(log: seq<Event>): seq<(Key, Verdict)> {
    if log == [] then []
    else
      var e := log[|log| - 1];
      AppliedVerdicts(log[..|log| - 1]) + if e.Applied? then [(e.key, DecidedVerdict(e.decision))] else []
  }

  lemma AppliedGrows(log: seq<Event>, e: Event)
    ensures AppliedVerdicts(log + [e]) ==
            AppliedVerdicts(log) + if e.Applied? then [(e.key, DecidedVerdict(e.decision))] else []
  {
    assert (log + [e])[..|log + [e]| - 1] == log;
  }

  // ---- simulation ----

  /** What the oracle says is what is in memory and what was written. */
  predicate OnOracle(s: State, oracle: Oracle) {
    && (forall i :: 0 <= i < |s.log| && s.log[i].Wrote? ==> oracle(s.log[i].key) == Produces(s.log[i].o))
    && (Live(s.proc) && MemRuns(s.mem) ==>
          var key := CurrentKey(s.mem);
          match s.proc
          case EarlyOutput(o) => oracle(key) == Produces(o)
          case Ran(o) => oracle(key) == Produces(o)
          case Gated(o) => oracle(key) == Produces(o)
          case OutputWritten(o) => oracle(key) == Produces(o)
          case MarkerWritten(o) => oracle(key) == Produces(o)
          case RunFailed => oracle(key) == Errs
          case _ => true)
    && !s.proc.PersistFailed?
    && (Live(s.proc) ==> s.disk.workflow.status.Running? || Terminal(s.disk.workflow.status))
    && (s.proc.Done? ==> !Runnable(s.disk.workflow))
  }

  function ProgressOf(s: State): Progress {
    Progress(s.disk.workflow, AppliedVerdicts(s.log))
  }

  lemma {:induction false} LastWroteInLog(log: seq<Event>, key: Key)
    requires LastWrote(log, key).Some?
    ensures exists i :: 0 <= i < |log| && log[i] == Wrote(key, LastWrote(log, key).value)
  {
    var e := log[|log| - 1];
    if e.Wrote? && e.key == key {
    } else {
      LastWroteInLog(log[..|log| - 1], key);
      var i :| 0 <= i < |log| - 1 && log[..|log| - 1][i] == Wrote(key, LastWrote(log, key).value);
      assert log[i] == Wrote(key, LastWrote(log, key).value);
    }
  }

  /** A replay applies the same verdict to the same effect as the original. */
  lemma ReplayIsTransparent(c: Config, hub: Hub, s: State, oracle: Oracle)
    requires Faithful(hub, oracle) && Sync(s) && MarkersAttest(s) && OnOracle(s, oracle)
    requires s.proc.AtLoop? && MemRuns(s.mem) && CurrentKey(s.mem) in s.disk.markers
    ensures var key := CurrentKey(s.mem);
            && oracle(key).Produces? && oracle(key).o.Completed?
            && ReadDecision(FileOf(s.disk, key.id)).Ok?
            && var d := ReadDecision(FileOf(s.disk, key.id)).value;
            && hub.complete(s.disk.workflow, Some(d)) == hub.complete(s.disk.workflow, oracle(key).o.decision)
            && d.verdict == DecidedVerdict(oracle(key).o.decision)
  {
    var key := CurrentKey(s.mem);
    CurrentKeyIs(s);
    assert Attested(s, key);
    LastWroteInLog(s.log, key);
    var o := LastWrote(s.log, key).value;
    assert oracle(key) == Produces(o);
    PersistRoundTrip(key.id, o);
    assert Transparent(hub, oracle, s.disk.workflow, key);
  }

  /** What the hub answers to an action leaves the loop decided. */
  lemma AnswersDecide(c: Config, hub: Hub, s: State, a: Action, oracle: Oracle)
    requires Faithful(hub, oracle) && Sync(s) && MarkersAttest(s) && Stage(s) && OnOracle(s, oracle)
    requires Enabled(c, s, a)
    ensures !a.Block?
    ensures a.Replay? ==>
              && oracle(CurrentKey(s.mem)).Produces? && oracle(CurrentKey(s.mem)).o.Completed?
              && ReadDecision(FileOf(s.disk, CurrentKey(s.mem).id)).Ok?
              && var o, d := oracle(CurrentKey(s.mem)).o, ReadDecision(FileOf(s.disk, CurrentKey(s.mem).id)).value;
              && DecisiveStatus(hub, s.disk.workflow, o.decision)
              && hub.complete(s.disk.workflow, Some(d)) == hub.complete(s.disk.workflow, o.decision)
              && d.verdict == DecidedVerdict(o.decision)
    ensures a.Apply? ==> DecisiveStatus(hub, s.disk.workflow, s.proc.o.decision)
    ensures DecisiveStatus(hub, s.disk.workflow, None)
  {
    if a.Replay? || a.Block? {
      ReplayIsTransparent(c, hub, s, oracle);
    }
    assert DecisiveStatus(hub, s.disk.workflow, None);
  }

  lemma OracleKept(c: Config, hub: Hub, s: State, a: Action, oracle: Oracle)
    requires Faithful(hub, oracle) && NoEvals(c)
    requires Sync(s) && MarkersAttest(s) && Stage(s) && OnOracle(s, oracle)
    requires Enabled(c, s, a) && Follows(s, a, oracle)
    ensures OnOracle(Do(c, hub, s, a), oracle)
  {
    AnswersDecide(c, hub, s, a, oracle);
    if Live(s.proc) && MemRuns(s.mem) { CurrentKeyIs(s); }
  }

  lemma ProgressSteps(c: Config, hub: Hub, s: State, a: Action, oracle: Oracle)
    requires Faithful(hub, oracle) && NoEvals(c)
    requires Sync(s) && MarkersAttest(s) && Stage(s) && OnOracle(s, oracle)
    requires Enabled(c, s, a) && Follows(s, a, oracle)
    ensures var s' := Do(c, hub, s, a);
            ProgressOf(s') == ProgressOf(s) || ProgressOf(s') == Advance(hub, oracle, ProgressOf(s))
  {
    var s' := Do(c, hub, s, a);
    if s'.log != s.log { AppliedGrows(s.log, s'.log[|s.log|]); }
    AnswersDecide(c, hub, s, a, oracle);
    if Live(s.proc) && MemRuns(s.mem) { CurrentKeyIs(s); }
  }

  /** One action is either invisible or one crash-free step. */
  lemma {:induction false} StepSimulates(c: Config, hub: Hub, s: State, a: Action, oracle: Oracle)
    requires Faithful(hub, oracle) && NoEvals(c)
    requires Sync(s) && MarkersAttest(s) && Stage(s) && OnOracle(s, oracle)
    requires Enabled(c, s, a) && Follows(s, a, oracle)
    ensures var s' := Do(c, hub, s, a);
            && OnOracle(s', oracle)
            && (ProgressOf(s') == ProgressOf(s) || ProgressOf(s') == Advance(hub, oracle, ProgressOf(s)))
  {
    OracleKept(c, hub, s, a, oracle);
    ProgressSteps(c, hub, s, a, oracle);
  }

  lemma {:induction false} RunSimulates(
    c: Config, hub: Hub, s: State, run: seq<Action>, oracle: Oracle, w: Workflow, n: nat)
    returns (m: nat)
    requires Faithful(hub, oracle) && NoEvals(c) && Possible(c, hub, s, run) && CrashesOnly(c, hub, s, run, oracle)
    requires Inv(c, s) && OnOracle(s, oracle) && ProgressOf(s) == Iterate(hub, oracle, w, n)
    ensures var s' := EndOf(c, hub, s, run);
            OnOracle(s', oracle) && ProgressOf(s') == Iterate(hub, oracle, w, m)
    decreases |run|
  {
    if run == [] {
      m := n;
    } else {
      var s' := Do(c, hub, s, run[0]);
      StepSimulates(c, hub, s, run[0], oracle);
      InvKept(c, hub, s, run[0]);
      var n' := if ProgressOf(s') == ProgressOf(s) then n else n + 1;
      m := RunSimulates(c, hub, s', run[1..], oracle, w, n');
    }
  }

  lemma {:induction false} IterateStops(hub: Hub, oracle: Oracle, w: Workflow, n: nat, m: nat)
    requires n <= m && !Runnable(Iterate(hub, oracle, w, n).workflow)
    ensures Iterate(hub, oracle, w, m) == Iterate(hub, oracle, w, n)
  {
    if n < m { IterateStops(hub, oracle, w, n, m - 1); }
  }

  /**
   At every moment of every crash schedule the durable workflow and the applied
   verdicts are those of a prefix of the crash-free execution; when a call
   has returned, they are those at its end.
   */
  lemma CrashesFollowCrashFree(c: Config, hub: Hub, s0: State, run: seq<Action>, oracle: Oracle) returns (n: nat)
    requires Faithful(hub, oracle) && NoEvals(c) && Initial(s0)
    requires Possible(c, hub, s0, run) && CrashesOnly(c, hub, s0, run, oracle)
    ensures ProgressOf(EndOf(c, hub, s0, run)) == Iterate(hub, oracle, s0.disk.workflow, n)
    ensures EndOf(c, hub, s0, run).proc.Done? ==>
              forall m :: m >= n ==>
                Iterate(hub, oracle, s0.disk.workflow, m) == Iterate(hub, oracle, s0.disk.workflow, n)
  {
    InitialInv(c, s0);
    n := RunSimulates(c, hub, s0, run, oracle, s0.disk.workflow, 0);
    if EndOf(c, hub, s0, run).proc.Done? {
      forall m | m >= n
        ensures Iterate(hub, oracle, s0.disk.workflow, m) == Iterate(hub, oracle, s0.disk.workflow, n)
      {
        IterateStops(hub, oracle, s0.disk.workflow, n, m);
      }
    }
  }

  /** Any two schedules of crashes and restarts that finish agree. */
  lemma SchedulesAgree(c: Config, hub: Hub, s0: State, run1: seq<Action>, run2: seq<Action>, oracle: Oracle)
    requires Faithful(hub, oracle) && NoEvals(c) && Initial(s0)
    requires Possible(c, hub, s0, run1) && CrashesOnly(c, hub, s0, run1, oracle)
    requires Possible(c, hub, s0, run2) && CrashesOnly(c, hub, s0, run2, oracle)
    requires EndOf(c, hub, s0, run1).proc.Done? && EndOf(c, hub, s0, run2).proc.Done?
    ensures EndOf(c, hub, s0, run1).disk.workflow == EndOf(c, hub, s0, run2).disk.workflow
    ensures AppliedVerdicts(EndOf(c, hub, s0, run1).log) == AppliedVerdicts(EndOf(c, hub, s0, run2).log)
  {
    var n1 := CrashesFollowCrashFree(c, hub, s0, run1, oracle);
    var n2 := CrashesFollowCrashFree(c, hub, s0, run2, oracle);
    var w := s0.disk.workflow;
    if n1 <= n2 {
      assert Iterate(hub, oracle, w, n2) == Iterate(hub, oracle, w, n1);
    } else {
      assert Iterate(hub, oracle, w, n1) == Iterate(hub, oracle, w, n2);
    }
  }

  // ---- what replayability is for ----

  /** Any two finished schedules of crashes and restarts agree. */
  ghost predicate AllSchedulesAgree(c: Config, hub: Hub, oracle: Oracle) {
    forall s0, run1, run2 ::
      && Initial(s0)
      && Possible(c, hub, s0, run1) && CrashesOnly(c, hub, s0, run1, oracle) && EndOf(c, hub, s0, run1).proc.Done?
      && Possible(c, hub, s0, run2) && CrashesOnly(c, hub, s0, run2, oracle) && EndOf(c, hub, s0, run2).proc.Done? ==>
        && EndOf(c, hub, s0, run1).disk.workflow == EndOf(c, hub, s0, run2).disk.workflow
        && AppliedVerdicts(EndOf(c, hub, s0, run1).log) == AppliedVerdicts(EndOf(c, hub, s0, run2).log)
  }

  lemma {:induction false} CrashesOnlyAppend(
    c: Config, hub: Hub, s: State, run: seq<Action>, a: Action, oracle: Oracle)
    requires Possible(c, hub, s, run) && CrashesOnly(c, hub, s, run, oracle)
    requires Enabled(c, EndOf(c, hub, s, run), a) && Follows(EndOf(c, hub, s, run), a, oracle)
    ensures Possible(c, hub, s, run + [a]) && CrashesOnly(c, hub, s, run + [a], oracle)
    decreases |run|
  {
    Append(c, hub, s, run, a);
    if run == [] {
      assert (run + [a])[1..] == [];
    } else {
      CrashesOnlyAppend(c, hub, Do(c, hub, s, run[0]), run[1..], a, oracle);
      assert (run + [a])[1..] == run[1..] + [a];
    }
  }

  /** `Then` for the hub that goes in order, along the oracle. */
  lemma ThenFollow(c: Config, s: State, run: seq<Action>, a: Action, oracle: Oracle) returns (run': seq<Action>)
    requires Possible(c, IN_ORDER, s, run) && CrashesOnly(c, IN_ORDER, s, run, oracle)
    requires Enabled(c, EndOf(c, IN_ORDER, s, run), a) && Follows(EndOf(c, IN_ORDER, s, run), a, oracle)
    ensures run' == run + [a] && Possible(c, IN_ORDER, s, run') && CrashesOnly(c, IN_ORDER, s, run', oracle)
    ensures EndOf(c, IN_ORDER, s, run') == Do(c, IN_ORDER, EndOf(c, IN_ORDER, s, run), a)
  {
    run' := Then(c, IN_ORDER, s, run, a);
    CrashesOnlyAppend(c, IN_ORDER, s, run, a, oracle);
  }

  /** The run of the only phase up to the outcome the gate let through. */
  lemma GateOnly(c: Config, key: Key, o: Outcome, oracle: Oracle) returns (run: seq<Action>)
    requires !HasEvals(c, key.id) && oracle(key) == Produces(o)
    ensures var s := OnePhase(key.id, key.attempt);
            && Possible(c, IN_ORDER, s, run) && CrashesOnly(c, IN_ORDER, s, run, oracle) && Crash !in run
            && EndOf(c, IN_ORDER, s, run) ==
               State(s.disk, Memory(s.disk.workflow, 0, None, map[]), Gated(o), [Started, Began(key, None)])
  {
    var s := OnePhase(key.id, key.attempt);
    run := ThenFollow(c, s, [], Start, oracle);
    run := ThenFollow(c, s, run, Begin, oracle);
    run := ThenFollow(c, s, run, Finish(o), oracle);
    run := ThenFollow(c, s, run, Evaluate([], ""), oracle);
  }

  /** The disk of the only phase once it is marked with `o`. */
  function MarkedDisk(key: Key, o: Outcome): Disk {
    Disk(OneAttempt(key.id, key.attempt), map[key.id := Persisted(key.id, o)], {key})
  }

  /** The run whose only phase has produced `o` and is marked. */
  lemma MarkOnly(c: Config, key: Key, o: Outcome, oracle: Oracle) returns (run: seq<Action>)
    requires !HasEvals(c, key.id) && o.Completed? && oracle(key) == Produces(o)
    ensures var s := OnePhase(key.id, key.attempt);
            && Possible(c, IN_ORDER, s, run) && CrashesOnly(c, IN_ORDER, s, run, oracle) && Crash !in run
            && EndOf(c, IN_ORDER, s, run) ==
               State(MarkedDisk(key, o), Memory(s.disk.workflow, 0, None, map[]), MarkerWritten(o),
                     [Started, Began(key, None)] + [Wrote(key, o)])
  {
    var s := OnePhase(key.id, key.attempt);
    run := GateOnly(c, key, o, oracle);
    run := ThenFollow(c, s, run, WriteOutput(Clean), oracle);
    run := ThenFollow(c, s, run, WriteMarker(Clean), oracle);
  }

  /** Without a crash the marked phase completes the workflow. */
  lemma SmoothEnd(c: Config, key: Key, o: Outcome, oracle: Oracle, marked: seq<Action>) returns (run: seq<Action>)
    requires var s := OnePhase(key.id, key.attempt);
             && Possible(c, IN_ORDER, s, marked) && CrashesOnly(c, IN_ORDER, s, marked, oracle)
             && var s' := EndOf(c, IN_ORDER, s, marked);
             && s'.disk == MarkedDisk(key, o) && s'.proc == MarkerWritten(o) && o.Completed?
             && s'.mem == Memory(s.disk.workflow, 0, None, map[])
    ensures run == marked + [Apply] + [Exit]
    ensures var s := OnePhase(key.id, key.attempt);
            && Possible(c, IN_ORDER, s, run) && CrashesOnly(c, IN_ORDER, s, run, oracle)
            && EndOf(c, IN_ORDER, s, run).proc.Done? && EndOf(c, IN_ORDER, s, run).disk.workflow.status == Succeeded
  {
    run := ThenFollow(c, OnePhase(key.id, key.attempt), marked, Apply, oracle);
    run := ThenFollow(c, OnePhase(key.id, key.attempt), run, Exit, oracle);
  }

  /** A crash after the marker, and the restart. */
  lemma RestartMarked(c: Config, key: Key, o: Outcome, oracle: Oracle, marked: seq<Action>) returns (run: seq<Action>)
    requires var s := OnePhase(key.id, key.attempt);
             && Possible(c, IN_ORDER, s, marked) && CrashesOnly(c, IN_ORDER, s, marked, oracle)
             && var s' := EndOf(c, IN_ORDER, s, marked);
             && s'.disk == MarkedDisk(key, o) && s'.proc == MarkerWritten(o)
    ensures run == marked + [Crash] + [Start]
    ensures var s := OnePhase(key.id, key.attempt);
            && Possible(c, IN_ORDER, s, run) && CrashesOnly(c, IN_ORDER, s, run, oracle)
            && var s' := EndOf(c, IN_ORDER, s, run);
            && s'.disk == MarkedDisk(key, o) && s'.proc == AtLoop
            && s'.mem == Memory(s.disk.workflow, 0, None, map[])
  {
    run := ThenFollow(c, OnePhase(key.id, key.attempt), marked, Crash, oracle);
    run := ThenFollow(c, OnePhase(key.id, key.attempt), run, Start, oracle);
  }

  /** The restart replays the marker, or fails on it. */
  lemma CrashedEnd(c: Config, key: Key, o: Outcome, oracle: Oracle, restarted: seq<Action>)
    returns (run: seq<Action>)
    requires var s := OnePhase(key.id, key.attempt);
             && Possible(c, IN_ORDER, s, restarted) && CrashesOnly(c, IN_ORDER, s, restarted, oracle)
             && var s' := EndOf(c, IN_ORDER, s, restarted);
             && s'.disk == MarkedDisk(key, o) && s'.proc == AtLoop && o.Completed?
             && s'.mem == Memory(s.disk.workflow, 0, None, map[])
    ensures restarted <= run
    ensures var s := OnePhase(key.id, key.attempt);
            && Possible(c, IN_ORDER, s, run) && CrashesOnly(c, IN_ORDER, s, run, oracle)
            && EndOf(c, IN_ORDER, s, run).proc.Done?
            && EndOf(c, IN_ORDER, s, run).disk.workflow.status == if Replayable(o) then Succeeded else Failed
  {
    var s := OnePhase(key.id, key.attempt);
    PersistRoundTrip(key.id, o);
    if Replayable(o) {
      run := ThenFollow(c, s, restarted, Replay, oracle);
      run := ThenFollow(c, s, run, Exit, oracle);
    } else {
      run := ThenFollow(c, s, restarted, Block, oracle);
    }
  }

  /**
   What a crash after the marker makes of any attempt's outcome: both runs
   succeed if the outcome is replayable, and one with verdict `unknown`
   completes the workflow when applied directly and fails it after a crash.
   */
  lemma UnknownVerdictIsLost(c: Config, key: Key, o: Outcome, oracle: Oracle)
    returns (smooth: seq<Action>, crashed: seq<Action>)
    requires !HasEvals(c, key.id) && o.Completed? && oracle(key) == Produces(o)
    ensures Crash in crashed && Crash !in smooth
    ensures var s0 := OnePhase(key.id, key.attempt);
            && Possible(c, IN_ORDER, s0, smooth) && CrashesOnly(c, IN_ORDER, s0, smooth, oracle)
            && Possible(c, IN_ORDER, s0, crashed) && CrashesOnly(c, IN_ORDER, s0, crashed, oracle)
            && EndOf(c, IN_ORDER, s0, smooth).proc.Done? && EndOf(c, IN_ORDER, s0, crashed).proc.Done?
            && EndOf(c, IN_ORDER, s0, smooth).disk.workflow.status == Succeeded
            && EndOf(c, IN_ORDER, s0, crashed).disk.workflow.status == if Replayable(o) then Succeeded else Failed
  {
    var marked := MarkOnly(c, key, o, oracle);
    smooth := SmoothEnd(c, key, o, oracle, marked);
    var restarted := RestartMarked(c, key, o, oracle, marked);
    assert restarted[|marked|] == Crash;
    crashed := CrashedEnd(c, key, o, oracle, restarted);
    assert crashed[|marked|] == Crash;
  }

  lemma ReplayableAgree(c: Config, oracle: Oracle)
    requires NoEvals(c) && forall key :: ReplayableAnswer(oracle, key)
    ensures AllSchedulesAgree(c, IN_ORDER, oracle)
  {
    InOrderFaithful(oracle);
    forall s0, run1, run2 |
      && Initial(s0)
      && Possible(c, IN_ORDER, s0, run1) && CrashesOnly(c, IN_ORDER, s0, run1, oracle)
      && EndOf(c, IN_ORDER, s0, run1).proc.Done?
      && Possible(c, IN_ORDER, s0, run2) && CrashesOnly(c, IN_ORDER, s0, run2, oracle)
      && EndOf(c, IN_ORDER, s0, run2).proc.Done?
      ensures EndOf(c, IN_ORDER, s0, run1).disk.workflow == EndOf(c, IN_ORDER, s0, run2).disk.workflow
      ensures AppliedVerdicts(EndOf(c, IN_ORDER, s0, run1).log) == AppliedVerdicts(EndOf(c, IN_ORDER, s0, run2).log)
    {
      SchedulesAgree(c, IN_ORDER, s0, run1, run2, oracle);
    }
  }

  /**
   Under the hub that goes in order, all schedules of crashes agree from every
   initial state if and only if every completed outcome can be replayed.
   */
  lemma SchedulesAgreeIff(c: Config, oracle: Oracle)
    requires NoEvals(c)
    ensures AllSchedulesAgree(c, IN_ORDER, oracle) <==> forall key :: ReplayableAnswer(oracle, key)
  {
    if forall key :: ReplayableAnswer(oracle, key) {
      ReplayableAgree(c, oracle);
    } else {
      var key :| !ReplayableAnswer(oracle, key);
      var smooth, crashed := UnknownVerdictIsLost(c, key, oracle(key).o, oracle);
      assert Initial(OnePhase(key.id, key.attempt));
    }
  }
}
