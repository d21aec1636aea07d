/**
 What every action of the workflow loop keeps, crashes and failed writes
 included.
 */
module CrashInvariants {
  import opened Common
  import opened DurableWrite
  import opened PhaseOutput
  import opened PhaseEvals
  import opened CrashReplay

  /** The outcome written for `key` since it last began, if any. */
  function LastWrote(log: seq<Event>, key: Key): Option<Outcome> {
    if log == [] then None
    else
      var e := log[|log| - 1];
      if e.Wrote? && e.key == key then Some(e.o)
      else if e.Began? && e.key == key then None
      else LastWrote(log[..|log| - 1], key)
  }

  /** Eval-forced reworks of `id` since the current call started. */
  function ReworksInCall(log: seq<Event>, id: string): nat {
    if log == [] then 0
    else
      var e := log[|log| - 1];
      if e.Started? then 0
      else (if e == Reworked(id) then 1 else 0) + ReworksInCall(log[..|log| - 1], id)
  }

  lemma LogGrows(log: seq<Event>, e: Event)
    ensures forall key :: LastWrote(log + [e], key) ==
              if e.Wrote? && e.key == key then Some(e.o)
              else if e.Began? && e.key == key then None
              else LastWrote(log, key)
    ensures forall id :: ReworksInCall(log + [e], id) ==
              if e.Started? then 0 else (if e == Reworked(id) then 1 else 0) + ReworksInCall(log, id)
  {
    assert (log + [e])[..|log + [e]| - 1] == log;
  }

  predicate MidPhase(p: Process) {
    Live(p) && !p.AtLoop?
  }

  /** The loop's copy of the workflow record is the durable one. */
  predicate Sync(s: State) {
    && DistinctIds(s.disk.workflow)
    && (LoopRuns(s.disk.workflow) ==> !s.disk.workflow.phases[s.disk.workflow.current].settled)
    && (Live(s.proc) ==> s.mem.workflow == s.disk.workflow && s.mem.idx == s.disk.workflow.current)
    && (MidPhase(s.proc) ==> MemRuns(s.mem))
  }

  /** `<phase>.json` holds what `key`'s latest execution produced, namely `o`. */
  predicate HoldsOutput(s: State, key: Key, o: Outcome) {
    && o.Completed?
    && key.id in s.disk.outputs && s.disk.outputs[key.id] == Persisted(key.id, o)
    && LastWrote(s.log, key) == Some(o)
  }

  /** A marker for a phase's present attempt attests the output on disk. */
  predicate Attested(s: State, key: Key) {
    var r := Find(s.disk.workflow.phases, key.id);
    && r.Some? && key.attempt <= r.value.attempt
    && (key.attempt == r.value.attempt ==>
          LastWrote(s.log, key).Some? && HoldsOutput(s, key, LastWrote(s.log, key).value))
  }

  predicate MarkersAttest(s: State) {
    forall key :: key in s.disk.markers ==> Attested(s, key)
  }

  /** What is durable at each stage of a phase. */
  predicate Stage(s: State) {
    MidPhase(s.proc) && MemRuns(s.mem) ==>
      var key := CurrentKey(s.mem);
      match s.proc
      case InFlight => key !in s.disk.markers
      case EarlyOutput(o) => HoldsOutput(s, key, o)
      case OutputWritten(o) => HoldsOutput(s, key, o)
      case MarkerWritten(o) => HoldsOutput(s, key, o) && key in s.disk.markers
      case _ => true
  }

  predicate SettledOrPast(w: Workflow, key: Key) {
    var r := Find(w.phases, key.id);
    r.Some? && (r.value.attempt > key.attempt || (r.value.attempt == key.attempt && r.value.settled))
  }

  /** Whatever was applied is marked, is over, and was applied once. */
  predicate AppliedOnce(s: State) {
    && (forall i :: 0 <= i < |s.log| && s.log[i].Applied? ==>
          s.log[i].key in s.disk.markers && SettledOrPast(s.disk.workflow, s.log[i].key))
    && (forall i, j :: 0 <= i < j < |s.log| && s.log[i].Applied? && s.log[j].Applied? ==>
          s.log[i].key != s.log[j].key)
  }

  function Budget(c: Config, id: string): nat {
    if id in c.evals then c.evals[id].maxReworks else 0
  }

  ghost predicate WithinBudget(c: Config, s: State) {
    && (forall id :: ReworksInCall(s.log, id) <= Budget(c, id))
    && (Live(s.proc) ==> forall id :: Used(s.mem, id) == ReworksInCall(s.log, id))
  }

  ghost predicate Inv(c: Config, s: State) {
    Sync(s) && MarkersAttest(s) && Stage(s) && AppliedOnce(s) && WithinBudget(c, s)
  }

  // ---- preservation ----

  lemma {:induction false} FindAt(phases: seq<PhaseRecord>, i: nat)
    requires i < |phases|
    requires forall j, k :: 0 <= j < k < |phases| ==> phases[j].id != phases[k].id
    ensures Find(phases, phases[i].id) == Some(phases[i])
  {
    if i > 0 { FindAt(phases[1..], i - 1); }
  }

  /** Under `Sync` the key in memory is that of the durable current phase. */
  lemma CurrentKeyIs(s: State)
    requires Sync(s) && Live(s.proc) && MemRuns(s.mem)
    ensures var w := s.disk.workflow;
            var key := CurrentKey(s.mem);
            && LoopRuns(w) && key == Key(w.phases[w.current].id, w.phases[w.current].attempt)
            && Find(w.phases, key.id) == Some(w.phases[w.current])
            && !SettledOrPast(w, key)
  {
    FindAt(s.disk.workflow.phases, s.disk.workflow.current);
  }

  lemma EvolvesRefl(w: Workflow)
    requires DistinctIds(w) && (LoopRuns(w) ==> !w.phases[w.current].settled)
    ensures Evolves(w, w)
  {
  }

  lemma HubOrSame(c: Config, hub: Hub, s: State, a: Action)
    requires HubOk(hub) && Sync(s) && Enabled(c, s, a)
    ensures Evolves(s.disk.workflow, Do(c, hub, s, a).disk.workflow)
  {
    EvolvesRefl(s.disk.workflow);
    assert HubAnswers(hub, s.disk.workflow, None);
    match a
    case Replay =>
      assert HubAnswers(hub, s.disk.workflow, Some(ReadDecision(FileOf(s.disk, CurrentKey(s.mem).id)).value));
    case Apply =>
      assert HubAnswers(hub, s.disk.workflow, s.proc.o.decision);
    case _ =>
  }

  lemma SyncKept(c: Config, hub: Hub, s: State, a: Action)
    requires HubOk(hub) && Sync(s) && Enabled(c, s, a)
    ensures Sync(Do(c, hub, s, a))
  {
    HubOrSame(c, hub, s, a);
  }

  /** The log is unchanged, or grew by one event. */
  predicate LogStep(s: State, s': State) {
    s'.log == s.log || (|s'.log| == |s.log| + 1 && s'.log == s.log + [s'.log[|s.log|]])
  }

  predicate Quiet(s: State, s': State) {
    LogStep(s, s') && (s'.log != s.log ==> !s'.log[|s.log|].Wrote? && !s'.log[|s.log|].Began?)
  }

  /** A step that writes neither outputs nor markers keeps every attestation. */
  lemma QuietKeepsAttest(s: State, s': State)
    requires MarkersAttest(s) && Evolves(s.disk.workflow, s'.disk.workflow)
    requires s'.disk.outputs == s.disk.outputs && s'.disk.markers == s.disk.markers
    requires Quiet(s, s')
    ensures MarkersAttest(s')
  {
    if s'.log != s.log { LogGrows(s.log, s'.log[|s.log|]); }
    forall key | key in s'.disk.markers
      ensures Attested(s', key)
    {
      assert Attested(s, key);
    }
  }

  /** Landing an output for the current key keeps every attestation. */
  lemma OutputKeepsAttest(s: State, s': State, o: Outcome)
    requires Sync(s) && MarkersAttest(s) && Live(s.proc) && MemRuns(s.mem) && o.Completed?
    requires var key := CurrentKey(s.mem);
             s'.disk == PutOutput(s.disk, Clean, key.id, o) && s'.log == s.log + [Wrote(key, o)]
    ensures MarkersAttest(s') && HoldsOutput(s', CurrentKey(s.mem), o)
  {
    var key := CurrentKey(s.mem);
    CurrentKeyIs(s);
    LogGrows(s.log, Wrote(key, o));
    forall k | k in s'.disk.markers
      ensures Attested(s', k)
    {
      assert Attested(s, k);
    }
  }

  /** Landing the marker over a held output keeps every attestation. */
  lemma MarkerKeepsAttest(s: State, s': State, o: Outcome)
    requires Sync(s) && MarkersAttest(s) && Live(s.proc) && MemRuns(s.mem)
    requires HoldsOutput(s, CurrentKey(s.mem), o)
    requires s'.disk == PutMarker(s.disk, Clean, CurrentKey(s.mem)) && s'.log == s.log
    ensures MarkersAttest(s')
  {
    CurrentKeyIs(s);
    forall k | k in s'.disk.markers
      ensures Attested(s', k)
    {
      assert k in s.disk.markers ==> Attested(s, k);
    }
  }

  /** Beginning an attempt that is not marked keeps every attestation. */
  lemma BeginKeepsAttest(s: State, s': State)
    requires MarkersAttest(s) && MemRuns(s.mem) && CurrentKey(s.mem) !in s.disk.markers
    requires s'.disk == s.disk && s'.log == s.log + [Began(CurrentKey(s.mem), s.mem.reworkContext)]
    ensures MarkersAttest(s')
  {
    LogGrows(s.log, Began(CurrentKey(s.mem), s.mem.reworkContext));
    forall k | k in s'.disk.markers
      ensures Attested(s', k)
    {
      assert Attested(s, k);
    }
  }

  /** The actions that write to the output files or the markers. */
  lemma WritesKeepAttest(c: Config, hub: Hub, s: State, a: Action)
    requires Sync(s) && MarkersAttest(s) && Stage(s) && Enabled(c, s, a)
    requires a.CommandOutput? || a.WriteOutput? || a.CommandMarker? || a.WriteMarker?
    ensures MarkersAttest(Do(c, hub, s, a)) && Stage(Do(c, hub, s, a))
  {
    var s' := Do(c, hub, s, a);
    if Lands(a.fault) {
      if a.CommandOutput? {
        OutputKeepsAttest(s, s', a.o);
      } else if a.WriteOutput? {
        OutputKeepsAttest(s, s', s.proc.o);
      } else {
        MarkerKeepsAttest(s, s', s.proc.o);
      }
    }
  }

  lemma AttestKept(c: Config, hub: Hub, s: State, a: Action)
    requires HubOk(hub) && Sync(s) && MarkersAttest(s) && Stage(s) && Enabled(c, s, a) && !a.SinglePhase?
    ensures MarkersAttest(Do(c, hub, s, a)) && Stage(Do(c, hub, s, a))
  {
    if a.CommandOutput? || a.WriteOutput? || a.CommandMarker? || a.WriteMarker? {
      WritesKeepAttest(c, hub, s, a);
    } else if a.Begin? {
      BeginKeepsAttest(s, Do(c, hub, s, a));
    } else {
      HubOrSame(c, hub, s, a);
      QuietKeepsAttest(s, Do(c, hub, s, a));
    }
  }

  lemma SettledStays(w: Workflow, w': Workflow, key: Key)
    requires Evolves(w, w') && SettledOrPast(w, key)
    ensures SettledOrPast(w', key)
  {
  }

  /** Applying the decision of a marked current key. */
  lemma ApplyKeepsOnce(s: State, s': State, d: Option<Decision>, replayed: bool)
    requires Sync(s) && AppliedOnce(s) && Live(s.proc) && MemRuns(s.mem)
    requires CurrentKey(s.mem) in s.disk.markers && s'.disk.markers == s.disk.markers
    requires Completes(s.disk.workflow, s'.disk.workflow)
    requires s'.log == s.log + [Applied(CurrentKey(s.mem), d, replayed)]
    ensures AppliedOnce(s')
  {
    CurrentKeyIs(s);
    forall i | 0 <= i < |s'.log| && s'.log[i].Applied?
      ensures s'.log[i].key in s'.disk.markers && SettledOrPast(s'.disk.workflow, s'.log[i].key)
    {
      if i < |s.log| {
        assert s'.log[i] == s.log[i];
        SettledStays(s.disk.workflow, s'.disk.workflow, s.log[i].key);
      }
    }
    forall i, j | 0 <= i < j < |s'.log| && s'.log[i].Applied? && s'.log[j].Applied?
      ensures s'.log[i].key != s'.log[j].key
    {
      assert s'.log[i] == s.log[i];
    }
  }

  lemma OthersKeepOnce(s: State, s': State)
    requires AppliedOnce(s) && Evolves(s.disk.workflow, s'.disk.workflow)
    requires s.disk.markers <= s'.disk.markers
    requires LogStep(s, s') && (s'.log != s.log ==> !s'.log[|s.log|].Applied?)
    ensures AppliedOnce(s')
  {
    forall i | 0 <= i < |s'.log| && s'.log[i].Applied?
      ensures i < |s.log| && s'.log[i] == s.log[i]
      ensures s'.log[i].key in s'.disk.markers && SettledOrPast(s'.disk.workflow, s'.log[i].key)
    {
      assert i < |s.log|;
      SettledStays(s.disk.workflow, s'.disk.workflow, s.log[i].key);
    }
  }

  lemma OtherActionsKeepOnce(c: Config, hub: Hub, s: State, a: Action)
    requires HubOk(hub) && Sync(s) && AppliedOnce(s) && Enabled(c, s, a) && !a.Replay? && !a.Apply?
    ensures AppliedOnce(Do(c, hub, s, a))
  {
    HubOrSame(c, hub, s, a);
    OthersKeepOnce(s, Do(c, hub, s, a));
  }

  lemma OnceKept(c: Config, hub: Hub, s: State, a: Action)
    requires HubOk(hub) && Sync(s) && Stage(s) && AppliedOnce(s) && Enabled(c, s, a)
    ensures AppliedOnce(Do(c, hub, s, a))
  {
    var s' := Do(c, hub, s, a);
    match a
    case Replay =>
      assert HubAnswers(hub, s.disk.workflow, Some(ReadDecision(FileOf(s.disk, CurrentKey(s.mem).id)).value));
      ApplyKeepsOnce(s, s', Some(ReadDecision(FileOf(s.disk, CurrentKey(s.mem).id)).value), true);
    case Apply =>
      assert HubAnswers(hub, s.disk.workflow, s.proc.o.decision);
      ApplyKeepsOnce(s, s', s.proc.o.decision, false);
    case _ =>
      OtherActionsKeepOnce(c, hub, s, a);
  }

  /** The gate charges a rework only while there is budget. */
  lemma GateKeepsBudget(c: Config, s: State, id: string, results: seq<CheckResult>, detail: string)
    requires WithinBudget(c, s) && s.proc.Ran?
    ensures WithinBudget(c, GateState(c, s, id, results, detail))
  {
    var used := Used(s.mem, id);
    if GateOutcome(c, id, s.proc.o, used, results, detail).1 {
      ChargedKeepsBudget(c, s, GateState(c, s, id, results, detail), id);
    }
  }

  lemma ChargedKeepsBudget(c: Config, s: State, s': State, id: string)
    requires WithinBudget(c, s) && Live(s.proc) && Used(s.mem, id) < Budget(c, id)
    requires s'.log == s.log + [Reworked(id)]
    requires s'.mem.evalReworks == s.mem.evalReworks[id := Used(s.mem, id) + 1]
    ensures WithinBudget(c, s')
  {
    LogGrows(s.log, Reworked(id));
    forall other ensures ReworksInCall(s'.log, other) <= Budget(c, other)
      ensures Used(s'.mem, other) == ReworksInCall(s'.log, other)
    {
      assert Used(s.mem, other) == ReworksInCall(s.log, other);
    }
  }

  lemma QuietKeepsBudget(c: Config, s: State, s': State)
    requires WithinBudget(c, s) && s'.log == s.log
    requires Live(s'.proc) ==> Live(s.proc) && s'.mem.evalReworks == s.mem.evalReworks
    ensures WithinBudget(c, s')
  {
  }

  /** Events other than reworks; a start begins with a fresh count. */
  lemma LoggedKeepsBudget(c: Config, s: State, s': State, e: Event)
    requires WithinBudget(c, s) && s'.log == s.log + [e] && !e.Reworked?
    requires e.Started? ==> s'.mem.evalReworks == map[]
    requires !e.Started? && Live(s'.proc) ==> Live(s.proc) && s'.mem.evalReworks == s.mem.evalReworks
    ensures WithinBudget(c, s')
  {
    LogGrows(s.log, e);
  }

  lemma BudgetKept(c: Config, hub: Hub, s: State, a: Action)
    requires WithinBudget(c, s) && Enabled(c, s, a)
    ensures WithinBudget(c, Do(c, hub, s, a))
  {
    if a.Evaluate? {
      GateKeepsBudget(c, s, CurrentKey(s.mem).id, a.results, a.detail);
    } else {
      var s' := Do(c, hub, s, a);
      if s'.log == s.log {
        QuietKeepsBudget(c, s, s');
      } else {
        LoggedKeepsBudget(c, s, s', s'.log[|s.log|]);
      }
    }
  }

  lemma {:induction false} InvKept(c: Config, hub: Hub, s: State, a: Action)
    requires HubOk(hub) && Inv(c, s) && Enabled(c, s, a) && !a.SinglePhase?
    ensures Inv(c, Do(c, hub, s, a))
  {
    SyncKept(c, hub, s, a);
    AttestKept(c, hub, s, a);
    OnceKept(c, hub, s, a);
    BudgetKept(c, hub, s, a);
  }

  /** The invariant holds after every full-workflow run. */
  lemma {:induction false} InvHolds(c: Config, hub: Hub, s: State, run: seq<Action>)
    requires HubOk(hub) && Inv(c, s) && Possible(c, hub, s, run) && FullWorkflow(run)
    ensures Inv(c, EndOf(c, hub, s, run))
    decreases |run|
  {
    if run != [] {
      InvKept(c, hub, s, run[0]);
      InvHolds(c, hub, Do(c, hub, s, run[0]), run[1..]);
    }
  }

  lemma InitialInv(c: Config, s: State)
    requires Initial(s)
    ensures Inv(c, s)
  {
  }
}
