/**
 Ad hoc runs of a single phase beside the workflow loop: exactly when they keep
 what the loop relies on, and the runs in which they do not.
 */
module CrashAlone {
  import opened Common
  import opened DurableWrite
  import opened PhaseOutput
  import opened PhaseEvals
  import opened CrashReplay
  import opened CrashInvariants
  import opened CrashTheorems
  import opened CrashRefinement

  predicate OutputLands(alone: AloneRun) {
    !alone.Silent? && Lands(alone.output)
  }

  predicate MarkerLands(alone: AloneRun) {
    alone.CommandAlone? && alone.output.Clean? && Lands(alone.marker)
  }

  /** The loop itself has written for `key`, since it last began, the record that `o` gives. */
  predicate LoopWrote(s: State, key: Key, o: Outcome) {
    var last := LastWrote(s.log, key);
    last.Some? && last.value.Completed? && Persisted(key.id, last.value) == Persisted(key.id, o)
  }

  /**
   The output written lies under a marker of the phase's present attempt only
   if the loop has written the same; a marker written is for no later attempt.
   */
  predicate Harmless(s: State, id: string, alone: AloneRun) {
    OutputLands(alone) ==>
      var key := AloneKey(s.disk.workflow, id);
      match Find(s.disk.workflow.phases, id)
      case None => !MarkerLands(alone)
      case Some(r) =>
        var present := Key(id, r.attempt);
        && (MarkerLands(alone) ==> key.attempt <= r.attempt)
        && (present in s.disk.markers || (MarkerLands(alone) && key == present) ==> LoopWrote(s, present, alone.o))
  }

  /** What a single-phase run does to the files. */
  lemma AloneWrites(c: Config, hub: Hub, s: State, id: string, alone: AloneRun)
    requires Enabled(c, s, SinglePhase(id, alone))
    ensures var s' := Do(c, hub, s, SinglePhase(id, alone));
            && s'.disk.workflow == s.disk.workflow
            && s'.disk.outputs == (if OutputLands(alone) then s.disk.outputs[id := Persisted(id, alone.o)]
                                   else s.disk.outputs)
            && s'.disk.markers == (if MarkerLands(alone) then s.disk.markers + {AloneKey(s.disk.workflow, id)}
                                   else s.disk.markers)
            && forall key :: LastWrote(s'.log, key) == LastWrote(s.log, key)
  {
    LogGrows(s.log, RanAlone(AloneKey(s.disk.workflow, id)));
  }

  lemma HarmlessAttests(c: Config, hub: Hub, s: State, id: string, alone: AloneRun)
    requires MarkersAttest(s) && Enabled(c, s, SinglePhase(id, alone)) && Harmless(s, id, alone)
    ensures MarkersAttest(Do(c, hub, s, SinglePhase(id, alone)))
  {
    AloneWrites(c, hub, s, id, alone);
    var s' := Do(c, hub, s, SinglePhase(id, alone));
    var r := Find(s.disk.workflow.phases, id);
    forall k | k in s'.disk.markers ensures Attested(s', k) {
      assert k in s.disk.markers ==> Attested(s, k);
      if k.id == id && r.Some? && k.attempt == r.value.attempt { assert k == Key(id, r.value.attempt); }
    }
  }

  lemma HarmfulAttestsNot(c: Config, hub: Hub, s: State, id: string, alone: AloneRun)
    requires Enabled(c, s, SinglePhase(id, alone)) && !Harmless(s, id, alone)
    ensures !MarkersAttest(Do(c, hub, s, SinglePhase(id, alone)))
  {
    AloneWrites(c, hub, s, id, alone);
    var s' := Do(c, hub, s, SinglePhase(id, alone));
    var key := AloneKey(s.disk.workflow, id);
    var r := Find(s.disk.workflow.phases, id);
    var k := if r.None? || (MarkerLands(alone) && key.attempt > r.value.attempt) then key
             else Key(id, r.value.attempt);
    assert k in s'.disk.markers && !Attested(s', k);
  }

  /**
   A single-phase run keeps the invariant, and with it every guarantee about
   full-workflow runs, if and only if it is harmless.
   */
  lemma {:induction false} SinglePhaseKeepsInvIff(c: Config, hub: Hub, s: State, id: string, alone: AloneRun)
    requires HubOk(hub) && Inv(c, s) && Enabled(c, s, SinglePhase(id, alone))
    ensures Inv(c, Do(c, hub, s, SinglePhase(id, alone))) <==> Harmless(s, id, alone)
  {
    var a := SinglePhase(id, alone);
    SyncKept(c, hub, s, a);
    OnceKept(c, hub, s, a);
    BudgetKept(c, hub, s, a);
    if Harmless(s, id, alone) {
      HarmlessAttests(c, hub, s, id, alone);
    } else {
      HarmfulAttestsNot(c, hub, s, id, alone);
    }
  }

  // ---- whole runs ----

  ghost predicate InvThroughout(c: Config, hub: Hub, s: State, run: seq<Action>)
    requires Possible(c, hub, s, run)
    decreases |run|
  {
    Inv(c, s) && (run != [] ==> InvThroughout(c, hub, Do(c, hub, s, run[0]), run[1..]))
  }

  ghost predicate HarmlessThroughout(c: Config, hub: Hub, s: State, run: seq<Action>)
    requires Possible(c, hub, s, run)
    decreases |run|
  {
    run != [] ==>
      && (run[0].SinglePhase? ==> Harmless(s, run[0].id, run[0].alone))
      && HarmlessThroughout(c, hub, Do(c, hub, s, run[0]), run[1..])
  }

  lemma {:induction false} RunKeepsInvIff(c: Config, hub: Hub, s: State, run: seq<Action>)
    requires HubOk(hub) && Inv(c, s) && Possible(c, hub, s, run)
    ensures InvThroughout(c, hub, s, run) <==> HarmlessThroughout(c, hub, s, run)
    decreases |run|
  {
    if run != [] {
      var s' := Do(c, hub, s, run[0]);
      if run[0].SinglePhase? {
        SinglePhaseKeepsInvIff(c, hub, s, run[0].id, run[0].alone);
      } else {
        InvKept(c, hub, s, run[0]);
      }
      if Inv(c, s') { RunKeepsInvIff(c, hub, s', run[1..]); }
    }
  }

  /**
   Over every run, single-phase runs included, the invariant holds at every
   moment if and only if each single-phase run was harmless when it was made.
   */
  lemma SafeThroughoutIff(c: Config, hub: Hub, s0: State, run: seq<Action>)
    requires HubOk(hub) && Initial(s0) && Possible(c, hub, s0, run)
    ensures InvThroughout(c, hub, s0, run) <==> HarmlessThroughout(c, hub, s0, run)
  {
    InitialInv(c, s0);
    RunKeepsInvIff(c, hub, s0, run);
  }

  // ---- runs that break replay ----

  /**
   A single-phase run between a crash and the restart runs the marked attempt
   again and overwrites the output under the marker: the restart then replays
   `o2` for the attempt for which the loop had produced `o1`.
   */
  lemma SinglePhaseRunBreaksReplay(c: Config, key: Key, o1: Outcome, o2: Outcome)
    returns (run: seq<Action>)
    requires !HasEvals(c, key.id) && o1.Completed? && Persisted(key.id, o1) != Persisted(key.id, o2)
    ensures Possible(c, IN_ORDER, OnePhase(key.id, key.attempt), run)
    ensures var s := EndOf(c, IN_ORDER, OnePhase(key.id, key.attempt), run);
            && s.proc.AtLoop? && MemRuns(s.mem) && CurrentKey(s.mem) == key && key in s.disk.markers
            && LastWrote(s.log, key) == Some(o1) && Executions(s.log, key) == 2
            && FileOf(s.disk, key.id) == Holding(Persisted(key.id, o2)) != Holding(Persisted(key.id, o1))
  {
    var s0 := OnePhase(key.id, key.attempt);
    run := MarkOnly(c, key, o1, k => Produces(o1));
    var log := EndOf(c, IN_ORDER, s0, run).log;
    run := Then(c, IN_ORDER, s0, run, Crash);
    run := Then(c, IN_ORDER, s0, run, SinglePhase(key.id, OutputAlone(o2, Clean)));
    run := Then(c, IN_ORDER, s0, run, Start);
    Counted(key, o1);
    assert log + [RanAlone(key)] + [Started] == EndOf(c, IN_ORDER, s0, run).log;
  }

  lemma Counted(key: Key, o: Outcome)
    ensures var log := [Started, Began(key, None)] + [Wrote(key, o)] + [RanAlone(key)] + [Started];
            LastWrote(log, key) == Some(o) && Executions(log, key) == 2
  {
    var log := [Started, Began(key, None)];
    assert log[..1] == [Started] && [Started][..0] == [];
    assert Executions([Started], key) == 0;
    assert Executions(log, key) == 1;
    LogGrows(log, Wrote(key, o));
    CountsGrow(log, Wrote(key, o), key);
    log := log + [Wrote(key, o)];
    LogGrows(log, RanAlone(key));
    CountsGrow(log, RanAlone(key), key);
    log := log + [RanAlone(key)];
    LogGrows(log, Started);
    CountsGrow(log, Started, key);
  }

  /** The first full run after a failing command was run alone. */
  lemma StartAfterCommand(c: Config, key: Key, o: Outcome) returns (run: seq<Action>)
    requires key.id in c.commands && CommandOutcome(o)
    ensures var s0 := OnePhase(key.id, key.attempt);
            && Possible(c, IN_ORDER, s0, run)
            && EndOf(c, IN_ORDER, s0, run) ==
               State(MarkedDisk(key, o), Memory(s0.disk.workflow, 0, None, map[]), AtLoop, [RanAlone(key)] + [Started])
  {
    var s0 := OnePhase(key.id, key.attempt);
    run := Then(c, IN_ORDER, s0, [], SinglePhase(key.id, CommandAlone(o, Clean, Clean)));
    run := Then(c, IN_ORDER, s0, run, Start);
  }

  lemma NothingApplied(key: Key)
    ensures AppliedVerdicts([RanAlone(key)] + [Started]) == []
  {
    AppliedGrows([], RanAlone(key));
    AppliedGrows([RanAlone(key)], Started);
    assert [] + [RanAlone(key)] == [RanAlone(key)];
  }

  /** The marker of the only phase is replayed and the workflow ends. */
  lemma ReplayToEnd(c: Config, key: Key, o: Outcome, started: seq<Action>) returns (run: seq<Action>)
    requires var s0 := OnePhase(key.id, key.attempt);
             && Possible(c, IN_ORDER, s0, started) && Replayable(o)
             && EndOf(c, IN_ORDER, s0, started) ==
                State(MarkedDisk(key, o), Memory(s0.disk.workflow, 0, None, map[]), AtLoop,
                      [RanAlone(key)] + [Started])
    ensures Possible(c, IN_ORDER, OnePhase(key.id, key.attempt), run)
    ensures var s := EndOf(c, IN_ORDER, OnePhase(key.id, key.attempt), run);
            && s.proc.Done? && s.disk.workflow.status == Succeeded
            && |s.log| == 3 && s.log[..2] == [RanAlone(key)] + [Started] && s.log[2].Applied?
            && AppliedVerdicts(s.log) == [(key, DecidedVerdict(o.decision))]
  {
    var s0 := OnePhase(key.id, key.attempt);
    PersistRoundTrip(key.id, o);
    NothingApplied(key);
    run := Then(c, IN_ORDER, s0, started, Replay);
    AppliedGrows([RanAlone(key)] + [Started], EndOf(c, IN_ORDER, s0, run).log[2]);
    run := Then(c, IN_ORDER, s0, run, Exit);
  }

  /**
   A command that fails when it is run alone leaves output and marker of the
   present attempt. The next full run never begins that attempt: it applies the
   command's verdict, or fails the workflow when the verdict is `unknown`.
   */
  lemma FailingCommandSkipsPhase(c: Config, key: Key, o: Outcome) returns (run: seq<Action>)
    requires key.id in c.commands && CommandOutcome(o)
    ensures Possible(c, IN_ORDER, OnePhase(key.id, key.attempt), run)
    ensures var s := EndOf(c, IN_ORDER, OnePhase(key.id, key.attempt), run);
            && s.proc.Done? && (forall e :: e in s.log ==> !e.Began? && !e.Wrote?)
            && s.disk.workflow.status == (if Replayable(o) then Succeeded else Failed)
            && AppliedVerdicts(s.log) == if Replayable(o) then [(key, o.decision.value.verdict)] else []
  {
    run := StartAfterCommand(c, key, o);
    NothingApplied(key);
    if Replayable(o) {
      run := ReplayToEnd(c, key, o, run);
    } else {
      PersistRoundTrip(key.id, o);
      run := Then(c, IN_ORDER, OnePhase(key.id, key.attempt), run, Block);
    }
  }
}
