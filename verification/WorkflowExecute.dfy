/**
 The workflow loop as it is written: durable records, local variables and a
 loop that updates them. The process may die before any step; every call is the
 one run of the state machine in `CrashReplay` that its schedule allows.
 */
module WorkflowExecute {
  import opened Common
  import opened DurableWrite
  import opened PhaseOutput
  import opened PhaseEvals
  import opened CrashReplay
  import opened CrashTheorems
  import opened CrashRefinement
  import opened WorkflowSchedule

  datatype PhaseRun = Returned(o: Outcome) | Failure

  datatype Ending = GoOn | Return | Crashed

  class Runner {
    const config: Config
    const hub: Hub
    const world: Schedule

    // durable
    var record: Workflow
    var outputs: map<string, PersistedOutput>
    var markers: set<Key>

    // local variables of the loop
    var workflow: Workflow
    var phaseIdx: nat
    var reworkContext: Option<string>
    var evalReworks: map<string, nat>

    // the steps taken so far, over all calls
    var steps: nat

    ghost const start: State
    ghost var run: seq<Action>

    constructor (config: Config, hub: Hub, world: Schedule, record: Workflow, outputs: map<string, PersistedOutput>)
      ensures this.config == config && this.hub == hub && this.world == world
      ensures At(Down) && run == [] && start == State(Disk(record, outputs, {}), BLANK, Down, [])
    {
      this.config, this.hub, this.world := config, hub, world;
      this.record, this.outputs, this.markers := record, outputs, {};
      this.workflow, this.phaseIdx, this.reworkContext, this.evalReworks := BLANK.workflow, 0, None, map[];
      this.steps := 0;
      this.start := State(Disk(record, outputs, {}), BLANK, Down, []);
      this.run := [];
    }

    /** The state that the recorded run has reached. */
    ghost function Now(): State
      requires Possible(config, hub, start, run)
      reads this
    {
      EndOf(config, hub, start, run)
    }

    /** The recorded run is possible and obeys the schedule. */
    ghost predicate Recorded()
      reads this
    {
      && Possible(config, hub, start, run) && FullWorkflow(run)
      && Obeyed(config, hub, world, start, run, 0) && steps == |run|
    }

    /** The fields are those of the state machine at stage `p`. */
    ghost predicate At(p: Process)
      reads this
    {
      && Recorded()
      && Now().disk == Disk(record, outputs, markers)
      && Now().proc == p
      && (Live(p) ==> Now().mem == Memory(workflow, phaseIdx, reworkContext, evalReworks))
    }

    /** The run has gone on, without starting another call. */
    ghost predicate GoneOn(before: seq<Action>)
      reads this
    {
      before <= run && forall i :: |before| <= i < |run| ==> !run[i].Start?
    }

    method Record(ghost a: Action)
      requires Recorded() && !a.SinglePhase?
      requires Enabled(config, Now(), a) && Scheduled(config, world, Now(), steps, a)
      modifies this`run, this`steps
      ensures Recorded() && run == old(run) + [a]
      ensures Now() == Do(config, hub, old(Now()), a)
    {
      ObeyedAppend(config, hub, world, start, run, 0, a);
      run := run + [a];
      steps := steps + 1;
    }

    /** The process dies where the schedule says so; only what is durable is left. */
    method Dies(ghost p: Process) returns (dead: bool)
      requires At(p) && Live(p)
      modifies this
      ensures dead == world.dies(old(steps))
      ensures if dead then At(Down) && run == old(run) + [Crash] else unchanged(this)
    {
      dead := world.dies(steps);
      if dead {
        Record(Crash);
        workflow, phaseIdx, reworkContext, evalReworks := BLANK.workflow, 0, None, map[];
      }
    }

    method FailCurrentPhase(ghost p: Process)
      requires At(p) && (p.PersistFailed? || p.RunFailed?) && !world.dies(steps)
      modifies this
      ensures At(Done) && GoneOn(old(run))
    {
      Record(if p.PersistFailed? then FailPersist else FailRun);
      record := hub.fail(record);
      workflow := record;
    }

    /** Output first, marker second; the first failed write ends it. */
    method PersistPhaseOutput(o: Outcome) returns (end: Ending)
      requires At(Gated(o)) && o.Completed? && phaseIdx < |workflow.phases| && !Terminal(workflow.status)
      requires !world.dies(steps)
      modifies this
      ensures GoneOn(old(run))
      ensures match end
              case GoOn => At(MarkerWritten(o))
              case Return => At(PersistFailed)
              case Crashed => At(Down)
      ensures end.GoOn? ==> workflow == old(workflow) && phaseIdx == old(phaseIdx)
    {
      var ok := WriteOutputFile(o);
      if !ok { return Return; }
      var dead := Dies(OutputWritten(o));
      if dead { return Crashed; }
      ok := WriteMarkerFile(o);
      end := if ok then GoOn else Return;
    }

    method WriteOutputFile(o: Outcome) returns (ok: bool)
      requires At(Gated(o)) && o.Completed? && phaseIdx < |workflow.phases| && !Terminal(workflow.status)
      requires !world.dies(steps)
      modifies this
      ensures At(if ok then OutputWritten(o) else PersistFailed)
      ensures run == old(run) + [WriteOutput(world.fault(old(steps)))]
      ensures ok == world.fault(old(steps)).Clean?
      ensures workflow == old(workflow) && phaseIdx == old(phaseIdx)
    {
      var key := CurrentKey(Memory(workflow, phaseIdx, reworkContext, evalReworks));
      var f := world.fault(steps);
      Record(WriteOutput(f));
      outputs := After(f, outputs, outputs[key.id := Persisted(key.id, o)]);
      ok := f.Clean?;
    }

    method WriteMarkerFile(o: Outcome) returns (ok: bool)
      requires At(OutputWritten(o)) && phaseIdx < |workflow.phases| && !Terminal(workflow.status)
      requires !world.dies(steps)
      modifies this
      ensures At(if ok then MarkerWritten(o) else PersistFailed)
      ensures run == old(run) + [WriteMarker(world.fault(old(steps)))]
      ensures ok == world.fault(old(steps)).Clean?
      ensures workflow == old(workflow) && phaseIdx == old(phaseIdx)
    {
      var key := CurrentKey(Memory(workflow, phaseIdx, reworkContext, evalReworks));
      var g := world.fault(steps);
      Record(WriteMarker(g));
      markers := After(g, markers, markers + {key});
      ok := g.Clean?;
    }

    /** A failing command persists its own outcome before it returns. */
    method PersistFailedCommand(o: Outcome) returns (r: PhaseRun, end: Ending)
      requires At(InFlight) && phaseIdx < |workflow.phases| && !Terminal(workflow.status) && !world.dies(steps)
      requires var key := CurrentKey(Memory(workflow, phaseIdx, reworkContext, evalReworks));
               world.answer(steps, key) == Produces(o) && PersistsEarly(config, world, steps, key.id, o)
      modifies this
      ensures GoneOn(old(run))
      ensures match end
              case GoOn => (match r case Returned(o') => o' == o && At(Ran(o)) case Failure => At(RunFailed))
              case _ => end.Crashed? && At(Down)
      ensures end.GoOn? ==> workflow == old(workflow) && phaseIdx == old(phaseIdx)
    {
      var ok := WriteCommandOutput(o);
      if !ok { return Failure, GoOn; }
      var dead := Dies(EarlyOutput(o));
      if dead { return Failure, Crashed; }
      ok := WriteCommandMarker(o);
      return if ok then Returned(o) else Failure, GoOn;
    }

    method WriteCommandOutput(o: Outcome) returns (ok: bool)
      requires At(InFlight) && phaseIdx < |workflow.phases| && !Terminal(workflow.status) && !world.dies(steps)
      requires var key := CurrentKey(Memory(workflow, phaseIdx, reworkContext, evalReworks));
               world.answer(steps, key) == Produces(o) && PersistsEarly(config, world, steps, key.id, o)
      modifies this
      ensures At(if ok then EarlyOutput(o) else RunFailed)
      ensures run == old(run) + [CommandOutput(o, world.fault(old(steps)))]
      ensures ok == world.fault(old(steps)).Clean?
      ensures workflow == old(workflow) && phaseIdx == old(phaseIdx)
    {
      var key := CurrentKey(Memory(workflow, phaseIdx, reworkContext, evalReworks));
      var f := world.fault(steps);
      Record(CommandOutput(o, f));
      outputs := After(f, outputs, outputs[key.id := Persisted(key.id, o)]);
      ok := f.Clean?;
    }

    method WriteCommandMarker(o: Outcome) returns (ok: bool)
      requires At(EarlyOutput(o)) && phaseIdx < |workflow.phases| && !Terminal(workflow.status)
      requires !world.dies(steps)
      modifies this
      ensures At(if ok then Ran(o) else RunFailed)
      ensures run == old(run) + [CommandMarker(world.fault(old(steps)))]
      ensures ok == world.fault(old(steps)).Clean?
      ensures workflow == old(workflow) && phaseIdx == old(phaseIdx)
    {
      var key := CurrentKey(Memory(workflow, phaseIdx, reworkContext, evalReworks));
      var g := world.fault(steps);
      Record(CommandMarker(g));
      markers := After(g, markers, markers + {key});
      ok := g.Clean?;
    }

    /** The phase itself; a failing command also persists its own outcome. */
    method RunPhase() returns (r: PhaseRun, end: Ending)
      requires At(InFlight) && phaseIdx < |workflow.phases| && !Terminal(workflow.status)
      modifies this
      ensures GoneOn(old(run))
      ensures match end
              case GoOn => (match r case Returned(o) => At(Ran(o)) case Failure => At(RunFailed))
              case _ => end.Crashed? && At(Down)
      ensures end.GoOn? ==> workflow == old(workflow) && phaseIdx == old(phaseIdx)
    {
      var dead := Dies(InFlight);
      if dead { return Failure, Crashed; }
      var key := CurrentKey(Memory(workflow, phaseIdx, reworkContext, evalReworks));
      match world.answer(steps, key)
      case Errs =>
        Record(FinishErr);
        return Failure, GoOn;
      case Produces(o) =>
        if PersistsEarly(config, world, steps, key.id, o) {
          r, end := PersistFailedCommand(o);
        } else {
          Record(Finish(o));
          return Returned(o), GoOn;
        }
    }

    /** The gate step, told by what `GatePhase` answered. */
    lemma GateStep(s: State, id: string, results: seq<CheckResult>, detail: string, o': Outcome, charged: bool)
      requires s.proc.Ran? && (o', charged) == GateOutcome(config, id, s.proc.o, Used(s.mem, id), results, detail)
      ensures var s' := GateState(config, s, id, results, detail);
              && s'.disk == s.disk && s'.proc == Gated(o')
              && s'.mem ==
                 if charged then s.mem.(evalReworks := s.mem.evalReworks[id := Used(s.mem, id) + 1]) else s.mem
    {
    }

    /** `Record` for the eval gate, in terms of its answer. */
    method RecordGate(results: seq<CheckResult>, detail: string, o': Outcome, charged: bool)
      requires Recorded()
      requires Enabled(config, Now(), Evaluate(results, detail))
      requires Scheduled(config, world, Now(), steps, Evaluate(results, detail))
      requires var m, id := Now().mem, CurrentKey(Now().mem).id;
               (o', charged) == GateOutcome(config, id, Now().proc.o, Used(m, id), results, detail)
      modifies this`run, this`steps
      ensures Recorded() && run == old(run) + [Evaluate(results, detail)]
      ensures Now().disk == old(Now()).disk && Now().proc == Gated(o')
      ensures var m, id := old(Now()).mem, CurrentKey(old(Now()).mem).id;
              Now().mem == if charged then m.(evalReworks := m.evalReworks[id := Used(m, id) + 1]) else m
    {
      GateStep(Now(), CurrentKey(Now().mem).id, results, detail, o', charged);
      Record(Evaluate(results, detail));
    }

    /** The eval gate may turn an advancing outcome into a rework or a pause. */
    method ApplyEvalGate(o: Outcome) returns (o': Outcome)
      requires At(Ran(o)) && phaseIdx < |workflow.phases| && !Terminal(workflow.status) && !world.dies(steps)
      modifies this
      ensures At(Gated(o')) && GoneOn(old(run))
      ensures workflow == old(workflow) && phaseIdx == old(phaseIdx)
    {
      var id := CurrentKey(Memory(workflow, phaseIdx, reworkContext, evalReworks)).id;
      var used := if id in evalReworks then evalReworks[id] else 0;
      var results, detail, charged;
      o', results, detail, charged := GatePhase(id, o, used, steps);
      SetGate(id, results, detail, o', charged);
    }

    /** The gate's answer takes effect: a charged rework is counted. */
    method SetGate(id: string, results: seq<CheckResult>, detail: string, o': Outcome, charged: bool)
      requires exists o :: At(Ran(o))
      requires phaseIdx < |workflow.phases| && !Terminal(workflow.status) && id == CurrentKey(Now().mem).id
      requires Scheduled(config, world, Now(), steps, Evaluate(results, detail))
      requires Enabled(config, Now(), Evaluate(results, detail))
      requires (o', charged) == GateOutcome(config, id, Now().proc.o, Used(Now().mem, id), results, detail)
      modifies this
      ensures At(Gated(o')) && run == old(run) + [Evaluate(results, detail)]
      ensures workflow == old(workflow) && phaseIdx == old(phaseIdx)
    {
      RecordGate(results, detail, o', charged);
      if charged {
        evalReworks := evalReworks[id := (if id in evalReworks then evalReworks[id] else 0) + 1];
      }
    }

    /** Runs the checks of `id`, if it has any that apply to `o`, and decides. */
    method GatePhase(id: string, o: Outcome, used: nat, step: nat)
      returns (o': Outcome, results: seq<CheckResult>, detail: string, charged: bool)
      ensures EvalAdvancing(o) && HasEvals(config, id) ==>
                results == Results(world, step, config.evals[id].checks) && Answers(config.evals[id], results)
      ensures !(EvalAdvancing(o) && HasEvals(config, id)) ==> results == []
      ensures detail == if EvalAdvancing(o) && HasEvals(config, id) then world.detail(step) else ""
      ensures (o', charged) == GateOutcome(config, id, o, used, results, detail)
    {
      o', results, detail, charged := o, [], "", false;
      if EvalAdvancing(o) && HasEvals(config, id) {
        var evals := config.evals[id];
        results := RunPhaseEvals(evals, step);
        detail := world.detail(step);
        match DecideGate(evals, FromResults(results), used)
        case Pass =>
        case GateRework =>
          o', charged := ForceRework(o, id, "eval gate rework: " + detail), true;
        case GateBlock =>
          o' := ManualPending("eval gate blocked phase '" + id + "': " + detail, true);
      }
    }

    /** One result per check, in declaration order. */
    method RunPhaseEvals(evals: EvalsConfig, step: nat) returns (results: seq<CheckResult>)
      ensures results == Results(world, step, evals.checks) && Answers(evals, results)
    {
      results := [];
      for i := 0 to |evals.checks|
        invariant |results| == i
        invariant forall j :: 0 <= j < i ==>
                    results[j] == CheckResult(evals.checks[j], world.passes(step, evals.checks[j]))
      {
        results := results + [CheckResult(evals.checks[i], world.passes(step, evals.checks[i]))];
      }
    }

    /** The hub's answer to a decision becomes the loop's workflow. */
    method TakeAnswer(answer: Workflow, context: Option<string>) returns (end: Ending)
      requires Recorded()
      requires Now().disk == Disk(answer, outputs, markers)
      requires Now().mem == Memory(answer, answer.current, context, evalReworks)
      requires Now().proc == if answer.status in {Failed, Escalated, Cancelled} then Done else AtLoop
      modifies this
      ensures run == old(run)
      ensures match end case GoOn => At(AtLoop) case Return => At(Done) case Crashed => false
    {
      record := answer;
      workflow, phaseIdx, reworkContext := answer, answer.current, context;
      end := if workflow.status in {Failed, Escalated, Cancelled} then Return else GoOn;
    }

    /** A marker exists: replay its decision, or block the workflow. */
    method ReplayMarker() returns (end: Ending)
      requires At(AtLoop) && phaseIdx < |workflow.phases| && !Terminal(workflow.status) && !world.dies(steps)
      requires CurrentKey(Memory(workflow, phaseIdx, reworkContext, evalReworks)) in markers
      modifies this
      ensures var key := CurrentKey(old(Now()).mem);
              run == old(run) + [if ReadDecision(FileOf(old(Now()).disk, key.id)).Ok? then Replay else Block]
      ensures match end case GoOn => At(AtLoop) case Return => At(Done) case Crashed => false
    {
      var key := CurrentKey(Memory(workflow, phaseIdx, reworkContext, evalReworks));
      match ReadDecision(if key.id in outputs then Holding(outputs[key.id]) else Missing)
      case Ok(d) =>
        Record(Replay);
        end := TakeAnswer(hub.complete(record, Some(d)), reworkContext);
      case Err(_) =>
        Record(Block);
        record := hub.fail(record);
        workflow := record;
        end := Return;
    }

    method ApplyDecision(o: Outcome) returns (end: Ending)
      requires At(MarkerWritten(o)) && o.Completed? && phaseIdx < |workflow.phases| && !Terminal(workflow.status)
      requires !world.dies(steps)
      modifies this
      ensures run == old(run) + [Apply]
      ensures match end case GoOn => At(AtLoop) case Return => At(Done) case Crashed => false
    {
      Record(Apply);
      end := TakeAnswer(hub.complete(record, o.decision), ReworkContext(o));
    }

    method BeginPhase()
      requires At(AtLoop) && phaseIdx < |workflow.phases| && !Terminal(workflow.status) && !world.dies(steps)
      requires CurrentKey(Memory(workflow, phaseIdx, reworkContext, evalReworks)) !in markers
      modifies this
      ensures At(InFlight) && run == old(run) + [Begin]
      ensures workflow == old(workflow) && phaseIdx == old(phaseIdx)
    {
      Record(Begin);
      reworkContext := None;
    }

    method PausePhase(o: Outcome)
      requires At(Gated(o)) && o.ManualPending? && !world.dies(steps)
      modifies this
      ensures At(Done) && run == old(run) + [Pause]
    {
      Record(Pause);
      record := hub.pause(record);
      workflow := record;
    }

    /**
     The body of the loop. Unless the process dies at once, a marked attempt is
     replayed or blocked, and nothing else; an unmarked one is begun.
     */
    method RunCurrentPhase() returns (end: Ending)
      requires At(AtLoop) && phaseIdx < |workflow.phases| && !Terminal(workflow.status)
      modifies this
      ensures GoneOn(old(run)) && |run| > |old(run)| && (end.GoOn? ==> !world.dies(old(steps)))
      ensures match end case GoOn => At(AtLoop) case Return => At(Done) case Crashed => At(Down)
      ensures var s := old(Now());
              var first := run[|old(run)|];
              if world.dies(old(steps)) then run == old(run) + [Crash]
              else if CurrentKey(s.mem) in s.disk.markers
              then run == old(run) + [if ReadDecision(FileOf(s.disk, CurrentKey(s.mem).id)).Ok? then Replay else Block]
              else first == Begin
    {
      var dead := Dies(AtLoop);
      if dead { return Crashed; }
      var key := CurrentKey(Memory(workflow, phaseIdx, reworkContext, evalReworks));
      if key in markers {
        end := ReplayMarker();
        return;
      }
      BeginPhase();
      end := RunBegunPhase();
    }

    method RunBegunPhase() returns (end: Ending)
      requires At(InFlight) && phaseIdx < |workflow.phases| && !Terminal(workflow.status)
      modifies this
      ensures GoneOn(old(run))
      ensures match end case GoOn => At(AtLoop) case Return => At(Done) case Crashed => At(Down)
    {
      var r, ran := RunPhase();
      if ran.Crashed? { return Crashed; }
      match r
      case Failure => end := FailRunPhase();
      case Returned(o) => end := GateAndConclude(o);
    }

    method FailRunPhase() returns (end: Ending)
      requires At(RunFailed)
      modifies this
      ensures GoneOn(old(run))
      ensures match end case GoOn => false case Return => At(Done) case Crashed => At(Down)
    {
      var dead := Dies(RunFailed);
      if dead { return Crashed; }
      FailCurrentPhase(RunFailed);
      end := Return;
    }

    /** Gate the outcome; then pause, or persist and advance. */
    method GateAndConclude(o: Outcome) returns (end: Ending)
      requires At(Ran(o)) && phaseIdx < |workflow.phases| && !Terminal(workflow.status)
      modifies this
      ensures GoneOn(old(run))
      ensures match end case GoOn => At(AtLoop) case Return => At(Done) case Crashed => At(Down)
    {
      var dead := Dies(Ran(o));
      if dead { return Crashed; }
      var outcome := ApplyEvalGate(o);
      dead := Dies(Gated(outcome));
      if dead { return Crashed; }
      if outcome.ManualPending? {
        PausePhase(outcome);
        return Return;
      }
      end := Conclude(outcome);
    }

    /** A completed outcome is made durable before the hub hears of it. */
    method Conclude(outcome: Outcome) returns (end: Ending)
      requires At(Gated(outcome)) && outcome.Completed? && phaseIdx < |workflow.phases| && !Terminal(workflow.status)
      requires !world.dies(steps)
      modifies this
      ensures GoneOn(old(run))
      ensures match end case GoOn => At(AtLoop) case Return => At(Done) case Crashed => At(Down)
    {
      var persisted := PersistPhaseOutput(outcome);
      if persisted.Crashed? { return Crashed; }
      if persisted.Return? {
        var dead := Dies(PersistFailed);
        if dead { return Crashed; }
        FailCurrentPhase(PersistFailed);
        return Return;
      }
      var dead := Dies(MarkerWritten(outcome));
      if dead { return Crashed; }
      end := ApplyDecision(outcome);
    }

    /**
     One call. Unless the workflow is not running or has no phases, it is the
     call that the schedule allows (`CallForced`), from where earlier calls left
     the durable state. No process lives for ever: the schedule has it die
     within `lifetime` steps.
     */
    method Execute(ghost lifetime: nat) returns (end: Ending)
      requires At(Down) || At(Done)
      requires forall i: nat :: i >= steps + lifetime ==> world.dies(i)
      modifies this
      ensures end.GoOn? <==> !old(record.status).Running? || old(record.phases) == []
      ensures end.GoOn? ==> unchanged(this)
      ensures !end.GoOn? ==>
                && old(run) <= run && (if end.Return? then At(Done) else At(Down))
                && Call(config, hub, world, old(Now()), run[|old(run)|..], old(steps))
                && Now() == EndOf(config, hub, old(Now()), run[|old(run)|..])
    {
      ghost var before, bound := run, steps + lifetime;
      if !record.status.Running? || record.phases == [] { return GoOn; }
      Record(Start);
      workflow, phaseIdx, reworkContext, evalReworks := record, record.current, None, map[];
      end := RunLoop(bound);
      CallOf(before);
    }

    /** What was recorded since `before` is a call. */
    ghost method CallOf(before: seq<Action>)
      requires Recorded() && !Live(Now().proc)
      requires |before| < |run| && before <= run && run[|before|].Start? && GoneOn(run[..|before| + 1])
      requires Possible(config, hub, start, before) && !Live(EndOf(config, hub, start, before).proc)
      ensures Call(config, hub, world, EndOf(config, hub, start, before), run[|before|..], |before|)
      ensures Now() == EndOf(config, hub, EndOf(config, hub, start, before), run[|before|..])
    {
      Split(config, hub, world, start, run, 0, before);
      var call := run[|before|..];
      forall i | 0 <= i < |call[1..]| ensures !call[1..][i].Start? { assert call[1..][i] == run[|before| + 1 + i]; }
    }

    /** The loop over the phases. */
    method RunLoop(ghost bound: nat) returns (end: Ending)
      requires At(AtLoop) && forall i: nat :: i >= bound ==> world.dies(i)
      modifies this
      ensures GoneOn(old(run))
      ensures match end case GoOn => false case Return => At(Done) case Crashed => At(Down)
    {
      while phaseIdx < |workflow.phases| && !Terminal(workflow.status)
        invariant At(AtLoop) && GoneOn(old(run))
        decreases bound + 1 - steps
      {
        end := RunCurrentPhase();
        if !end.GoOn? { return; }
      }
      var dead := Dies(AtLoop);
      if dead { return Crashed; }
      Record(Exit);
      end := Return;
    }
  }
}
