/**
 The workflow loop as a state machine over its durable writes. A run is any
 sequence of actions, in which a crash may strike between any two of them.

 The workflow hub is outside the runner; it is a record of functions about
 which `HubOk` states what the runner relies on.
 */
module CrashReplay {
  import opened Common
  import opened TextLines
  import opened DurableWrite
  import opened PhaseOutput
  import opened PhaseEvals

  datatype Status = Running | Paused | Succeeded | Failed | Escalated | Cancelled

  /** `settled`: the hub has recorded the completion of this attempt. */
  datatype PhaseRecord = PhaseRecord(id: string, attempt: nat, settled: bool)

  datatype Workflow = Workflow(status: Status, current: nat, phases: seq<PhaseRecord>, rest: string)

  datatype Key = Key(id: string, attempt: nat)

  datatype Hub = Hub(
    complete: (Workflow, Option<Decision>) -> Workflow,
    fail: Workflow -> Workflow,
    pause: Workflow -> Workflow)

  /** Eval gates by phase, and the phases whose work is a command. */
  datatype Config = Config(evals: map<string, EvalsConfig>, commands: set<string>)

  // ---- the hub ----

  predicate Terminal(s: Status) {
    s in {Succeeded, Failed, Escalated, Cancelled}
  }

  function Find(phases: seq<PhaseRecord>, id: string): (r: Option<PhaseRecord>)
    ensures r.Some? ==> r.value in phases && r.value.id == id
    ensures r.None? <==> forall i :: 0 <= i < |phases| ==> phases[i].id != id
  {
    if phases == [] then None
    else if phases[0].id == id then Some(phases[0])
    else Find(phases[1..], id)
  }

  predicate DistinctIds(w: Workflow) {
    forall i, j :: 0 <= i < j < |w.phases| ==> w.phases[i].id != w.phases[j].id
  }

  predicate LoopRuns(w: Workflow) {
    w.current < |w.phases| && !Terminal(w.status)
  }

  predicate Later(r: PhaseRecord, r': PhaseRecord) {
    r'.attempt > r.attempt || (r'.attempt == r.attempt && (r.settled ==> r'.settled))
  }

  /**
   Attempts never decrease, no phase disappears, and a phase that can run
   next is not one whose present attempt is already settled.
   */
  ghost predicate Evolves(w: Workflow, w': Workflow) {
    && DistinctIds(w')
    && (forall id :: Find(w.phases, id).Some? ==>
          Find(w'.phases, id).Some? && Later(Find(w.phases, id).value, Find(w'.phases, id).value))
    && (LoopRuns(w') ==> !w'.phases[w'.current].settled)
  }

  /** Completing the current phase settles its attempt. */
  ghost predicate Completes(w: Workflow, w': Workflow) {
    && Evolves(w, w')
    && (LoopRuns(w) ==>
          var id := w.phases[w.current].id;
          var r, r' := Find(w.phases, id), Find(w'.phases, id);
          r'.Some? && (r'.value.attempt > r.value.attempt || r'.value.settled))
  }

  /** The loop has a phase to run, and its present attempt is not settled. */
  predicate Pending(w: Workflow) {
    DistinctIds(w) && LoopRuns(w) && !w.phases[w.current].settled
  }

  /** What the runner relies on when it calls the hub on `w`. */
  ghost predicate HubAnswers(hub: Hub, w: Workflow, d: Option<Decision>) {
    Pending(w) ==>
      Completes(w, hub.complete(w, d)) && Evolves(w, hub.fail(w)) && Evolves(w, hub.pause(w))
  }

  ghost predicate HubOk(hub: Hub) {
    forall w, d :: HubAnswers(hub, w, d)
  }

  // ---- states ----

  datatype Disk = Disk(workflow: Workflow, outputs: map<string, PersistedOutput>, markers: set<Key>)

  /** The loop's local variables. */
  datatype Memory = Memory(workflow: Workflow, idx: nat, reworkContext: Option<string>, evalReworks: map<string, nat>)

  datatype Process =
    | Down
    | AtLoop
    | InFlight
    | EarlyOutput(o: Outcome)
    | Ran(o: Outcome)
    | Gated(o: Outcome)
    | OutputWritten(o: Outcome)
    | MarkerWritten(o: Outcome)
    | PersistFailed
    | RunFailed
    | Done

  datatype Event =
    | Started
    | Began(key: Key, context: Option<string>)
    | RanAlone(key: Key)
    | Reworked(id: string)
    | Wrote(key: Key, o: Outcome)
    | Applied(key: Key, decision: Option<Decision>, replayed: bool)

  datatype State = State(disk: Disk, mem: Memory, proc: Process, log: seq<Event>)

  const BLANK := Memory(Workflow(Running, 0, [], ""), 0, None, map[])

  /**
   What an ad hoc run of a single phase writes: nothing when it fails, its
   output alone, or, when a command fails, output and marker, the marker only
   after a clean output. Missing writes are those of a run that died.
   */
  datatype AloneRun =
    | Silent
    | OutputAlone(o: Outcome, output: WriteFault)
    | CommandAlone(o: Outcome, output: WriteFault, marker: WriteFault)

  datatype Action =
    | Start
    | Exit
    | Replay
    | Block
    | Begin
    | Finish(o: Outcome)
    | FinishErr
    | CommandOutput(o: Outcome, fault: WriteFault)
    | CommandMarker(fault: WriteFault)
    | Evaluate(results: seq<CheckResult>, detail: string)
    | WriteOutput(fault: WriteFault)
    | WriteMarker(fault: WriteFault)
    | Apply
    | Pause
    | FailPersist
    | FailRun
    | Crash
    | External(w: Workflow)
    | SinglePhase(id: string, alone: AloneRun)

  predicate Live(p: Process) {
    !p.Down? && !p.Done?
  }

  predicate MemRuns(m: Memory) {
    m.idx < |m.workflow.phases| && !Terminal(m.workflow.status)
  }

  /** The phase at the loop index, with the attempt found under its id. */
  function CurrentKey(m: Memory): Key
    requires m.idx < |m.workflow.phases|
  {
    var id := m.workflow.phases[m.idx].id;
    match Find(m.workflow.phases, id)
    case Some(r) => Key(id, r.attempt)
    case None => Key(id, 0)
  }

  /** The attempt of the first phase named `id` in any letter case. */
  function AttemptIgnoringCase(phases: seq<PhaseRecord>, id: string): nat {
    if phases == [] then 0
    else if Lower(phases[0].id) == Lower(id) then phases[0].attempt
    else AttemptIgnoringCase(phases[1..], id)
  }

  /** The attempt that a single-phase run of `id` executes. */
  function AloneKey(w: Workflow, id: string): Key {
    Key(id, AttemptIgnoringCase(w.phases, id))
  }

  function FileOf(d: Disk, id: string): OutputFile {
    if id in d.outputs then Holding(d.outputs[id]) else Missing
  }

  function Used(m: Memory, id: string): nat {
    if id in m.evalReworks then m.evalReworks[id] else 0
  }

  predicate HasEvals(c: Config, id: string) {
    id in c.evals && c.evals[id].checks != []
  }

  function ReworkContext(o: Outcome): Option<string> {
    match o
    case Completed(_, Some(d), _) => if d.verdict.Rework? then Some(d.reason) else None
    case _ => None
  }

  /** A failing command always returns a decision and a payload, and no commit message. */
  predicate CommandOutcome(o: Outcome) {
    o.Completed? && o.commitMessage.None? && o.decision.Some? && o.payload.Some?
  }

  // ---- actions ----

  ghost predicate Enabled(c: Config, s: State, a: Action) {
    match a
    case Start => !Live(s.proc) && s.disk.workflow.status.Running? && s.disk.workflow.phases != []
    case Exit => s.proc.AtLoop? && !MemRuns(s.mem)
    case Replay => s.proc.AtLoop? && MemRuns(s.mem) && CurrentKey(s.mem) in s.disk.markers
                   && ReadDecision(FileOf(s.disk, CurrentKey(s.mem).id)).Ok?
    case Block => s.proc.AtLoop? && MemRuns(s.mem) && CurrentKey(s.mem) in s.disk.markers
                  && ReadDecision(FileOf(s.disk, CurrentKey(s.mem).id)).Err?
    case Begin => s.proc.AtLoop? && MemRuns(s.mem) && CurrentKey(s.mem) !in s.disk.markers
    case Finish(_) => s.proc.InFlight?
    case FinishErr => s.proc.InFlight?
    case CommandOutput(o, _) => s.proc.InFlight? && MemRuns(s.mem) && CurrentKey(s.mem).id in c.commands
                                && CommandOutcome(o)
    case CommandMarker(_) => s.proc.EarlyOutput? && MemRuns(s.mem)
    case Evaluate(results, _) =>
      s.proc.Ran? && MemRuns(s.mem)
      && (EvalAdvancing(s.proc.o) && HasEvals(c, CurrentKey(s.mem).id) ==>
            Answers(c.evals[CurrentKey(s.mem).id], results))
    case WriteOutput(_) => s.proc.Gated? && s.proc.o.Completed? && MemRuns(s.mem)
    case WriteMarker(_) => s.proc.OutputWritten? && MemRuns(s.mem)
    case Apply => s.proc.MarkerWritten? && MemRuns(s.mem) && s.proc.o.Completed?
    case Pause => s.proc.Gated? && s.proc.o.ManualPending?
    case FailPersist => s.proc.PersistFailed?
    case FailRun => s.proc.RunFailed?
    case Crash => Live(s.proc)
    case External(w) => !Live(s.proc) && Evolves(s.disk.workflow, w)
    case SinglePhase(id, alone) =>
      !Live(s.proc) && (alone.CommandAlone? ==> id in c.commands && CommandOutcome(alone.o))
  }

  function PutOutput(d: Disk, f: WriteFault, id: string, o: Outcome): Disk {
    d.(outputs := After(f, d.outputs, d.outputs[id := Persisted(id, o)]))
  }

  function PutMarker(d: Disk, f: WriteFault, key: Key): Disk {
    d.(markers := After(f, d.markers, d.markers + {key}))
  }

  function AloneDisk(d: Disk, key: Key, alone: AloneRun): Disk {
    match alone
    case Silent => d
    case OutputAlone(o, f) => PutOutput(d, f, key.id, o)
    case CommandAlone(o, f, g) =>
      var written := PutOutput(d, f, key.id, o);
      if f.Clean? then PutMarker(written, g, key) else written
  }

  /** The hub has answered `w` and the loop decides whether to go on. */
  function Advanced(s: State, w: Workflow, context: Option<string>, e: Event): State {
    State(s.disk.(workflow := w),
          s.mem.(workflow := w, idx := w.current, reworkContext := context),
          if w.status in {Failed, Escalated, Cancelled} then Done else AtLoop,
          s.log + [e])
  }

  /** The hub has answered `w` and the loop ends. */
  function Stopped(s: State, w: Workflow): State {
    s.(disk := s.disk.(workflow := w), mem := s.mem.(workflow := w), proc := Done)
  }

  /** What the gate lets through for `o`, and whether it charged a rework. */
  function GateOutcome(c: Config, id: string, o: Outcome, used: nat, results: seq<CheckResult>, detail: string)
    : (Outcome, bool)
  {
    if EvalAdvancing(o) && HasEvals(c, id) then
      match DecideGate(c.evals[id], FromResults(results), used)
      case Pass => (o, false)
      case GateRework => (ForceRework(o, id, "eval gate rework: " + detail), true)
      case GateBlock => (ManualPending("eval gate blocked phase '" + id + "': " + detail, true), false)
    else (o, false)
  }

  /** The eval gate applied to the outcome of the phase `id`. */
  function GateState(c: Config, s: State, id: string, results: seq<CheckResult>, detail: string): State
    requires s.proc.Ran?
  {
    var (o, charged) := GateOutcome(c, id, s.proc.o, Used(s.mem, id), results, detail);
    if charged then
      s.(mem := s.mem.(evalReworks := s.mem.evalReworks[id := Used(s.mem, id) + 1]),
         proc := Gated(o),
         log := s.log + [Reworked(id)])
    else s.(proc := Gated(o))
  }

  ghost function Do(c: Config, hub: Hub, s: State, a: Action): State
    requires Enabled(c, s, a)
  {
    match a
    case Start =>
      State(s.disk, Memory(s.disk.workflow, s.disk.workflow.current, None, map[]), AtLoop, s.log + [Started])
    case Exit => s.(proc := Done)
    case Replay =>
      var key := CurrentKey(s.mem);
      var d := ReadDecision(FileOf(s.disk, key.id)).value;
      Advanced(s, hub.complete(s.disk.workflow, Some(d)), s.mem.reworkContext, Applied(key, Some(d), true))
    case Block => Stopped(s, hub.fail(s.disk.workflow))
    case Begin =>
      s.(proc := InFlight, mem := s.mem.(reworkContext := None),
         log := s.log + [Began(CurrentKey(s.mem), s.mem.reworkContext)])
    case Finish(o) => s.(proc := Ran(o))
    case FinishErr => s.(proc := RunFailed)
    case CommandOutput(o, f) =>
      var key := CurrentKey(s.mem);
      State(PutOutput(s.disk, f, key.id, o), s.mem, if f.Clean? then EarlyOutput(o) else RunFailed,
            if Lands(f) then s.log + [Wrote(key, o)] else s.log)
    case CommandMarker(f) =>
      s.(disk := PutMarker(s.disk, f, CurrentKey(s.mem)), proc := if f.Clean? then Ran(s.proc.o) else RunFailed)
    case Evaluate(results, detail) => GateState(c, s, CurrentKey(s.mem).id, results, detail)
    case WriteOutput(f) =>
      var key := CurrentKey(s.mem);
      State(PutOutput(s.disk, f, key.id, s.proc.o), s.mem, if f.Clean? then OutputWritten(s.proc.o) else PersistFailed,
            if Lands(f) then s.log + [Wrote(key, s.proc.o)] else s.log)
    case WriteMarker(f) =>
      s.(disk := PutMarker(s.disk, f, CurrentKey(s.mem)),
         proc := if f.Clean? then MarkerWritten(s.proc.o) else PersistFailed)
    case Apply =>
      Advanced(s, hub.complete(s.disk.workflow, s.proc.o.decision), ReworkContext(s.proc.o),
               Applied(CurrentKey(s.mem), s.proc.o.decision, false))
    case Pause => Stopped(s, hub.pause(s.disk.workflow))
    case FailPersist => Stopped(s, hub.fail(s.disk.workflow))
    case FailRun => Stopped(s, hub.fail(s.disk.workflow))
    case Crash => s.(proc := Down, mem := BLANK)
    case External(w) => s.(disk := s.disk.(workflow := w))
    case SinglePhase(id, alone) =>
      var key := AloneKey(s.disk.workflow, id);
      s.(disk := AloneDisk(s.disk, key, alone), log := s.log + [RanAlone(key)])
  }

  // ---- runs ----

  ghost predicate Possible(c: Config, hub: Hub, s: State, run: seq<Action>)
    decreases |run|
  {
    run == [] || (Enabled(c, s, run[0]) && Possible(c, hub, Do(c, hub, s, run[0]), run[1..]))
  }

  ghost function EndOf(c: Config, hub: Hub, s: State, run: seq<Action>): State
    requires Possible(c, hub, s, run)
    decreases |run|
  {
    if run == [] then s else EndOf(c, hub, Do(c, hub, s, run[0]), run[1..])
  }

  /** No marker yet; output files left by single-phase runs may exist. */
  ghost predicate Initial(s: State) {
    && s.proc.Down? && s.log == [] && s.disk.markers == {}
    && DistinctIds(s.disk.workflow)
    && (LoopRuns(s.disk.workflow) ==> !s.disk.workflow.phases[s.disk.workflow.current].settled)
  }

  /** Full-workflow runs: no ad hoc single-phase run in between. */
  predicate FullWorkflow(run: seq<Action>) {
    forall i :: 0 <= i < |run| ==> !run[i].SinglePhase?
  }
}
