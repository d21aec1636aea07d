/**
 What the outside does to a process, step by step: its death, the answers of
 phases and checks, the writes that fail. A schedule leaves a live process no
 choice, and an undisturbed one brings it to the end of the crash-free execution.
 */
module WorkflowSchedule {
  import opened Common
  import opened DurableWrite
  import opened PhaseOutput
  import opened PhaseEvals
  import opened CrashReplay
  import opened CrashInvariants
  import opened CrashTheorems
  import opened CrashRefinement

  /** Answers by the number of the step; `fails` says that a command fails rather than succeeds. */
  datatype Schedule = Schedule(
    dies: nat -> bool,
    answer: (nat, Key) -> Answer,
    fails: nat -> bool,
    fault: nat -> WriteFault,
    passes: (nat, string) -> bool,
    detail: nat -> string)

  /** The results of the declared checks at step `i`. */
  function Results(world: Schedule, i: nat, checks: seq<string>): (r: seq<CheckResult>)
    ensures |r| == |checks| && forall j :: 0 <= j < |r| ==> r[j] == CheckResult(checks[j], world.passes(i, checks[j]))
  {
    seq(|checks|, j requires 0 <= j < |checks| => CheckResult(checks[j], world.passes(i, checks[j])))
  }

  /** Does the phase persist the outcome itself? */
  predicate PersistsEarly(c: Config, world: Schedule, i: nat, id: string, o: Outcome) {
    id in c.commands && CommandOutcome(o) && world.fails(i)
  }

  /** The action is what the schedule says for step `i`. */
  predicate Scheduled(c: Config, world: Schedule, s: State, i: nat, a: Action) {
    && (Live(s.proc) ==> (a.Crash? <==> world.dies(i)))
    && match a
       case Finish(o) =>
         MemRuns(s.mem) && world.answer(i, CurrentKey(s.mem)) == Produces(o)
         && !PersistsEarly(c, world, i, CurrentKey(s.mem).id, o)
       case FinishErr => MemRuns(s.mem) && world.answer(i, CurrentKey(s.mem)) == Errs
       case CommandOutput(o, f) =>
         MemRuns(s.mem) && world.answer(i, CurrentKey(s.mem)) == Produces(o)
         && PersistsEarly(c, world, i, CurrentKey(s.mem).id, o) && f == world.fault(i)
       case CommandMarker(f) => f == world.fault(i)
       case WriteOutput(f) => f == world.fault(i)
       case WriteMarker(f) => f == world.fault(i)
       case Evaluate(results, detail) =>
         s.proc.Ran? && MemRuns(s.mem)
         && (if EvalAdvancing(s.proc.o) && HasEvals(c, CurrentKey(s.mem).id)
             then results == Results(world, i, c.evals[CurrentKey(s.mem).id].checks) && detail == world.detail(i)
             else results == [] && detail == "")
       case External(_) => false
       case SinglePhase(_, _) => false
       case _ => true
  }

  /** Every action of the run, whose first step is number `i`, is the scheduled one. */
  ghost predicate Obeyed(c: Config, hub: Hub, world: Schedule, s: State, run: seq<Action>, i: nat)
    requires Possible(c, hub, s, run)
    decreases |run|
  {
    run != [] ==>
      Scheduled(c, world, s, i, run[0]) && Obeyed(c, hub, world, Do(c, hub, s, run[0]), run[1..], i + 1)
  }

  lemma {:induction false} ObeyedAppend(
    c: Config, hub: Hub, world: Schedule, s: State, run: seq<Action>, i: nat, a: Action)
    requires Possible(c, hub, s, run) && Obeyed(c, hub, world, s, run, i)
    requires Enabled(c, EndOf(c, hub, s, run), a) && Scheduled(c, world, EndOf(c, hub, s, run), i + |run|, a)
    ensures Possible(c, hub, s, run + [a]) && Obeyed(c, hub, world, s, run + [a], i)
    ensures EndOf(c, hub, s, run + [a]) == Do(c, hub, EndOf(c, hub, s, run), a)
    decreases |run|
  {
    Append(c, hub, s, run, a);
    if run == [] {
      assert (run + [a])[1..] == [];
    } else {
      ObeyedAppend(c, hub, world, Do(c, hub, s, run[0]), run[1..], i + 1, a);
      assert (run + [a])[1..] == run[1..] + [a];
    }
  }

  /** A run in two parts. */
  lemma {:induction false} Split(
    c: Config, hub: Hub, world: Schedule, s: State, run: seq<Action>, i: nat, before: seq<Action>)
    requires Possible(c, hub, s, run) && Obeyed(c, hub, world, s, run, i) && before <= run
    ensures Possible(c, hub, s, before)
    ensures var mid, call := EndOf(c, hub, s, before), run[|before|..];
            && Possible(c, hub, mid, call) && Obeyed(c, hub, world, mid, call, i + |before|)
            && EndOf(c, hub, mid, call) == EndOf(c, hub, s, run)
    decreases |before|
  {
    if before != [] {
      assert before[0] == run[0] && before[1..] <= run[1..];
      Split(c, hub, world, Do(c, hub, s, run[0]), run[1..], i + 1, before[1..]);
      assert run[1..][|before[1..]|..] == run[|before|..];
    } else {
      assert run[0..] == run;
    }
  }

  // ---- no choice is left ----

  /** What a live process does next is determined by its state and the schedule. */
  lemma StepForced(c: Config, world: Schedule, s: State, i: nat, a: Action, b: Action)
    requires Live(s.proc)
    requires Enabled(c, s, a) && Scheduled(c, world, s, i, a)
    requires Enabled(c, s, b) && Scheduled(c, world, s, i, b)
    ensures a == b
  {
  }

  predicate NoStart(run: seq<Action>) {
    forall i :: 0 <= i < |run| ==> !run[i].Start?
  }

  lemma {:induction false} CourseForced(
    c: Config, hub: Hub, world: Schedule, s: State, i: nat, run1: seq<Action>, run2: seq<Action>)
    requires Possible(c, hub, s, run1) && Obeyed(c, hub, world, s, run1, i) && NoStart(run1)
    requires Possible(c, hub, s, run2) && Obeyed(c, hub, world, s, run2, i) && NoStart(run2)
    requires !Live(EndOf(c, hub, s, run1).proc) && !Live(EndOf(c, hub, s, run2).proc)
    ensures run1 == run2
    decreases |run1|
  {
    if Live(s.proc) {
      StepForced(c, world, s, i, run1[0], run2[0]);
      CourseForced(c, hub, world, Do(c, hub, s, run1[0]), i + 1, run1[1..], run2[1..]);
      assert run1 == [run1[0]] + run1[1..] && run2 == [run2[0]] + run2[1..];
    }
  }

  /** One call: it starts, and goes on without another start until the process is over. */
  ghost predicate Call(c: Config, hub: Hub, world: Schedule, s: State, call: seq<Action>, i: nat) {
    && !Live(s.proc) && call != [] && call[0].Start? && NoStart(call[1..])
    && Possible(c, hub, s, call) && Obeyed(c, hub, world, s, call, i)
    && !Live(EndOf(c, hub, s, call).proc)
  }

  /** A schedule determines the whole call: every action, and so what it leaves behind. */
  lemma CallForced(
    c: Config, hub: Hub, world: Schedule, s: State, i: nat, call1: seq<Action>, call2: seq<Action>)
    requires Call(c, hub, world, s, call1, i) && Call(c, hub, world, s, call2, i)
    ensures call1 == call2
  {
    CourseForced(c, hub, world, Do(c, hub, s, Start), i + 1, call1[1..], call2[1..]);
    assert call1 == [Start] + call1[1..] && call2 == [Start] + call2[1..];
  }

  // ---- an undisturbed call ----

  /** From step `i` on, for `n` steps, the process lives and its writes succeed; phases answer as the oracle. */
  ghost predicate Undisturbed(world: Schedule, oracle: Oracle, i: nat, n: int) {
    && (forall k, key :: world.answer(k, key) == oracle(key))
    && forall k: nat :: i <= k < i + n ==> !world.dies(k) && world.fault(k).Clean?
  }

  /** How far the phase has come. */
  function Rank(p: Process): (n: nat)
    ensures n <= 8
  {
    match p
    case AtLoop => 0
    case InFlight => 1
    case EarlyOutput(_) => 2
    case Ran(_) => 3
    case Gated(_) => 4
    case OutputWritten(_) => 5
    case MarkerWritten(_) => 6
    case PersistFailed => 7
    case RunFailed => 7
    case Done => 8
    case Down => 8
  }

  predicate EndsTurn(a: Action) {
    a.Replay? || a.Block? || a.Apply? || a.Pause? || a.FailPersist? || a.FailRun?
  }

  /** An action that ends a turn is one step of the crash-free execution. */
  lemma TurnAdvances(c: Config, hub: Hub, s: State, a: Action, oracle: Oracle)
    requires Faithful(hub, oracle) && NoEvals(c)
    requires Sync(s) && MarkersAttest(s) && Stage(s) && OnOracle(s, oracle)
    requires Enabled(c, s, a) && Follows(s, a, oracle) && EndsTurn(a)
    ensures Runnable(s.disk.workflow)
    ensures ProgressOf(Do(c, hub, s, a)) == CrashRefinement.Advance(hub, oracle, ProgressOf(s))
  {
    var s' := Do(c, hub, s, a);
    if s'.log != s.log { AppliedGrows(s.log, s'.log[|s.log|]); }
    AnswersDecide(c, hub, s, a, oracle);
    CurrentKeyIs(s);
  }

  predicate WritesCleanly(a: Action) {
    a.CommandOutput? || a.CommandMarker? || a.WriteOutput? || a.WriteMarker? ==> a.fault.Clean?
  }

  /** Any other action of a live process brings the phase further. */
  lemma StepRises(c: Config, hub: Hub, s: State, a: Action)
    requires Live(s.proc) && Enabled(c, s, a) && !EndsTurn(a) && !a.Crash? && WritesCleanly(a)
    ensures Rank(Do(c, hub, s, a).proc) > Rank(s.proc)
  {
  }

  lemma StepStays(c: Config, hub: Hub, s: State, a: Action)
    requires Live(s.proc) && Enabled(c, s, a) && !EndsTurn(a) && !a.Crash?
    ensures ProgressOf(Do(c, hub, s, a)) == ProgressOf(s)
  {
    var e := Logged(c, hub, s, a);
    if e.Some? { AppliedGrows(s.log, e.value); }
  }

  lemma ScheduledFollows(c: Config, world: Schedule, s: State, i: nat, a: Action, oracle: Oracle)
    requires Live(s.proc) && Enabled(c, s, a) && Scheduled(c, world, s, i, a) && Undisturbed(world, oracle, i, 1)
    ensures !a.Crash? && Follows(s, a, oracle) && WritesCleanly(a)
  {
  }

  /** At most eight steps to a turn. */
  function StepsLeft(p: Process, n: nat, m: nat): int {
    8 * (m - n) + 9 - Rank(p)
  }

  /** Where a live process stands on the crash-free execution, with `m` steps of it enough. */
  ghost predicate OnCourse(
    c: Config, hub: Hub, s: State, oracle: Oracle, w: Workflow, n: nat, m: nat)
  {
    && Inv(c, s) && OnOracle(s, oracle) && !s.proc.Down? && n <= m
    && ProgressOf(s) == Iterate(hub, oracle, w, n)
  }

  lemma KeepsCourse(
    c: Config, hub: Hub, world: Schedule, s: State, i: nat, a: Action, oracle: Oracle)
    requires Faithful(hub, oracle) && NoEvals(c) && Inv(c, s) && OnOracle(s, oracle) && Live(s.proc)
    requires Enabled(c, s, a) && Scheduled(c, world, s, i, a) && Undisturbed(world, oracle, i, 1)
    ensures Inv(c, Do(c, hub, s, a)) && OnOracle(Do(c, hub, s, a), oracle)
    ensures Follows(s, a, oracle) && !a.Crash? && WritesCleanly(a)
  {
    ScheduledFollows(c, world, s, i, a, oracle);
    StepSimulates(c, hub, s, a, oracle);
    InvKept(c, hub, s, a);
  }

  lemma OneStep(
    c: Config, hub: Hub, world: Schedule, s: State, i: nat, a: Action, oracle: Oracle, w: Workflow, n: nat, m: nat)
    returns (n': nat)
    requires Faithful(hub, oracle) && NoEvals(c) && OnCourse(c, hub, s, oracle, w, n, m) && Live(s.proc)
    requires !Runnable(Iterate(hub, oracle, w, m).workflow)
    requires Enabled(c, s, a) && Scheduled(c, world, s, i, a) && Undisturbed(world, oracle, i, 1)
    ensures OnCourse(c, hub, Do(c, hub, s, a), oracle, w, n', m)
    ensures StepsLeft(Do(c, hub, s, a).proc, n', m) < StepsLeft(s.proc, n, m)
  {
    KeepsCourse(c, hub, world, s, i, a, oracle);
    if EndsTurn(a) {
      n' := n + 1;
      OneTurn(c, hub, s, a, oracle, w, n, m);
    } else {
      n' := n;
      StepRises(c, hub, s, a);
      StepStays(c, hub, s, a);
    }
  }

  lemma OneTurn(c: Config, hub: Hub, s: State, a: Action, oracle: Oracle, w: Workflow, n: nat, m: nat)
    requires Faithful(hub, oracle) && NoEvals(c) && OnCourse(c, hub, s, oracle, w, n, m) && Live(s.proc)
    requires !Runnable(Iterate(hub, oracle, w, m).workflow)
    requires Enabled(c, s, a) && Follows(s, a, oracle) && EndsTurn(a)
    ensures n < m && ProgressOf(Do(c, hub, s, a)) == Iterate(hub, oracle, w, n + 1)
    ensures Rank(s.proc) <= 7 && !Do(c, hub, s, a).proc.Down?
  {
    TurnAdvances(c, hub, s, a, oracle);
    RankOfTurn(c, hub, s, a);
    assert n != m;
  }

  lemma RankOfTurn(c: Config, hub: Hub, s: State, a: Action)
    requires Live(s.proc) && Enabled(c, s, a) && EndsTurn(a)
    ensures Rank(s.proc) <= 7 && !Do(c, hub, s, a).proc.Down?
  {
  }

  lemma {:induction false} CourseFinishes(
    c: Config, hub: Hub, world: Schedule, s: State, run: seq<Action>, i: nat, oracle: Oracle, w: Workflow,
    n: nat, m: nat)
    requires Faithful(hub, oracle) && NoEvals(c) && OnCourse(c, hub, s, oracle, w, n, m)
    requires !Runnable(Iterate(hub, oracle, w, m).workflow)
    requires Possible(c, hub, s, run) && Obeyed(c, hub, world, s, run, i) && NoStart(run)
    requires !Live(EndOf(c, hub, s, run).proc)
    requires Undisturbed(world, oracle, i, StepsLeft(s.proc, n, m))
    ensures EndOf(c, hub, s, run).proc.Done?
    ensures ProgressOf(EndOf(c, hub, s, run)) == Iterate(hub, oracle, w, m)
    decreases |run|
  {
    if !Live(s.proc) {
      IterateStops(hub, oracle, w, n, m);
      assert run == [];
    } else {
      var n' := OneStep(c, hub, world, s, i, run[0], oracle, w, n, m);
      CourseFinishes(c, hub, world, Do(c, hub, s, run[0]), run[1..], i + 1, oracle, w, n', m);
    }
  }

  /**
   A call on a runnable workflow that is undisturbed for long enough returns,
   and leaves the workflow and the applied verdicts that end the crash-free
   execution. Eight steps for each of its phases, and ten more, are enough.
   */
  lemma CallFinishes(
    c: Config, hub: Hub, world: Schedule, s: State, call: seq<Action>, i: nat, oracle: Oracle, w: Workflow,
    n: nat, m: nat)
    requires Faithful(hub, oracle) && NoEvals(c) && Inv(c, s) && OnOracle(s, oracle)
    requires ProgressOf(s) == Iterate(hub, oracle, w, n)
    requires n <= m && !Runnable(Iterate(hub, oracle, w, m).workflow)
    requires Call(c, hub, world, s, call, i) && Undisturbed(world, oracle, i, 8 * (m - n) + 10)
    ensures EndOf(c, hub, s, call).proc.Done?
    ensures ProgressOf(EndOf(c, hub, s, call)) == Iterate(hub, oracle, w, m)
  {
    var s' := Do(c, hub, s, Start);
    assert call[0] == Start;
    StepSimulates(c, hub, s, Start, oracle);
    AppliedGrows(s.log, Started);
    InvKept(c, hub, s, Start);
    assert OnCourse(c, hub, s', oracle, w, n, m);
    CourseFinishes(c, hub, world, s', call[1..], i + 1, oracle, w, n, m);
  }

  /** In particular the first call on a workflow. */
  lemma FirstCallFinishes(
    c: Config, hub: Hub, world: Schedule, s0: State, call: seq<Action>, oracle: Oracle, m: nat)
    requires Faithful(hub, oracle) && NoEvals(c) && Initial(s0)
    requires Call(c, hub, world, s0, call, 0) && Undisturbed(world, oracle, 0, 8 * m + 10)
    requires !Runnable(Iterate(hub, oracle, s0.disk.workflow, m).workflow)
    ensures var s := EndOf(c, hub, s0, call);
            s.proc.Done? && ProgressOf(s) == Iterate(hub, oracle, s0.disk.workflow, m)
  {
    InitialInv(c, s0);
    CallFinishes(c, hub, world, s0, call, 0, oracle, s0.disk.workflow, 0, m);
  }
}
