/**
 The manual gate and completion markers: exactly when no attempt that waits for
 a human has a marker. The runs that break it go through the whole rework budget.
 */
module CrashGate {
  import opened Common
  import opened DurableWrite
  import opened PhaseOutput
  import opened PhaseEvals
  import opened CrashReplay
  import opened CrashInvariants
  import opened CrashTheorems
  import opened CrashRefinement

  /** An attempt waiting at the manual gate has no marker. */
  predicate PendingUnmarked(s: State) {
    s.proc.Gated? && s.proc.o.ManualPending? && MemRuns(s.mem) ==> CurrentKey(s.mem) !in s.disk.markers
  }

  ghost predicate PendingUnmarkedAlways(c: Config) {
    forall hub, s0, run ::
      HubOk(hub) && Initial(s0) && Possible(c, hub, s0, run) && FullWorkflow(run) ==>
        PendingUnmarked(EndOf(c, hub, s0, run))
  }

  // ---- a hub that gives a phase another attempt when it is asked to ----

  function Again(w: Workflow): Workflow {
    if w.current < |w.phases| then
      w.(phases := w.phases[w.current := w.phases[w.current].(attempt := w.phases[w.current].attempt + 1)])
    else w
  }

  function Answer(w: Workflow, d: Option<Decision>): Workflow {
    if d.Some? && d.value.verdict.Rework? then Again(w) else NextPhase(w)
  }

  const REWORKING := Hub((w: Workflow, d: Option<Decision>) => Answer(w, d),
                         (w: Workflow) => w.(status := Failed),
                         (w: Workflow) => w.(status := Paused))

  lemma AgainAnswers(w: Workflow)
    requires Pending(w)
    ensures Completes(w, Again(w))
  {
    var w' := Again(w);
    FindAt(w.phases, w.current);
    FindAt(w'.phases, w.current);
    forall id | Find(w.phases, id).Some?
      ensures Find(w'.phases, id).Some? && Later(Find(w.phases, id).value, Find(w'.phases, id).value)
    {
      var i :| 0 <= i < |w.phases| && w.phases[i].id == id;
      FindAt(w.phases, i);
      FindAt(w'.phases, i);
    }
  }

  lemma ReworkingHubOk()
    ensures HubOk(REWORKING)
  {
    forall w: Workflow, d: Option<Decision>
      ensures HubAnswers(REWORKING, w, d)
    {
      if Pending(w) {
        AgainAnswers(w);
        InOrderAnswers(w);
      }
    }
  }

  /** A hub that answers verdicts differently meets the hypotheses of the refinement too. */
  lemma ReworkingFaithful(oracle: Oracle)
    requires forall key :: ReplayableAnswer(oracle, key)
    ensures Faithful(REWORKING, oracle)
  {
    ReworkingHubOk();
    VerdictHubsAreFaithful(REWORKING, oracle);
  }

  // ---- a run through the rework budget ----

  /** The loop is about to begin attempt `n` of the only phase, after `n` eval-forced reworks. */
  predicate AtAttempt(s: State, id: string, n: nat) {
    && s.proc.AtLoop? && s.disk.workflow == OneAttempt(id, n) && s.mem.workflow == OneAttempt(id, n)
    && s.mem.idx == 0 && Used(s.mem, id) == n && forall k :: k in s.disk.markers ==> k.attempt < n
  }

  /** The command of attempt `n` has failed, is marked, and stands at the gate. */
  predicate AtGate(s: State, id: string, n: nat) {
    && s.proc == Ran(AdvancedOnFailure(id)) && s.disk.workflow == OneAttempt(id, n)
    && s.mem.workflow == OneAttempt(id, n) && s.mem.idx == 0 && Used(s.mem, id) == n
    && Key(id, n) in s.disk.markers && forall k :: k in s.disk.markers ==> k.attempt <= n
  }

  predicate Fails(c: Config, id: string, results: seq<CheckResult>) {
    && id in c.commands && HasEvals(c, id) && Answers(c.evals[id], results)
    && FromResults(results).passRate < c.evals[id].passThreshold
  }

  lemma BeginAttempt(c: Config, id: string, n: nat, run: seq<Action>) returns (run': seq<Action>)
    requires id in c.commands && Possible(c, REWORKING, OnePhase(id, 0), run) && FullWorkflow(run)
    requires AtAttempt(EndOf(c, REWORKING, OnePhase(id, 0), run), id, n)
    ensures Possible(c, REWORKING, OnePhase(id, 0), run') && FullWorkflow(run')
    ensures AtGate(EndOf(c, REWORKING, OnePhase(id, 0), run'), id, n)
  {
    var s0 := OnePhase(id, 0);
    run' := Then(c, REWORKING, s0, run, Begin);
    run' := Then(c, REWORKING, s0, run', CommandOutput(AdvancedOnFailure(id), Clean));
    run' := Then(c, REWORKING, s0, run', CommandMarker(Clean));
  }

  /** The gate has turned attempt `n` into a rework. */
  predicate Reworking(s: State, id: string, n: nat) {
    && s.proc.Gated? && s.proc.o.Completed? && s.proc.o.decision.Some? && s.proc.o.decision.value.verdict.Rework?
    && s.disk.workflow == OneAttempt(id, n) && s.mem.workflow == OneAttempt(id, n) && s.mem.idx == 0
    && Used(s.mem, id) == n + 1 && forall k :: k in s.disk.markers ==> k.attempt <= n
  }

  lemma GateReworks(c: Config, id: string, n: nat, results: seq<CheckResult>, run: seq<Action>)
    returns (run': seq<Action>)
    requires Fails(c, id, results) && Possible(c, REWORKING, OnePhase(id, 0), run) && FullWorkflow(run)
    requires AtGate(EndOf(c, REWORKING, OnePhase(id, 0), run), id, n)
    requires c.evals[id].onFail == ReworkPhase && n < c.evals[id].maxReworks
    ensures Possible(c, REWORKING, OnePhase(id, 0), run') && FullWorkflow(run')
    ensures Reworking(EndOf(c, REWORKING, OnePhase(id, 0), run'), id, n)
  {
    run' := Then(c, REWORKING, OnePhase(id, 0), run, Evaluate(results, ""));
  }

  lemma PersistAndRework(c: Config, id: string, n: nat, run: seq<Action>) returns (run': seq<Action>)
    requires Possible(c, REWORKING, OnePhase(id, 0), run) && FullWorkflow(run)
    requires Reworking(EndOf(c, REWORKING, OnePhase(id, 0), run), id, n)
    ensures Possible(c, REWORKING, OnePhase(id, 0), run') && FullWorkflow(run')
    ensures AtAttempt(EndOf(c, REWORKING, OnePhase(id, 0), run'), id, n + 1)
  {
    var s0 := OnePhase(id, 0);
    run' := Then(c, REWORKING, s0, run, WriteOutput(Clean));
    run' := Then(c, REWORKING, s0, run', WriteMarker(Clean));
    run' := Then(c, REWORKING, s0, run', Apply);
  }

  /** After `n` misses within the budget the loop stands at attempt `n`. */
  lemma {:induction false} AfterReworks(c: Config, id: string, n: nat, results: seq<CheckResult>)
    returns (run: seq<Action>)
    requires Fails(c, id, results)
    requires n == 0 || (c.evals[id].onFail == ReworkPhase && n <= c.evals[id].maxReworks)
    ensures Possible(c, REWORKING, OnePhase(id, 0), run) && FullWorkflow(run)
    ensures AtAttempt(EndOf(c, REWORKING, OnePhase(id, 0), run), id, n)
  {
    if n == 0 {
      run := Then(c, REWORKING, OnePhase(id, 0), [], Start);
    } else {
      run := AfterReworks(c, id, n - 1, results);
      run := BeginAttempt(c, id, n - 1, run);
      run := GateReworks(c, id, n - 1, results, run);
      run := PersistAndRework(c, id, n - 1, run);
    }
  }

  /** One more miss stops the marked attempt for a human. */
  lemma BlockedRun(c: Config, id: string, results: seq<CheckResult>) returns (run: seq<Action>)
    requires Fails(c, id, results)
    ensures Possible(c, REWORKING, OnePhase(id, 0), run) && FullWorkflow(run)
    ensures !PendingUnmarked(EndOf(c, REWORKING, OnePhase(id, 0), run))
  {
    var n := if c.evals[id].onFail == ReworkPhase then c.evals[id].maxReworks else 0;
    run := AfterReworks(c, id, n, results);
    run := BeginAttempt(c, id, n, run);
    run := Then(c, REWORKING, OnePhase(id, 0), run, Evaluate(results, ""));
  }

  /**
   No attempt waiting at the manual gate ever has a marker, over all hubs and
   full-workflow runs, if and only if no command phase declares checks that can
   miss.
   */
  lemma PendingUnmarkedIff(c: Config)
    ensures PendingUnmarkedAlways(c) <==> NoGatedCommand(c)
  {
    if NoGatedCommand(c) {
      forall hub, s0, run |
        HubOk(hub) && Initial(s0) && Possible(c, hub, s0, run) && FullWorkflow(run)
        ensures PendingUnmarked(EndOf(c, hub, s0, run))
      {
        ManualPendingNeverMarked(c, hub, s0, run);
      }
    } else {
      var id :| id in c.commands && HasEvals(c, id) && Missable(c.evals[id]);
      var results := AllFailed(c.evals[id].checks);
      NonePassed(results);
      var run := BlockedRun(c, id, results);
      ReworkingHubOk();
      assert Initial(OnePhase(id, 0));
    }
  }
}
