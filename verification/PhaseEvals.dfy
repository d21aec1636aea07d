/**
 The per-phase eval gate: aggregation of check results, the gate decision and
 the forced rework. Pass rates and thresholds are reals.
 */
module PhaseEvals {
  import opened Common
  import opened PhaseOutput

  datatype CheckResult = CheckResult(id: string, passed: bool)

  datatype OnFail = ReworkPhase | BlockPhase

  datatype EvalsConfig = EvalsConfig(checks: seq<string>, passThreshold: real, onFail: OnFail, maxReworks: nat)

  datatype EvalReport = EvalReport(passed: nat, total: nat, passRate: real)

  datatype Gate = Pass | GateRework | GateBlock

  function CountPassed(results: seq<CheckResult>): (n: nat)
    ensures n <= |results|
  {
    if results == [] then 0
    else (if results[0].passed then 1 else 0) + CountPassed(results[1..])
  }

  function FromResults(results: seq<CheckResult>): EvalReport {
    var total := |results|;
    var passed := CountPassed(results);
    EvalReport(passed, total, if total == 0 then 1.0 else passed as real / total as real)
  }

  function DecideGate(evals: EvalsConfig, report: EvalReport, used: nat): Gate {
    if report.passRate >= evals.passThreshold then Pass
    else match evals.onFail
         case ReworkPhase => if used < evals.maxReworks then GateRework else GateBlock
         case BlockPhase => GateBlock
  }

  /** Only advancing (or undecided) outcomes are put to the checks. */
  predicate EvalAdvancing(o: Outcome) {
    o.Completed? && DecidedVerdict(o.decision) in {Advance, Unknown}
  }

  function ForceRework(o: Outcome, phaseId: string, reason: string): Outcome {
    match o
    case Completed(commit, Some(d), payload) =>
      Completed(commit, Some(d.(verdict := Rework, reason := reason, targetPhase := None)), payload)
    case Completed(commit, None, payload) =>
      Completed(commit,
                Some(Decision("phase_decision", phaseId, Rework, 1.0, Medium, reason,
                              [Evidence("custom", "eval gate verdict", None)], [], None, None)),
                payload)
    case ManualPending(_, _) => o
  }

  /** A forced rework keeps commit message and payload, and of a decision all but verdict, reason and target. */
  lemma ForcedReworkKeeps(o: Outcome, phaseId: string, reason: string)
    requires o.Completed?
    ensures var f := ForceRework(o, phaseId, reason);
            && f.Completed? && f.commitMessage == o.commitMessage && f.payload == o.payload
            && f.decision.Some? && f.decision.value.verdict == Rework && f.decision.value.reason == reason
            && f.decision.value.targetPhase == None
            && (o.decision.Some? ==>
                  f.decision.value.(verdict := o.decision.value.verdict, reason := o.decision.value.reason,
                                    targetPhase := o.decision.value.targetPhase) == o.decision.value)
  {
  }

  /** A failing set of check results exists. */
  predicate Missable(evals: EvalsConfig) {
    evals.checks != [] && evals.passThreshold > 0.0
  }

  /** One result per declared check, in order. */
  predicate Answers(evals: EvalsConfig, results: seq<CheckResult>) {
    |results| == |evals.checks| && forall i :: 0 <= i < |results| ==> results[i].id == evals.checks[i]
  }

  function AllFailed(checks: seq<string>): (r: seq<CheckResult>)
    ensures |r| == |checks| && forall i :: 0 <= i < |r| ==> r[i] == CheckResult(checks[i], false)
  {
    seq(|checks|, i requires 0 <= i < |checks| => CheckResult(checks[i], false))
  }

  lemma {:induction false} NonePassed(results: seq<CheckResult>)
    requires forall i :: 0 <= i < |results| ==> !results[i].passed
    ensures CountPassed(results) == 0
  {
    if results != [] { NonePassed(results[1..]); }
  }

  /**
   The gate can stop a phase exactly when the configuration declares a check
   and asks for a positive pass rate.
   */
  lemma GateCanMissIff(evals: EvalsConfig, used: nat)
    requires evals.checks != []
    ensures Missable(evals) <==>
            exists results :: Answers(evals, results) && DecideGate(evals, FromResults(results), used) != Pass
  {
    var worst := AllFailed(evals.checks);
    NonePassed(worst);
    assert Answers(evals, worst);
    if Missable(evals) {
      assert DecideGate(evals, FromResults(worst), used) != Pass;
    }
    forall results | Answers(evals, results)
      ensures FromResults(results).passRate >= 0.0
    {
      var passed, total := CountPassed(results) as real, |results| as real;
      assert passed / total >= 0.0;
    }
  }

  lemma MulMonotone(a: real, b: real, t: real)
    requires t > 0.0
    ensures a >= b <==> a * t >= b * t
  {
    var d := a - b;
    assert a * t - b * t == d * t;
  }

  lemma RateAtLeast(passed: real, total: real, threshold: real)
    requires total > 0.0
    ensures passed / total >= threshold <==> passed >= threshold * total
  {
    var rate := passed / total;
    assert rate * total == passed;
    MulMonotone(rate, threshold, total);
  }

  /**
   The gate's three answers, told apart by the pass rate and the rework
   budget: the budget is never exceeded, and a miss without budget blocks.
   */
  lemma {:induction false} GateRespectsBudget(evals: EvalsConfig, results: seq<CheckResult>, used: nat)
    requires Answers(evals, results) && evals.checks != []
    ensures var g := DecideGate(evals, FromResults(results), used);
            && (g == Pass <==> CountPassed(results) as real >= evals.passThreshold * |results| as real)
            && (g == GateRework ==> used + 1 <= evals.maxReworks)
            && (g != Pass && used >= evals.maxReworks ==> g == GateBlock)
  {
    RateAtLeast(CountPassed(results) as real, |results| as real, evals.passThreshold);
  }
}
