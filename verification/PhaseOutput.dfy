/**
 Phase outcomes, the output file written for a phase, and the decision that
 crash recovery reads back from it.
 */
module PhaseOutput {
  import opened Common
  import opened Json
  import opened TextLines

  datatype Verdict = Advance | Rework | Fail | Skip | Unknown

  datatype Risk = Low | Medium | High

  datatype Evidence = Evidence(kind: string, description: string, filePath: Option<string>)

  datatype Decision = Decision(
    kind: string,
    phaseId: string,
    verdict: Verdict,
    confidence: real,
    risk: Risk,
    reason: string,
    evidence: seq<Evidence>,
    guardrailViolations: seq<string>,
    commitMessage: Option<string>,
    targetPhase: Option<string>)

  datatype Outcome =
    | Completed(commitMessage: Option<string>, decision: Option<Decision>, payload: Option<Json>)
    | ManualPending(instructions: string, approvalNoteRequired: bool)

  /** What `<phase>.json` holds; the completion time is not modelled. */
  datatype PersistedOutput = PersistedOutput(
    phaseId: string,
    verdict: Option<string>,
    confidence: Option<real>,
    reason: Option<string>,
    commitMessage: Option<string>,
    evidence: seq<Evidence>,
    guardrailViolations: seq<string>,
    payload: Option<Json>)

  /** What recovery may find at the path of an output file. */
  datatype OutputFile = Missing | Unreadable | Malformed | Holding(output: PersistedOutput)

  datatype ReadError =
    | OutputMissing
    | OutputUnreadable
    | OutputMalformed
    | VerdictMissing
    | UnknownVerdict(text: string)

  function VerdictName(v: Verdict): string {
    match v
    case Advance => "advance"
    case Rework => "rework"
    case Fail => "fail"
    case Skip => "skip"
    case Unknown => "unknown"
  }

  /** The record written for `outcome`. */
  function Persisted(phaseId: string, outcome: Outcome): PersistedOutput {
    match outcome
    case Completed(commit, Some(d), payload) =>
      PersistedOutput(phaseId, Some(VerdictName(d.verdict)), Some(d.confidence),
                      if d.reason == "" then None else Some(d.reason), commit,
                      d.evidence, d.guardrailViolations, payload)
    case Completed(commit, None, payload) =>
      PersistedOutput(phaseId, Some("advance"), None, None, commit, [], [], payload)
    case ManualPending(instructions, _) =>
      PersistedOutput(phaseId, Some("manual_pending"), None, Some(instructions), None, [], [], None)
  }

  function ParseVerdict(text: string): Option<Verdict> {
    var lower := Lower(text);
    if lower == "advance" then Some(Advance)
    else if lower == "rework" then Some(Rework)
    else if lower == "fail" then Some(Fail)
    else if lower == "skip" then Some(Skip)
    else None
  }

  /** Crash recovery's view of an output file. */
  function ReadDecision(file: OutputFile): Result<Decision, ReadError> {
    match file
    case Missing => Err(OutputMissing)
    case Unreadable => Err(OutputUnreadable)
    case Malformed => Err(OutputMalformed)
    case Holding(output) =>
      if output.verdict.None? then Err(VerdictMissing)
      else
        match ParseVerdict(output.verdict.value)
        case None => Err(UnknownVerdict(Lower(output.verdict.value)))
        case Some(verdict) =>
          Ok(Decision("phase_decision", output.phaseId, verdict, output.confidence.GetOr(1.0), Low,
                      output.reason.GetOr(""), output.evidence, output.guardrailViolations,
                      output.commitMessage, None))
  }

  /** Outcomes whose persisted form can be replayed. */
  predicate Replayable(o: Outcome) {
    o.Completed? && (o.decision.Some? ==> !o.decision.value.verdict.Unknown?)
  }

  /** The decision a workflow is told about when `o` is applied directly. */
  function DecidedVerdict(d: Option<Decision>): Verdict {
    match d
    case Some(d) => d.verdict
    case None => Advance
  }

  lemma LowerNames(v: Verdict)
    ensures Lower(VerdictName(v)) == VerdictName(v)
    ensures Lower("manual_pending") == "manual_pending"
  {
    var names := [VerdictName(v), "manual_pending"];
    assert Lower(names[1]) == names[1];
  }

  lemma ParseVerdictName(v: Verdict)
    ensures ParseVerdict(VerdictName(v)) == if v.Unknown? then None else Some(v)
  {
    LowerNames(v);
    var texts := ["advance", "rework", "fail", "skip", "unknown"];
    assert |texts[0]| == 7 && |texts[1]| == 6 && |texts[2]| == 4 && |texts[3]| == 4 && |texts[4]| == 7;
    assert texts[0][0] == 'a' && texts[2][0] == 'f' && texts[3][0] == 's' && texts[4][0] == 'u';
  }

  /**
   Writing an outcome and reading it back gives a decision exactly when the
   outcome is replayable; the decision has the original verdict, confidence,
   reason, evidence and guardrail violations, but risk Low and no target.
   */
  lemma PersistRoundTrip(phaseId: string, o: Outcome)
    ensures ReadDecision(Holding(Persisted(phaseId, o))).Ok? <==> Replayable(o)
    ensures Replayable(o) ==>
              var d := ReadDecision(Holding(Persisted(phaseId, o))).value;
              && d.phaseId == phaseId
              && d.verdict == DecidedVerdict(o.decision)
              && d.commitMessage == o.commitMessage
              && d.risk == Low && d.targetPhase == None
              && (o.decision.Some? ==>
                    && d.confidence == o.decision.value.confidence
                    && d.reason == o.decision.value.reason
                    && d.evidence == o.decision.value.evidence
                    && d.guardrailViolations == o.decision.value.guardrailViolations)
    ensures o.ManualPending? ==>
              ReadDecision(Holding(Persisted(phaseId, o))) == Err(UnknownVerdict("manual_pending"))
  {
    ParseVerdictName(if o.Completed? then DecidedVerdict(o.decision) else Advance);
    LowerNames(Advance);
    if o.ManualPending? {
      var text := "manual_pending";
      assert |text| == 14;
    }
  }

  /** The record written keeps the phase, the commit message and the payload of an outcome. */
  lemma PersistedKeeps(phaseId: string, o: Outcome)
    ensures var record := Persisted(phaseId, o);
            && record.phaseId == phaseId && record.verdict.Some?
            && (o.Completed? ==> record.payload == o.payload && record.commitMessage == o.commitMessage)
            && (o.ManualPending? ==> record.payload == None && record.reason == Some(o.instructions))
  {
  }
}
