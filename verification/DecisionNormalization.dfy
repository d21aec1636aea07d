/** Filling the fields of a phase decision that the runner can derive itself. */
module DecisionNormalization {
  import opened Common
  import opened Json
  import opened TextLines

  function RiskRank(risk: string): nat {
    if risk == "medium" then 1 else if risk == "high" then 2 else 0
  }

  /** A string pinned by a `const` or by a one-element `enum`. */
  function PinnedString(property: Json): Option<string> {
    match property.GetString("const")
    case Some(s) => Some(s)
    case None =>
      match property.GetArray("enum")
      case Some(values) => if |values| == 1 && values[0].Str? then Some(values[0].s) else None
      case None => None
  }

  function PinnedAt(branch: Json, path: seq<string>): Option<string> {
    match branch.Pointer(path)
    case Some(property) => PinnedString(property)
    case None => None
  }

  const OUTCOME_PATH := ["properties", "outcome"]
  const VERDICT_PATH := ["properties", "phase_decision", "properties", "verdict"]

  function Branches(schema: Json): Option<seq<Json>> {
    match schema.Get("oneOf")
    case Some(v) => if v.Arr? then Some(v.items) else None
    case None => schema.GetArray("anyOf")
  }

  predicate AllPinned(branches: seq<Json>) {
    forall b :: b in branches ==> PinnedAt(b, OUTCOME_PATH).Some?
  }

  /** The branches that pin the outcome. */
  function Matching(branches: seq<Json>, outcome: string): seq<Json> {
    if branches == [] then []
    else (if PinnedAt(branches[0], OUTCOME_PATH) == Some(outcome) then [branches[0]] else [])
         + Matching(branches[1..], outcome)
  }

  /** The verdict of the only branch that pins the outcome, when every branch pins one. */
  function VerdictFor(branches: seq<Json>, outcome: string): Option<string> {
    if AllPinned(branches) && |Matching(branches, outcome)| == 1
    then PinnedAt(Matching(branches, outcome)[0], VERDICT_PATH)
    else None
  }

  function DerivedVerdict(payload: Json, schema: Json): Option<string> {
    match (payload.GetString("outcome"), Branches(schema))
    case (Some(outcome), Some(branches)) => VerdictFor(branches, outcome)
    case _ => None
  }

  lemma {:induction false} MatchingConcat(a: seq<Json>, b: seq<Json>, outcome: string)
    ensures Matching(a + b, outcome) == Matching(a, outcome) + Matching(b, outcome)
  {
    if a == [] {
      assert a + b == b;
    } else {
      assert (a + b)[0] == a[0] && (a + b)[1..] == a[1..] + b;
      MatchingConcat(a[1..], b, outcome);
      var first := if PinnedAt(a[0], OUTCOME_PATH) == Some(outcome) then [a[0]] else [];
      assert first + (Matching(a[1..], outcome) + Matching(b, outcome)) ==
             (first + Matching(a[1..], outcome)) + Matching(b, outcome);
    }
  }

  lemma MatchingGrows(branches: seq<Json>, i: nat, outcome: string)
    requires i < |branches|
    ensures Matching(branches[..i + 1], outcome) ==
            Matching(branches[..i], outcome)
            + (if PinnedAt(branches[i], OUTCOME_PATH) == Some(outcome) then [branches[i]] else [])
    ensures |Matching(branches[..i + 1], outcome)| <= |Matching(branches, outcome)|
    ensures AllPinned(branches[..i + 1]) <==> AllPinned(branches[..i]) && PinnedAt(branches[i], OUTCOME_PATH).Some?
  {
    assert branches[..i + 1] == branches[..i] + [branches[i]];
    assert branches == branches[..i + 1] + branches[i + 1..];
    MatchingConcat(branches[..i], [branches[i]], outcome);
    MatchingConcat(branches[..i + 1], branches[i + 1..], outcome);
  }

  /** The loop over the branches. */
  method DeriveVerdictFromOutcome(payload: Json, schema: Json) returns (verdict: Option<string>)
    ensures verdict == DerivedVerdict(payload, schema)
  {
    var outcome := payload.GetString("outcome");
    if outcome.None? { return None; }
    var branches := Branches(schema);
    if branches.None? { return None; }
    verdict := OnlyVerdict(branches.value, outcome.value);
  }

  method OnlyVerdict(branches: seq<Json>, outcome: string) returns (verdict: Option<string>)
    ensures verdict == VerdictFor(branches, outcome)
  {
    var matched: Option<Json> := None;
    for i := 0 to |branches|
      invariant AllPinned(branches[..i])
      invariant Matching(branches[..i], outcome) == if matched.Some? then [matched.value] else []
    {
      MatchingGrows(branches, i, outcome);
      var pinned := PinnedAt(branches[i], OUTCOME_PATH);
      if pinned.None? { return None; }
      if pinned.value == outcome {
        if matched.Some? { return None; }
        matched := Some(branches[i]);
      }
    }
    assert branches[..|branches|] == branches;
    if matched.None? { return None; }
    verdict := PinnedAt(matched.value, VERDICT_PATH);
  }

  /** The riskiest of the strings listed, the last of equally risky ones. */
  function Riskiest(values: seq<Json>): (r: Option<string>)
    ensures r.Some? ==> Str(r.value) in values
  {
    if values == [] then None
    else
      var front, last := Riskiest(values[..|values| - 1]), values[|values| - 1];
      if last.Str? && (front.None? || RiskRank(last.s) >= RiskRank(front.value)) then Some(last.s) else front
  }

  /** Of the three risks the highest listed is found; without any, the last string. */
  lemma {:induction false} RiskiestNames(values: seq<Json>)
    ensures Str("high") in values ==> Riskiest(values) == Some("high")
    ensures Str("high") !in values && Str("medium") in values ==> Riskiest(values) == Some("medium")
    ensures Str("high") !in values && Str("medium") !in values ==>
              Riskiest(values).Some? ==> RiskRank(Riskiest(values).value) == 0
    ensures Riskiest(values).None? <==> forall i :: 0 <= i < |values| ==> !values[i].Str?
  {
    if values != [] { RiskiestNames(values[..|values| - 1]); }
  }

  function ConservativeRisk(decisionSchema: Json): string {
    match decisionSchema.Pointer(["properties", "risk", "enum"])
    case Some(Arr(values)) => Riskiest(values).GetOr("high")
    case _ => "high"
  }

  function MinimumConfidence(decisionSchema: Json): real {
    match decisionSchema.Pointer(["properties", "confidence", "minimum"])
    case Some(Num(n)) => n
    case _ => 0.0
  }

  function SummaryReason(payload: Json): Option<string> {
    match payload.GetString("summary")
    case Some(summary) => if Trim(summary) == "" then None else Some(Trim(summary))
    case None => None
  }

  /** The reason filled in is the summary without the white space around it; a blank summary gives none. */
  lemma ReasonIsTrimmed(payload: Json, summary: string) returns (n: nat)
    requires payload.GetString("summary") == Some(summary)
    ensures match SummaryReason(payload)
            case None => forall i :: 0 <= i < |summary| ==> IsSpace(summary[i])
            case Some(reason) =>
              && reason != "" && n + |reason| <= |summary| && reason == summary[n..n + |reason|]
              && !IsSpace(reason[0]) && !IsSpace(reason[|reason| - 1])
              && forall i :: 0 <= i < n || n + |reason| <= i < |summary| ==> IsSpace(summary[i])
  {
    n := TrimIs(summary);
  }

  datatype Fill = Fill(name: string, value: Option<Json>)

  function AsJson(s: Option<string>): Option<Json> {
    match s
    case Some(t) => Some(Str(t))
    case None => None
  }

  /** What the runner knows about each field, in the order it fills them. */
  function Fills(payload: Json, phaseId: string, schema: Json, decisionSchema: Json): seq<Fill> {
    [Fill("kind", Some(Str("phase_decision"))),
     Fill("phase_id", Some(Str(phaseId))),
     Fill("verdict", AsJson(DerivedVerdict(payload, schema))),
     Fill("reason", AsJson(SummaryReason(payload))),
     Fill("confidence", Some(Num(MinimumConfidence(decisionSchema)))),
     Fill("risk", Some(Str(ConservativeRisk(decisionSchema))))]
  }

  predicate Fillable(decision: map<string, Json>, f: Fill) {
    f.name !in decision && f.value.Some?
  }

  /** The decision with the missing fields that are known. */
  function Filled(decision: map<string, Json>, fills: seq<Fill>): map<string, Json>
    decreases |fills|
  {
    if fills == [] then decision
    else
      var d := if Fillable(decision, fills[0]) then decision[fills[0].name := fills[0].value.value] else decision;
      Filled(d, fills[1..])
  }

  function FilledNames(decision: map<string, Json>, fills: seq<Fill>): seq<string>
    decreases |fills|
  {
    if fills == [] then []
    else if Fillable(decision, fills[0])
    then [fills[0].name] + FilledNames(decision[fills[0].name := fills[0].value.value], fills[1..])
    else FilledNames(decision, fills[1..])
  }

  /** Can a missing decision be built from the payload alone? */
  predicate Mechanical(payload: Json, schema: Json) {
    DerivedVerdict(payload, schema).Some? && SummaryReason(payload).Some?
  }

  /** The decision that is filled; None when the payload is left alone. */
  function FillTarget(payload: Json, schema: Json): Option<map<string, Json>> {
    if schema.Pointer(["properties", "phase_decision"]).None? || !payload.Obj? then None
    else match payload.Get("phase_decision")
         case Some(d) => if d.Obj? then Some(d.fields) else None
         case None => if Mechanical(payload, schema) then Some(map[]) else None
  }

  function DecisionSchemaOf(schema: Json): Json {
    schema.Pointer(["properties", "phase_decision"]).GetOr(Null)
  }

  function Normalized(payload: Json, phaseId: string, schema: Json): Json {
    match FillTarget(payload, schema)
    case None => payload
    case Some(decision) =>
      var fills := Fills(payload, phaseId, schema, DecisionSchemaOf(schema));
      Obj((if payload.Obj? then payload.fields else map[])["phase_decision" := Obj(Filled(decision, fills))])
  }

  function NormalizedNames(payload: Json, phaseId: string, schema: Json): seq<string> {
    match FillTarget(payload, schema)
    case None => []
    case Some(decision) =>
      (if payload.Get("phase_decision").None? then ["phase_decision"] else [])
      + FilledNames(decision, Fills(payload, phaseId, schema, DecisionSchemaOf(schema)))
  }

  /** Field by field, in place. */
  method NormalizePhaseDecision(payload: Json, phaseId: string, schema: Json)
    returns (normalized: Json, filled: seq<string>)
    ensures normalized == Normalized(payload, phaseId, schema)
    ensures filled == NormalizedNames(payload, phaseId, schema)
  {
    normalized, filled := payload, [];
    var decisionSchema := schema.Pointer(["properties", "phase_decision"]);
    if decisionSchema.None? || !payload.Obj? { return; }
    var verdict := DeriveVerdictFromOutcome(payload, schema);
    var reason := SummaryReason(payload);
    var decision: map<string, Json> := map[];
    match payload.Get("phase_decision") {
      case Some(d) =>
        if !d.Obj? { return; }
        decision := d.fields;
      case None =>
        if verdict.None? || reason.None? { return; }
        filled := ["phase_decision"];
    }
    var fills := [Fill("kind", Some(Str("phase_decision"))), Fill("phase_id", Some(Str(phaseId))),
                  Fill("verdict", AsJson(verdict)), Fill("reason", AsJson(reason)),
                  Fill("confidence", Some(Num(MinimumConfidence(decisionSchema.value)))),
                  Fill("risk", Some(Str(ConservativeRisk(decisionSchema.value))))];
    decision, filled := FillAll(decision, filled, fills);
    normalized := Obj(payload.fields["phase_decision" := Obj(decision)]);
  }

  method FillAll(before: map<string, Json>, names: seq<string>, fills: seq<Fill>)
    returns (decision: map<string, Json>, filled: seq<string>)
    ensures decision == Filled(before, fills)
    ensures filled == names + FilledNames(before, fills)
  {
    decision, filled := before, names;
    for i := 0 to |fills|
      invariant Filled(decision, fills[i..]) == Filled(before, fills)
      invariant filled + FilledNames(decision, fills[i..]) == names + FilledNames(before, fills)
    {
      assert fills[i..][1..] == fills[i + 1..];
      if fills[i].name !in decision && fills[i].value.Some? {
        assert filled + FilledNames(decision, fills[i..]) ==
               (filled + [fills[i].name])
               + FilledNames(decision[fills[i].name := fills[i].value.value], fills[i + 1..]);
        decision := decision[fills[i].name := fills[i].value.value];
        filled := filled + [fills[i].name];
      }
    }
  }

  // ---- what filling does ----

  lemma {:induction false} FilledKeeps(decision: map<string, Json>, fills: seq<Fill>)
    ensures forall k :: k in decision ==> k in Filled(decision, fills) && Filled(decision, fills)[k] == decision[k]
    ensures forall i :: 0 <= i < |fills| && fills[i].value.Some? ==> fills[i].name in Filled(decision, fills)
    ensures forall k :: k in Filled(decision, fills) && k !in decision ==>
              exists i :: 0 <= i < |fills| && fills[i] == Fill(k, Some(Filled(decision, fills)[k]))
    decreases |fills|
  {
    if fills != [] {
      var d := if Fillable(decision, fills[0]) then decision[fills[0].name := fills[0].value.value] else decision;
      FilledKeeps(d, fills[1..]);
      var all := Filled(decision, fills);
      forall k | k in all && k !in decision
        ensures exists i :: 0 <= i < |fills| && fills[i] == Fill(k, Some(all[k]))
      {
        if k !in d {
          var i :| 0 <= i < |fills[1..]| && fills[1..][i] == Fill(k, Some(all[k]));
          assert fills[i + 1] == Fill(k, Some(all[k]));
        }
      }
    }
  }

  lemma FilledLeft(decision: map<string, Json>, fills: seq<Fill>, k: string)
    requires k in decision
    ensures k in Filled(decision, fills) && Filled(decision, fills)[k] == decision[k]
  {
    FilledKeeps(decision, fills);
  }

  /** A new field comes from the list. */
  lemma FilledFrom(decision: map<string, Json>, fills: seq<Fill>, k: string) returns (f: Fill)
    requires k in Filled(decision, fills) && k !in decision
    ensures f in fills && f == Fill(k, Some(Filled(decision, fills)[k]))
  {
    FilledKeeps(decision, fills);
    var i :| 0 <= i < |fills| && fills[i] == Fill(k, Some(Filled(decision, fills)[k]));
    f := fills[i];
  }

  lemma {:induction false} NothingToFill(decision: map<string, Json>, fills: seq<Fill>)
    requires forall i :: 0 <= i < |fills| && fills[i].value.Some? ==> fills[i].name in decision
    ensures Filled(decision, fills) == decision && FilledNames(decision, fills) == []
    decreases |fills|
  {
    if fills != [] { NothingToFill(decision, fills[1..]); }
  }

  /**
   Normalizing changes no other top-level key and no field the decision already
   has; a `phase_decision` that is not an object stays as it is.
   */
  lemma NormalizingKeeps(payload: Json, phaseId: string, schema: Json)
    ensures var n := Normalized(payload, phaseId, schema);
            && (!payload.Obj? ==> n == payload)
            && (payload.Obj? ==>
                  n.Obj? && payload.fields.Keys <= n.fields.Keys <= payload.fields.Keys + {"phase_decision"})
            && (payload.Obj? ==>
                  forall k :: k in payload.fields && k != "phase_decision" ==> n.fields[k] == payload.fields[k])
            && (match payload.Get("phase_decision")
                case Some(Obj(had)) =>
                  n.Get("phase_decision").Some? && n.Get("phase_decision").value.Obj?
                  && forall k :: k in had ==> n.Get("phase_decision").value.Get(k) == Some(had[k])
                case Some(other) => n == payload
                case None => true)
  {
    var target := FillTarget(payload, schema);
    if target.Some? {
      FilledKeeps(target.value, Fills(payload, phaseId, schema, DecisionSchemaOf(schema)));
    }
  }

  /** Normalizing twice is normalizing once, and the second time reports nothing. */
  lemma NormalizingIsIdempotent(payload: Json, phaseId: string, schema: Json)
    ensures var n := Normalized(payload, phaseId, schema);
            Normalized(n, phaseId, schema) == n && NormalizedNames(n, phaseId, schema) == []
  {
    var n := Normalized(payload, phaseId, schema);
    var target := FillTarget(payload, schema);
    if target.Some? {
      var fills := Fills(payload, phaseId, schema, DecisionSchemaOf(schema));
      SameFills(payload, n, phaseId, schema);
      FilledKeeps(target.value, fills);
      NothingToFill(Filled(target.value, fills), fills);
      assert n.fields["phase_decision" := n.fields["phase_decision"]] == n.fields;
    } else {
      assert FillTarget(n, schema) == None;
    }
  }

  /** The fills depend only on the outcome and the summary. */
  lemma SameFills(payload: Json, other: Json, phaseId: string, schema: Json)
    requires payload.Get("outcome") == other.Get("outcome") && payload.Get("summary") == other.Get("summary")
    ensures Fills(payload, phaseId, schema, DecisionSchemaOf(schema)) ==
            Fills(other, phaseId, schema, DecisionSchemaOf(schema))
  {
    assert payload.GetString("outcome") == other.GetString("outcome");
    assert payload.GetString("summary") == other.GetString("summary");
  }

  // ---- the order of the branches does not matter ----

  lemma {:induction false} MatchingCounts(branches: seq<Json>, outcome: string, b: Json)
    ensures multiset(Matching(branches, outcome))[b] ==
            if PinnedAt(b, OUTCOME_PATH) == Some(outcome) then multiset(branches)[b] else 0
  {
    if branches != [] {
      MatchingCounts(branches[1..], outcome, b);
      assert branches == [branches[0]] + branches[1..];
    }
  }

  /** The derived verdict is the same for every order of the branches. */
  lemma VerdictIgnoresBranchOrder(branches: seq<Json>, shuffled: seq<Json>, outcome: string)
    requires multiset(branches) == multiset(shuffled)
    ensures VerdictFor(branches, outcome) == VerdictFor(shuffled, outcome)
  {
    var a, b := Matching(branches, outcome), Matching(shuffled, outcome);
    forall x
      ensures multiset(a)[x] == multiset(b)[x]
    {
      MatchingCounts(branches, outcome, x);
      MatchingCounts(shuffled, outcome, x);
    }
    assert multiset(a) == multiset(b) && |a| == |multiset(a)| && |b| == |multiset(b)|;
    PinnedIgnoresOrder(branches, shuffled);
    if |a| == 1 {
      assert a[0] in multiset(b);
    }
  }

  lemma PinnedIgnoresOrder(branches: seq<Json>, shuffled: seq<Json>)
    requires multiset(branches) == multiset(shuffled)
    ensures AllPinned(branches) == AllPinned(shuffled)
  {
    forall x ensures x in branches <==> x in shuffled {
      assert x in multiset(branches) <==> x in multiset(shuffled);
    }
  }

  /** The forms of a property schema that pin a string. */
  lemma PinnedForms(s: string, t: string)
    ensures PinnedString(Obj(map["const" := Str(s)])) == Some(s)
    ensures PinnedString(Obj(map["enum" := Arr([Str(s)])])) == Some(s)
    ensures PinnedString(Obj(map["enum" := Arr([Str(s), Str(t)])])) == None
  {
    var one, two := Obj(map["enum" := Arr([Str(s)])]), Obj(map["enum" := Arr([Str(s), Str(t)])]);
    assert one.GetString("const") == None && one.GetArray("enum") == Some([Str(s)]);
    assert two.GetString("const") == None && two.GetArray("enum") == Some([Str(s), Str(t)]);
    assert Obj(map["const" := Str(s)]).GetString("const") == Some(s);
  }

  /** The names reported are exactly those of the fields that were added. */
  lemma {:induction false} FilledNamesAre(decision: map<string, Json>, fills: seq<Fill>, k: string)
    ensures k in FilledNames(decision, fills) <==> k in Filled(decision, fills) && k !in decision
    decreases |fills|
  {
    FilledKeeps(decision, fills);
    if fills != [] {
      if Fillable(decision, fills[0]) {
        var d := decision[fills[0].name := fills[0].value.value];
        FilledNamesAre(d, fills[1..], k);
        FilledKeeps(d, fills[1..]);
      } else {
        FilledNamesAre(decision, fills[1..], k);
      }
    }
  }
}
