/**
 The response schemas that the runner composes from its contracts, and what
 normalization restores under them.
 */
module ComposedResponses {
  import opened Common
  import opened Json
  import opened JsonSchema
  import opened TextLines
  import opened PhaseOutput
  import opened RuntimeContract
  import opened DecisionNormalization
  import opened MechanicalFields

  // ---- fields whose schemas accept what the runner fills in ----

  /** The schema of a confidence accepts its own minimum, or 0 without one. */
  predicate AcceptsMinimum(s: Json) {
    Valid(Num(match s.Get("minimum") case Some(Num(n)) => n case _ => 0.0), s)
  }

  /** The schema of a risk accepts the riskiest value it lists, or "high" without a list. */
  predicate AcceptsRiskiest(s: Json) {
    Valid(Str(match s.Get("enum") case Some(Arr(values)) => Riskiest(values).GetOr("high") case _ => "high"), s)
  }

  /** Of confidence, risk and reason, those deleted can be filled: with what their schemas suggest, or the summary. */
  predicate Refillable(properties: map<string, Json>, deleted: set<string>, summary: Option<string>) {
    && ("confidence" in deleted && "confidence" in properties ==> AcceptsMinimum(properties["confidence"]))
    && ("risk" in deleted && "risk" in properties ==> AcceptsRiskiest(properties["risk"]))
    && ("reason" in deleted && "reason" in properties && summary.Some? ==>
          Valid(Str(summary.value), properties["reason"]))
  }

  lemma SuggestedIs(d: Json)
    requires "confidence" in Properties(d) && "risk" in Properties(d)
    ensures Valid(Num(MinimumConfidence(d)), Properties(d)["confidence"]) <==>
            AcceptsMinimum(Properties(d)["confidence"])
    ensures Valid(Str(ConservativeRisk(d)), Properties(d)["risk"]) <==> AcceptsRiskiest(Properties(d)["risk"])
  {
    PointerOfThree(d, "confidence", "minimum");
    PointerOfThree(d, "risk", "enum");
  }

  /** The runner's own values are accepted exactly when the deleted fields are refillable. */
  lemma AcceptsIff(p: Json, phaseId: string, schema: Json, deleted: set<string>)
    requires DECISION_FIELDS <= Properties(Part(schema)).Keys
    ensures Accepts(Properties(Part(schema)), Changed(Known(p, phaseId, schema), deleted)) <==>
            Refillable(Properties(Part(schema)), deleted, SummaryReason(p))
  {
    var properties, changed := Properties(Part(schema)), Changed(Known(p, phaseId, schema), deleted);
    assert "confidence" in DECISION_FIELDS && "risk" in DECISION_FIELDS && "reason" in DECISION_FIELDS;
    KnownValues(p, phaseId, schema);
    SuggestedIs(Part(schema));
    assert changed.Keys <= OWN_VALUES;
    assert "confidence" in deleted ==> "confidence" in changed;
    assert "risk" in deleted ==> "risk" in changed;
    assert "reason" in deleted && SummaryReason(p).Some? ==> "reason" in changed;
  }

  // ---- decision schemas ----

  predicate NoneNamed(fields: seq<NamedField>, names: set<string>) {
    forall i :: 0 <= i < |fields| ==> fields[i].name !in names
  }

  const PINNED_NAMES := {"kind", "phase_id"}

  lemma {:induction false} FieldSchemaKeys(fields: seq<NamedField>, names: set<string>)
    requires NoneNamed(fields, names)
    ensures FieldSchemas(fields).Keys !! names
  {
    if fields != [] { FieldSchemaKeys(fields[1..], names); }
  }

  lemma PropertiesKeepShape(d: Json, extra: map<string, Json>, phaseId: string)
    requires DecisionShape(d, phaseId) && extra.Keys !! PINNED_NAMES
    ensures WithProperties(d, extra).Ok? && DecisionShape(WithProperties(d, extra).value, phaseId)
    ensures WithProperties(d, extra).value.GetArray("required") == d.GetArray("required")
    ensures Properties(WithProperties(d, extra).value) == Properties(d) + extra
  {
    var e := WithProperties(d, extra).value;
    forall n | n in DECISION_FIELDS ensures Requires(e, n) { assert Requires(d, n); }
  }

  lemma RequiredKeepsShape(d: Json, extra: seq<Json>, phaseId: string)
    requires DecisionShape(d, phaseId)
    ensures WithRequired(d, extra).Ok? && DecisionShape(WithRequired(d, extra).value, phaseId)
    ensures Properties(WithRequired(d, extra).value) == Properties(d)
  {
    assert Requires(d, "kind");
    var e := WithRequired(d, extra).value;
    forall n | n in DECISION_FIELDS ensures Requires(e, n) {
      assert Requires(d, n);
      AddedExactly(d.GetArray("required").value, extra, Str(n));
    }
  }

  lemma MergeKeepsShape(d: Json, overlay: Json, phaseId: string)
    requires DecisionShape(d, phaseId) && Properties(overlay).Keys !! PINNED_NAMES
    ensures MergeSchema(d, overlay).Ok? && DecisionShape(MergeSchema(d, overlay).value, phaseId)
    ensures Properties(MergeSchema(d, overlay).value) == Properties(d) + Properties(overlay)
  {
    var merged := d;
    match overlay.Get("properties") {
      case Some(Obj(extra)) =>
        PropertiesKeepShape(d, extra, phaseId);
        merged := WithProperties(d, extra).value;
      case _ =>
    }
    match overlay.Get("required")
    case Some(Arr(extra)) => RequiredKeepsShape(merged, extra, phaseId);
    case _ =>
  }

  lemma {:induction false} StrsIn(names: seq<string>, n: string)
    ensures Str(n) in Strs(names) <==> n in names
  {
    if names != [] { StrsIn(names[1..], n); }
  }

  lemma BaseRequires(contract: DecisionContract, phaseId: string, n: string)
    requires n in DECISION_FIELDS
    ensures Requires(DecisionBase(contract, phaseId), n)
  {
    var more := if contract.requiresEvidence then ["evidence"] else [];
    assert DECISION_NAMES[0] == "kind" && DECISION_NAMES[1] == "phase_id" && DECISION_NAMES[2] == "verdict"
        && DECISION_NAMES[3] == "confidence" && DECISION_NAMES[4] == "risk" && DECISION_NAMES[5] == "reason";
    StrsIn(DECISION_NAMES + more, n);
  }

  lemma PropertiesPin(r: Risk, phaseId: string)
    ensures var p := DecisionProperties(AllowedRisks(r), phaseId);
            && DECISION_FIELDS <= p.Keys
            && p["kind"] == Obj(map["const" := Str("phase_decision")])
            && p["phase_id"] == Obj(map["const" := Str(phaseId)])
  {
  }

  lemma BaseHasShape(contract: DecisionContract, phaseId: string)
    ensures DecisionShape(DecisionBase(contract, phaseId), phaseId)
  {
    var base := DecisionBase(contract, phaseId);
    PropertiesPin(contract.maxRisk, phaseId);
    assert Properties(base) == DecisionProperties(AllowedRisks(contract.maxRisk), phaseId);
    forall n | n in DECISION_FIELDS ensures Requires(base, n) { BaseRequires(contract, phaseId, n); }
  }

  /** The runner's own schemas of confidence, risk and reason. */
  lemma BaseFields(contract: DecisionContract, phaseId: string)
    ensures var p := Properties(DecisionBase(contract, phaseId));
            && "confidence" in p && p["confidence"] == Range(0.0, 1.0)
            && "risk" in p && p["risk"] == Obj(map["enum" := Arr(Strs(AllowedRisks(contract.maxRisk)))])
            && "reason" in p && p["reason"] == NonEmptyText()
  {
  }

  lemma BaseRefills(contract: DecisionContract, phaseId: string, deleted: set<string>, summary: Option<string>)
    requires summary.Some? ==> summary.value != ""
    ensures var p := Properties(DecisionBase(contract, phaseId));
            DECISION_FIELDS <= p.Keys && Refillable(p, deleted, summary)
  {
    BaseHasShape(contract, phaseId);
    BaseFields(contract, phaseId);
    RangeAcceptsIff(0.0, 1.0);
    var names := AllowedRisks(contract.maxRisk);
    StrsLength(names);
    ListAcceptsIff(Strs(names));
    assert Strs(names)[0].Str?;
    if summary.Some? { NonEmptyAccepts(summary.value); }
  }

  lemma NonEmptyAccepts(text: string)
    requires text != ""
    ensures Valid(Str(text), NonEmptyText())
  {
    var s, v := NonEmptyText(), Str(text);
    assert TypeOk(v, s.fields) && ValueOk(v, s.fields) && RangeOk(v, s.fields) && RequiredOk(v, s.fields);
    assert PropertiesOk(v, s) && ItemsOk(v, s) && OneOfOk(v, s) && AnyOfOk(v, s);
  }

  function Range(low: real, high: real): Json {
    Obj(map["type" := Str("number"), "minimum" := Num(low), "maximum" := Num(high)])
  }

  /** A range of confidences can be filled when it is not empty, and a list of risks when it names one. */
  lemma RangeAcceptsIff(low: real, high: real)
    ensures AcceptsMinimum(Range(low, high)) <==> low <= high
  {
    var s, v := Range(low, high), Num(low);
    assert s.Get("minimum") == Some(v);
    assert TypeOk(v, s.fields) && ValueOk(v, s.fields) && RequiredOk(v, s.fields);
    assert PropertiesOk(v, s) && ItemsOk(v, s) && OneOfOk(v, s) && AnyOfOk(v, s);
    assert RangeOk(v, s.fields) <==> low <= high;
  }

  lemma ListAcceptsIff(values: seq<Json>)
    ensures AcceptsRiskiest(Obj(map["enum" := Arr(values)])) <==> exists i :: 0 <= i < |values| && values[i].Str?
  {
    var s := Obj(map["enum" := Arr(values)]);
    var v := Str(Riskiest(values).GetOr("high"));
    assert s.Get("enum") == Some(Arr(values));
    RiskiestIff(values);
    assert TypeOk(v, s.fields) && RangeOk(v, s.fields) && RequiredOk(v, s.fields);
    assert PropertiesOk(v, s) && ItemsOk(v, s) && OneOfOk(v, s) && AnyOfOk(v, s);
    assert ValueOk(v, s.fields) <==> v in values;
  }

  lemma {:induction false} RiskiestIff(values: seq<Json>)
    ensures Riskiest(values).Some? <==> exists i :: 0 <= i < |values| && values[i].Str?
  {
    if values != [] {
      var front := values[..|values| - 1];
      RiskiestIff(front);
      if i :| 0 <= i < |values| && values[i].Str? {
        if i < |front| { assert front[i].Str?; }
      }
      if i :| 0 <= i < |front| && front[i].Str? { assert values[i].Str?; }
    }
  }

  lemma {:induction false} StrsLength(names: seq<string>)
    ensures |Strs(names)| == |names| && forall i :: 0 <= i < |names| ==> Strs(names)[i] == Str(names[i])
  {
    if names != [] { StrsLength(names[1..]); }
  }

  function ExtraProperties(extra: Option<Json>): map<string, Json> {
    match extra
    case Some(overlay) => Properties(overlay)
    case None => map[]
  }

  /** What a contract itself says of the decision's fields. */
  function Declared(contract: DecisionContract): map<string, Json> {
    FieldSchemas(contract.fields) + ExtraProperties(contract.extra)
  }

  /** The contract leaves kind and phase to the runner. */
  predicate LeavesPins(contract: DecisionContract) {
    NoneNamed(contract.fields, PINNED_NAMES) && ExtraProperties(contract.extra).Keys !! PINNED_NAMES
  }

  lemma FieldsKeepShape(d: Json, fields: seq<NamedField>, phaseId: string)
    requires DecisionShape(d, phaseId) && NoneNamed(fields, PINNED_NAMES)
    ensures var s := ApplyContractFields(d, fields, []);
            s.Ok? && DecisionShape(s.value, phaseId) && Properties(s.value) == Properties(d) + FieldSchemas(fields)
  {
    FieldSchemaKeys(fields, PINNED_NAMES);
    assert AnyValue([]) + FieldSchemas(fields) == FieldSchemas(fields);
    PropertiesKeepShape(d, FieldSchemas(fields), phaseId);
    RequiredKeepsShape(WithProperties(d, FieldSchemas(fields)).value, Strs([]) + Strs(RequiredNames(fields)), phaseId);
  }

  lemma OverlayKeepsShape(s: Json, extra: Option<Json>, phaseId: string)
    requires DecisionShape(s, phaseId) && ExtraProperties(extra).Keys !! PINNED_NAMES
    ensures Overlaid(s, extra).Ok? && DecisionShape(Overlaid(s, extra).value, phaseId)
    ensures Properties(Overlaid(s, extra).value) == Properties(s) + ExtraProperties(extra)
  {
    if extra.Some? { MergeKeepsShape(s, extra.value, phaseId); }
  }

  lemma ComposedDecision(contract: DecisionContract, phaseId: string)
    requires LeavesPins(contract)
    ensures DecisionSchema(contract, phaseId).Ok?
    ensures DecisionShape(DecisionSchema(contract, phaseId).value, phaseId)
    ensures Properties(DecisionSchema(contract, phaseId).value) ==
            Properties(DecisionBase(contract, phaseId)) + FieldSchemas(contract.fields)
            + ExtraProperties(contract.extra)
  {
    BaseHasShape(contract, phaseId);
    var base := DecisionBase(contract, phaseId);
    FieldsKeepShape(base, contract.fields, phaseId);
    OverlayKeepsShape(ApplyContractFields(base, contract.fields, []).value, contract.extra, phaseId);
  }

  /**
   A decision contract that leaves kind and phase to the runner composes to a
   schema of the shape the restoration needs. Deleted fields can be refilled
   exactly when what the contract itself says of them allows it.
   */
  lemma {:induction false} DecisionSchemaHasShape(
    contract: DecisionContract, phaseId: string, deleted: set<string>, summary: Option<string>)
    requires LeavesPins(contract) && (summary.Some? ==> summary.value != "")
    ensures DecisionSchema(contract, phaseId).Ok?
    ensures DecisionShape(DecisionSchema(contract, phaseId).value, phaseId)
    ensures Refillable(Properties(DecisionSchema(contract, phaseId).value), deleted, summary) <==>
            Refillable(Declared(contract), deleted, summary)
  {
    ComposedDecision(contract, phaseId);
    BaseRefills(contract, phaseId, deleted, summary);
    RefillableOver(Properties(DecisionBase(contract, phaseId)), FieldSchemas(contract.fields),
                   ExtraProperties(contract.extra), deleted, summary);
  }

  lemma RefillableOver(
    base: map<string, Json>, fields: map<string, Json>, extra: map<string, Json>, deleted: set<string>,
    summary: Option<string>)
    requires Refillable(base, deleted, summary)
    ensures Refillable(base + fields + extra, deleted, summary) <==> Refillable(fields + extra, deleted, summary)
  {
    assert base + fields + extra == base + (fields + extra);
  }

  // ---- response schemas ----

  /** The decision schema becomes a property of the output schema, whose branches stay. */
  lemma ResponseSchemaHasShape(output: Json, decision: Json, required: bool, phaseId: string)
    requires DecisionShape(decision, phaseId)
    ensures ResponseSchema(output, decision, required).Ok? <==>
            output.Get("properties").Some? && output.Get("properties").value.Obj?
    ensures ResponseSchema(output, decision, required).Ok? ==>
              var s := ResponseSchema(output, decision, required).value;
              && ResponseShape(s, phaseId) && Part(s) == decision
              && BranchesAt(s, "oneOf") == BranchesAt(output, "oneOf")
              && BranchesAt(s, "anyOf") == BranchesAt(output, "anyOf")
              && (Explicit(output) ==> Explicit(s))
  {
  }

  /** The response schema of a phase from its output contract, explicit schema and decision schema. */
  function Composed(contract: Option<OutputContract>, explicit: Option<Json>, decision: Json, required: bool)
    : Result<Json, SchemaError>
  {
    match OutputSchema(contract, explicit)
    case Err(e) => Err(e)
    case Ok(None) => Ok(decision)
    case Ok(Some(output)) => ResponseSchema(output, decision, required)
  }

  lemma ContractIsExplicit(c: OutputContract, explicit: Option<Json>, output: Json)
    requires OutputSchema(Some(c), explicit) == Ok(Some(output))
    ensures Explicit(output) && BranchesAt(output, "oneOf") == None && BranchesAt(output, "anyOf") == None
  {
    ContractDropsBranches(c, explicit);
    FourKeywords(output);
  }

  lemma FourKeywords(s: Json)
    requires s.Obj? && s.fields.Keys == {"type", "required", "properties", "additionalProperties"}
    ensures Explicit(s) && BranchesAt(s, "oneOf") == None && BranchesAt(s, "anyOf") == None
  {
  }

  /** The composed schema has that shape, around the decision contract's own schema; contracts have no branches. */
  lemma ComposedHasShape(
    contract: Option<OutputContract>, explicit: Option<Json>, decision: Json, required: bool, phaseId: string)
    requires DecisionShape(decision, phaseId) && (contract.Some? || explicit.Some?)
    requires Composed(contract, explicit, decision, required).Ok?
    ensures var s := Composed(contract, explicit, decision, required).value;
            && ResponseShape(s, phaseId) && Part(s) == decision
            && BranchesAt(s, "oneOf") == (if contract.Some? then None else BranchesAt(explicit.value, "oneOf"))
            && BranchesAt(s, "anyOf") == (if contract.Some? then None else BranchesAt(explicit.value, "anyOf"))
            && (contract.Some? || Explicit(explicit.value) ==> Explicit(s))
  {
    if contract.Some? {
      var output := ContractSchemaOk(contract.value, explicit);
      ContractIsExplicit(contract.value, explicit, output);
      ResponseSchemaHasShape(output, decision, required, phaseId);
    } else {
      ResponseSchemaHasShape(explicit.value, decision, required, phaseId);
    }
  }

  /** Branches that are the same take the same. */
  lemma SameBranchesTake(s: Json, t: Json, p: Json, lost: set<string>, changed: map<string, Json>)
    requires Decided(p)
    requires BranchesAt(s, "oneOf") == BranchesAt(t, "oneOf") && BranchesAt(s, "anyOf") == BranchesAt(t, "anyOf")
    ensures BranchesTake(s, p, lost, changed) <==> BranchesTake(t, p, lost, changed)
  {
  }

  /**
   Under every schema the runner composes, whatever its branches, normalizing
   gives back the decision of a valid response but for the fields of which the
   runner knows nothing and for its own values; a verdict it gives is the original
   one.
   */
  lemma ComposedDecisionsAreRestored(
    contract: Option<OutputContract>, explicit: Option<Json>, decisions: DecisionContract, phaseId: string,
    p: Json, deleted: set<string>)
    requires LeavesPins(decisions) && DecisionSchema(decisions, phaseId).Ok? && (contract.Some? || explicit.Some?)
    requires var s := Composed(contract, explicit, DecisionSchema(decisions, phaseId).value, !decisions.allowMissing);
             s.Ok? && Valid(p, s.value) && Decided(p)
    ensures var d := DecisionSchema(decisions, phaseId).value;
            var schema := Composed(contract, explicit, d, !decisions.allowMissing).value;
            var n := Normalized(Without(p, deleted), phaseId, schema);
            && n == WithDecision(p, Restored(DecisionOf(p), Known(p, phaseId, schema), deleted))
            && "verdict" in DecisionOf(p)
            && ("verdict" in DecisionOf(n) <==> "verdict" !in deleted || DerivedVerdict(p, schema).Some?)
            && ("verdict" in DecisionOf(n) ==> DecisionOf(n)["verdict"] == DecisionOf(p)["verdict"])
  {
    ComposedDecision(decisions, phaseId);
    var d := DecisionSchema(decisions, phaseId).value;
    ComposedHasShape(contract, explicit, d, !decisions.allowMissing, phaseId);
    RestoresDecision(p, phaseId, Composed(contract, explicit, d, !decisions.allowMissing).value, deleted);
  }

  lemma SummaryNotEmpty(p: Json)
    ensures SummaryReason(p).Some? ==> SummaryReason(p).value != ""
  {
  }

  /** `declared` stands for the decision's properties, and `source` for the branches unless they are `dropped`. */
  lemma RestoredUnder(
    p: Json, phaseId: string, schema: Json, deleted: set<string>, declared: map<string, Json>, dropped: bool,
    source: Json)
    requires ResponseShape(schema, phaseId) && Explicit(schema) && Valid(p, schema) && Decided(p)
    requires Refillable(Properties(Part(schema)), deleted, SummaryReason(p)) <==>
             Refillable(declared, deleted, SummaryReason(p))
    requires BranchesAt(schema, "oneOf") == if dropped then None else BranchesAt(source, "oneOf")
    requires BranchesAt(schema, "anyOf") == if dropped then None else BranchesAt(source, "anyOf")
    ensures var known := Known(p, phaseId, schema);
            var lost, changed := Lost(DecisionOf(p), known, deleted), Changed(known, deleted);
            Valid(Normalized(Without(p, deleted), phaseId, schema), schema) <==>
            && (forall k :: k in lost ==> !Requires(Part(schema), k))
            && Refillable(declared, deleted, SummaryReason(p))
            && (!dropped ==> BranchesTake(source, p, lost, changed))
  {
    RestoresMechanicalFields(p, phaseId, schema, deleted);
    AcceptsIff(p, phaseId, schema, deleted);
    var known := Known(p, phaseId, schema);
    if !dropped {
      SameBranchesTake(schema, source, p, Lost(DecisionOf(p), known, deleted), Changed(known, deleted));
    }
  }

  /**
   The normalized response is valid if and only if the decision schema requires
   no lost field, what the decision contract itself declares of a deleted
   confidence, risk or reason accepts the runner's value, and so do the branches
   of the explicit schema, unless an output contract has dropped them.
   */
  lemma ComposedResponsesAreRestored(
    contract: Option<OutputContract>, explicit: Option<Json>, decisions: DecisionContract, phaseId: string,
    p: Json, deleted: set<string>)
    requires LeavesPins(decisions) && DecisionSchema(decisions, phaseId).Ok?
    requires contract.None? ==> explicit.Some? && Explicit(explicit.value)
    requires var s := Composed(contract, explicit, DecisionSchema(decisions, phaseId).value, !decisions.allowMissing);
             s.Ok? && Valid(p, s.value) && Decided(p)
    ensures var d := DecisionSchema(decisions, phaseId).value;
            var schema := Composed(contract, explicit, d, !decisions.allowMissing).value;
            var known := Known(p, phaseId, schema);
            var lost, changed := Lost(DecisionOf(p), known, deleted), Changed(known, deleted);
            Valid(Normalized(Without(p, deleted), phaseId, schema), schema) <==>
            && (forall k :: k in lost ==> !Requires(d, k))
            && Refillable(Declared(decisions), deleted, SummaryReason(p))
            && (contract.None? ==> BranchesTake(explicit.value, p, lost, changed))
  {
    SummaryNotEmpty(p);
    DecisionSchemaHasShape(decisions, phaseId, deleted, SummaryReason(p));
    var d := DecisionSchema(decisions, phaseId).value;
    ComposedHasShape(contract, explicit, d, !decisions.allowMissing, phaseId);
    RestoredUnder(p, phaseId, Composed(contract, explicit, d, !decisions.allowMissing).value, deleted,
                  Declared(decisions), contract.Some?, explicit.GetOr(Null));
  }

  // ---- the derived verdict ----

  /** Adding the decision to a schema leaves its branches alone. */
  lemma ResponseKeepsBranches(output: Json, decision: Json, required: bool)
    ensures ResponseSchema(output, decision, required).Ok? ==>
              Branches(ResponseSchema(output, decision, required).value) == Branches(output)
  {
  }

  lemma ResponseComposes(output: Json, decision: Json, required: bool)
    requires output.Get("properties").Some? && output.Get("properties").value.Obj?
    ensures ResponseSchema(output, decision, required).Ok?
  {
  }

  lemma FieldsApply(c: OutputContract)
    ensures var s := ApplyContractFields(ContractBase(c.kind), c.fields, c.requiredFields);
            && s.Ok? && s.value.Get("properties").Some? && s.value.Get("properties").value.Obj?
            && s.value.Get("required").Some? && s.value.Get("required").value.Arr?
  {
  }

  lemma ContractSchemaOk(c: OutputContract, explicit: Option<Json>) returns (output: Json)
    ensures OutputSchema(Some(c), explicit) == Ok(Some(output))
    ensures output.Get("properties").Some? && output.Get("properties").value.Obj?
  {
    FieldsApply(c);
    var s := ApplyContractFields(ContractBase(c.kind), c.fields, c.requiredFields).value;
    output := OutputSchema(Some(c), explicit).value.value;
  }

  /** With a contract composition succeeds, and the result has no branches. */
  lemma ContractComposes(c: OutputContract, explicit: Option<Json>, decision: Json, required: bool)
    ensures Composed(Some(c), explicit, decision, required).Ok?
    ensures Branches(Composed(Some(c), explicit, decision, required).value) == None
  {
    var output := ContractSchemaOk(c, explicit);
    NoContractBranches(c, explicit, output);
    ResponseComposes(output, decision, required);
    ResponseKeepsBranches(output, decision, required);
  }

  lemma NoContractBranches(c: OutputContract, explicit: Option<Json>, output: Json)
    requires OutputSchema(Some(c), explicit) == Ok(Some(output))
    ensures Branches(output) == None
  {
    ContractDropsBranches(c, explicit);
  }

  /**
   What composition does to the derived verdict: without an output contract it
   is the one the explicit schema gives, and with one it is never derived,
   because merging keeps an explicit schema's properties and drops its branches.
   */
  lemma ComposedVerdict(
    contract: Option<OutputContract>, explicit: Option<Json>, decision: Json, required: bool, p: Json)
    requires contract.Some? || explicit.Some?
    requires Composed(contract, explicit, decision, required).Ok?
    ensures DerivedVerdict(p, Composed(contract, explicit, decision, required).value) ==
            if contract.Some? then None else DerivedVerdict(p, explicit.value)
  {
    if contract.Some? {
      ContractComposes(contract.value, explicit, decision, required);
    } else {
      ResponseKeepsBranches(explicit.value, decision, required);
    }
  }

  /** So composition keeps a schema's derivation exactly when there is no contract or nothing to derive. */
  lemma ContractsDeriveNoVerdict(
    contract: Option<OutputContract>, explicit: Json, decision: Json, required: bool, p: Json)
    requires Composed(contract, Some(explicit), decision, required).Ok?
    ensures DerivedVerdict(p, Composed(contract, Some(explicit), decision, required).value) ==
            DerivedVerdict(p, explicit) <==>
            contract.None? || DerivedVerdict(p, explicit).None?
  {
    ComposedVerdict(contract, Some(explicit), decision, required, p);
  }

  /** A schema that pins the verdict of a merged outcome, as a review phase writes it. */
  function PinnedOutcome(): Json {
    Obj(map["const" := Str("merged")])
  }

  function PinnedVerdict(): Json {
    Obj(map["const" := Str("advance")])
  }

  function MergedBranch(): Json {
    Obj(map["properties" :=
      Obj(map["outcome" := PinnedOutcome(),
              "phase_decision" := Obj(map["properties" := Obj(map["verdict" := PinnedVerdict()])])])])
  }

  function ReviewSchema(): Json {
    Obj(map["type" := Str("object"), "required" := Arr([Str("outcome")]), "properties" := Obj(map[]),
            "oneOf" := Arr([MergedBranch()])])
  }

  function MergedPayload(): Json {
    Obj(map["kind" := Str("review"), "outcome" := Str("merged")])
  }

  lemma BranchPins()
    ensures PinnedAt(MergedBranch(), OUTCOME_PATH) == Some("merged")
    ensures PinnedAt(MergedBranch(), VERDICT_PATH) == Some("advance")
  {
    assert OUTCOME_PATH[1..] == ["outcome"] && ["outcome"][1..] == [];
    var b := MergedBranch();
    var properties := b.fields["properties"];
    assert properties.Pointer(["outcome"]) == PinnedOutcome().Pointer([]);
    assert b.Pointer(OUTCOME_PATH) == properties.Pointer(["outcome"]);
    var rest := ["phase_decision", "properties", "verdict"];
    assert VERDICT_PATH[1..] == rest && rest[1..] == ["properties", "verdict"];
    assert ["properties", "verdict"][1..] == ["verdict"] && ["verdict"][1..] == [];
    var part := properties.fields["phase_decision"];
    assert part.fields["properties"].Pointer(["verdict"]) == PinnedVerdict().Pointer([]);
    assert part.Pointer(["properties", "verdict"]) == part.fields["properties"].Pointer(["verdict"]);
    assert properties.Pointer(rest) == part.Pointer(["properties", "verdict"]);
  }

  lemma ReviewDerives()
    ensures DerivedVerdict(MergedPayload(), ReviewSchema()) == Some("advance")
  {
    var branches := [MergedBranch()];
    BranchPins();
    assert Matching(branches[1..], "merged") == [];
    assert Matching(branches, "merged") == branches;
    assert Branches(ReviewSchema()) == Some(branches) && MergedPayload().GetString("outcome") == Some("merged");
  }

  /** A response whose verdict the explicit schema gives and any output contract loses. */
  lemma ReviewVerdictIsLost(c: OutputContract, decision: Json, required: bool)
    ensures DerivedVerdict(MergedPayload(), ReviewSchema()) == Some("advance")
    ensures var s := Composed(Some(c), Some(ReviewSchema()), decision, required);
            s.Ok? && DerivedVerdict(MergedPayload(), s.value) == None
  {
    ReviewDerives();
    ContractComposes(c, Some(ReviewSchema()), decision, required);
  }

  // ---- a branch that narrows the risk ----

  function LowRisk(): Json {
    Obj(map["const" := Str("low")])
  }

  function NarrowPart(): Json {
    Obj(map["properties" := Obj(map["verdict" := PinnedVerdict(), "risk" := LowRisk()])])
  }

  function NarrowBranch(): Json {
    Obj(map["properties" := Obj(map["outcome" := PinnedOutcome(), "phase_decision" := NarrowPart()])])
  }

  /** A merged review must have low risk, although the decision contract allows any. */
  function NarrowSchema(): Json {
    Obj(map["type" := Str("object"), "properties" := Obj(map[]), "oneOf" := Arr([NarrowBranch()])])
  }

  const ANY_RISK := DecisionContract(High, false, [], None, false)

  function NarrowDecision(phaseId: string): map<string, Json> {
    map["kind" := Str("phase_decision"), "phase_id" := Str(phaseId), "verdict" := Str("advance"),
        "confidence" := Num(1.0), "risk" := Str("low"), "reason" := Str("merged")]
  }

  function NarrowPayload(phaseId: string): Json {
    Obj(map["outcome" := Str("merged"), "phase_decision" := Obj(NarrowDecision(phaseId))])
  }

  lemma ConstAccepts(v: Json, w: Json)
    ensures Valid(w, Obj(map["const" := v])) <==> w == v
  {
    var s := Obj(map["const" := v]);
    assert TypeOk(w, s.fields) && RangeOk(w, s.fields) && RequiredOk(w, s.fields);
    assert PropertiesOk(w, s) && ItemsOk(w, s) && OneOfOk(w, s) && AnyOfOk(w, s);
    assert ValueOk(w, s.fields) <==> w == v;
  }

  lemma EnumAccepts(values: seq<Json>, w: Json)
    requires w in values
    ensures Valid(w, Obj(map["enum" := Arr(values)]))
  {
    var s := Obj(map["enum" := Arr(values)]);
    assert TypeOk(w, s.fields) && RangeOk(w, s.fields) && RequiredOk(w, s.fields) && ValueOk(w, s.fields);
    assert PropertiesOk(w, s) && ItemsOk(w, s) && OneOfOk(w, s) && AnyOfOk(w, s);
  }

  lemma FullConfidence()
    ensures Valid(Num(1.0), Range(0.0, 1.0))
  {
    var s, v := Range(0.0, 1.0), Num(1.0);
    assert TypeOk(v, s.fields) && ValueOk(v, s.fields) && RangeOk(v, s.fields) && RequiredOk(v, s.fields);
    assert PropertiesOk(v, s) && ItemsOk(v, s) && OneOfOk(v, s) && AnyOfOk(v, s);
  }

  /** What the base schema says of the six fields. */
  lemma BaseProperties(phaseId: string)
    ensures var properties := Properties(DecisionBase(ANY_RISK, phaseId));
            && DECISION_FIELDS <= properties.Keys
            && properties["kind"] == Obj(map["const" := Str("phase_decision")])
            && properties["phase_id"] == Obj(map["const" := Str(phaseId)])
            && properties["verdict"] == Obj(map["enum" := Arr(Strs(VERDICTS))])
            && properties["confidence"] == Range(0.0, 1.0)
            && properties["risk"] == Obj(map["enum" := Arr(Strs(AllowedRisks(High)))])
            && properties["reason"] == NonEmptyText()
  {
  }

  const VERDICTS := ["advance", "rework", "fail", "skip"]

  lemma NarrowNames()
    ensures Str("advance") in Strs(VERDICTS) && Str("low") in Strs(AllowedRisks(High))
  {
    StrsIn(VERDICTS, "advance");
    StrsIn(AllowedRisks(High), "low");
    assert VERDICTS[0] == "advance" && AllowedRisks(High)[0] == "low";
  }

  lemma NarrowFieldsValid(properties: map<string, Json>, phaseId: string)
    requires DECISION_FIELDS <= properties.Keys
    requires properties["kind"] == Obj(map["const" := Str("phase_decision")])
    requires properties["phase_id"] == Obj(map["const" := Str(phaseId)])
    requires properties["verdict"] == Obj(map["enum" := Arr(Strs(VERDICTS))])
    requires properties["confidence"] == Range(0.0, 1.0)
    requires properties["risk"] == Obj(map["enum" := Arr(Strs(AllowedRisks(High)))])
    requires properties["reason"] == NonEmptyText()
    ensures forall k :: k in NarrowDecision(phaseId) && k in properties ==>
                        Valid(NarrowDecision(phaseId)[k], properties[k])
  {
    NarrowNames();
    ConstAccepts(Str("phase_decision"), Str("phase_decision"));
    ConstAccepts(Str(phaseId), Str(phaseId));
    EnumAccepts(Strs(VERDICTS), Str("advance"));
    EnumAccepts(Strs(AllowedRisks(High)), Str("low"));
    FullConfidence();
    NonEmptyAccepts("merged");
    forall k | k in NarrowDecision(phaseId)
      ensures k in properties && Valid(NarrowDecision(phaseId)[k], properties[k])
    {
      assert k in DECISION_FIELDS;
    }
  }

  /** Without fields of its own a contract leaves the schema as it is. */
  lemma NothingApplied(d: Json)
    requires d.Get("properties").Some? && d.Get("properties").value.Obj? && d.GetArray("required").Some?
    ensures ApplyContractFields(d, [], []) == Ok(d)
  {
    assert AnyValue([]) + FieldSchemas([]) == map[];
    assert Properties(d) + map[] == Properties(d);
    assert Put(d, "properties", Obj(Properties(d))) == d;
    assert Strs([]) + Strs(RequiredNames([])) == [];
    assert Put(d, "required", Arr(d.GetArray("required").value)) == d;
  }

  lemma BaseIsSchema(phaseId: string)
    ensures DecisionSchema(ANY_RISK, phaseId) == Ok(DecisionBase(ANY_RISK, phaseId))
    ensures DecisionBase(ANY_RISK, phaseId).Get("type") == Some(Str("object"))
    ensures forall n :: Requires(DecisionBase(ANY_RISK, phaseId), n) ==> n in DECISION_NAMES
  {
    NothingApplied(DecisionBase(ANY_RISK, phaseId));
    forall n | Requires(DecisionBase(ANY_RISK, phaseId), n) ensures n in DECISION_NAMES {
      assert DECISION_NAMES + [] == DECISION_NAMES;
      StrsIn(DECISION_NAMES, n);
    }
  }

  lemma NarrowDecisionValid(phaseId: string)
    ensures Valid(Obj(NarrowDecision(phaseId)), DecisionBase(ANY_RISK, phaseId))
  {
    var d := DecisionBase(ANY_RISK, phaseId);
    BaseIsSchema(phaseId);
    BaseHasShape(ANY_RISK, phaseId);
    BaseProperties(phaseId);
    NarrowFieldsValid(Properties(d), phaseId);
    FieldwiseIff(NarrowDecision(phaseId), d);
    assert forall n :: n in DECISION_NAMES ==> n in NarrowDecision(phaseId);
    assert TypeOk(Obj(NarrowDecision(phaseId)), d.fields);
  }

  lemma NarrowPartValid(phaseId: string)
    ensures Fieldwise(NarrowPart()) && Valid(Obj(NarrowDecision(phaseId)), NarrowPart())
  {
    ConstAccepts(Str("advance"), Str("advance"));
    ConstAccepts(Str("low"), Str("low"));
    assert Properties(NarrowPart()) == map["verdict" := PinnedVerdict(), "risk" := LowRisk()];
    assert NarrowPart().GetArray("required") == None;
    FieldwiseIff(NarrowDecision(phaseId), NarrowPart());
  }

  lemma NarrowBranchShape()
    ensures BranchShape(NarrowBranch()) && Part(NarrowBranch()) == NarrowPart()
    ensures Properties(NarrowBranch()) == map["outcome" := PinnedOutcome(), "phase_decision" := NarrowPart()]
    ensures NarrowBranch().GetArray("required") == None && NarrowBranch().Get("type") == None
  {
  }

  lemma NarrowBranchValid(phaseId: string)
    ensures Valid(NarrowPayload(phaseId), NarrowBranch())
  {
    NarrowBranchShape();
    NarrowPartValid(phaseId);
    ConstAccepts(Str("merged"), Str("merged"));
    FieldwiseIff(NarrowPayload(phaseId).fields, NarrowBranch());
  }

  lemma NarrowBranchPins()
    ensures PinnedAt(NarrowBranch(), OUTCOME_PATH) == Some("merged")
  {
    assert OUTCOME_PATH[1..] == ["outcome"] && ["outcome"][1..] == [];
    var properties := NarrowBranch().fields["properties"];
    assert properties.Pointer(["outcome"]) == PinnedOutcome().Pointer([]);
    assert NarrowBranch().Pointer(OUTCOME_PATH) == properties.Pointer(["outcome"]);
  }

  /** What the runner composes: the decision schema beside the branch. */
  function NarrowResponse(d: Json): Json {
    Obj(map["type" := Str("object"), "required" := Arr([Str("phase_decision")]),
            "properties" := Obj(map["phase_decision" := d]), "oneOf" := Arr([NarrowBranch()])])
  }

  lemma NarrowComposes(d: Json)
    ensures Composed(None, Some(NarrowSchema()), d, true) == Ok(NarrowResponse(d))
  {
    assert map[] + map["phase_decision" := d] == map["phase_decision" := d];
    var s := WithProperties(NarrowSchema(), map["phase_decision" := d]).value;
    assert s.Get("required") == None;
    assert Put(s, "required", Arr([Str("phase_decision")])).fields == NarrowResponse(d).fields;
  }

  lemma NarrowKeywords(d: Json)
    ensures var s := NarrowResponse(d);
            && FieldwiseOnly(s) && Properties(s) == map["phase_decision" := d] && Part(s) == d
            && s.Get("type") == Some(Str("object")) && s.GetArray("required") == Some([Str("phase_decision")])
            && BranchesAt(s, "oneOf") == Some([NarrowBranch()]) && BranchesAt(s, "anyOf") == None
  {
  }

  lemma NarrowValid(d: Json, phaseId: string)
    requires Valid(Obj(NarrowDecision(phaseId)), d)
    ensures Valid(NarrowPayload(phaseId), NarrowResponse(d))
  {
    var p, s := NarrowPayload(phaseId), NarrowResponse(d);
    NarrowKeywords(d);
    NarrowBranchValid(phaseId);
    assert Accepting([NarrowBranch()], p)[0];
    OneOfIs(p, s);
    AnyOfIs(p, s);
    RequiredIff(p.fields, s);
    assert PropertiesOk(p, s) && ItemsOk(p, s);
    assert TypeOk(p, s.fields) && ValueOk(p, s.fields) && RangeOk(p, s.fields);
  }

  lemma NarrowShape(d: Json, phaseId: string)
    requires DecisionShape(d, phaseId)
    ensures var p, s := NarrowPayload(phaseId), NarrowResponse(d);
            && ResponseShape(s, phaseId) && Explicit(s)
            && PinnedUnder(s, "oneOf", p, 0) && PinnedUnder(s, "anyOf", p, 0)
            && PartUnder(s, "oneOf", 0) == NarrowPart()
            && "risk" in Properties(NarrowPart()) && Properties(NarrowPart())["risk"] == LowRisk()
  {
    NarrowKeywords(d);
    NarrowBranchShape();
    NarrowBranchPins();
    assert NarrowPayload(phaseId).GetString("outcome") == Some("merged");
  }

  /** The response is valid, and no longer so when its risk is deleted and filled in. */
  predicate LosesRisk(p: Json, phaseId: string, schema: Json) {
    Decided(p) && Valid(p, schema) && !Valid(Normalized(Without(p, {"risk"}), phaseId, schema), schema)
  }

  lemma NarrowRefused(d: Json, phaseId: string)
    requires DecisionShape(d, phaseId) && Valid(Obj(NarrowDecision(phaseId)), d) && ConservativeRisk(d) == "high"
    ensures LosesRisk(NarrowPayload(phaseId), phaseId, NarrowResponse(d))
  {
    var p, s := NarrowPayload(phaseId), NarrowResponse(d);
    NarrowKeywords(d);
    NarrowValid(d, phaseId);
    NarrowShape(d, phaseId);
    ConstAccepts(Str("low"), Str("high"));
    RefusedRisk(p, phaseId, s, 0, 0);
  }

  lemma AnyRiskSchema(phaseId: string) returns (d: Json)
    ensures DecisionSchema(ANY_RISK, phaseId) == Ok(d) && Declared(ANY_RISK) == map[]
    ensures DecisionShape(d, phaseId) && Valid(Obj(NarrowDecision(phaseId)), d) && ConservativeRisk(d) == "high"
  {
    d := DecisionBase(ANY_RISK, phaseId);
    BaseIsSchema(phaseId);
    BaseHasShape(ANY_RISK, phaseId);
    NarrowDecisionValid(phaseId);
    HighIsRiskiest(phaseId);
  }

  lemma HighIsRiskiest(phaseId: string)
    ensures ConservativeRisk(DecisionBase(ANY_RISK, phaseId)) == "high"
  {
    var d := DecisionBase(ANY_RISK, phaseId);
    BaseProperties(phaseId);
    PointerOfThree(d, "risk", "enum");
    var names := AllowedRisks(High);
    StrsLength(names);
    var values := Strs(names);
    assert values[|values| - 1] == Str("high") && RiskRank("high") == 2;
  }

  /**
   A response valid under a composed schema, from a decision contract that
   declares nothing: its risk is deleted, filled with "high", and refused by the
   branch of its outcome.
   */
  lemma NarrowedRiskIsNotRestored(phaseId: string) returns (d: Json, s: Json)
    ensures DecisionSchema(ANY_RISK, phaseId) == Ok(d) && Declared(ANY_RISK) == map[]
    ensures Composed(None, Some(NarrowSchema()), d, !ANY_RISK.allowMissing) == Ok(s)
    ensures LosesRisk(NarrowPayload(phaseId), phaseId, s)
  {
    d := AnyRiskSchema(phaseId);
    s := NarrowResponse(d);
    NarrowComposes(d);
    NarrowRefused(d, phaseId);
  }
}
