/**
 What normalization is for: a valid response that lost fields the runner can
 derive gets them back, and when that makes it valid again.
 */
module MechanicalFields {
  import opened Common
  import opened Json
  import opened JsonSchema
  import opened PhaseOutput
  import opened RuntimeContract
  import opened DecisionNormalization

  // ---- the shape of composed schemas ----

  /** No keyword that looks at the value as a whole. */
  predicate FieldwiseOnly(s: Json) {
    s.Obj? && "const" !in s.fields && "enum" !in s.fields
  }

  predicate NoBranches(s: Json) {
    s.Obj? && "oneOf" !in s.fields && "anyOf" !in s.fields
  }

  /** It speaks of an object field by field, or not at all. */
  predicate Fieldwise(s: Json) {
    s.Bool? || (FieldwiseOnly(s) && NoBranches(s))
  }

  predicate Requires(s: Json, name: string) {
    s.GetArray("required").Some? && Str(name) in s.GetArray("required").value
  }

  function Properties(s: Json): map<string, Json> {
    match s.Get("properties")
    case Some(Obj(p)) => p
    case _ => map[]
  }

  const DECISION_FIELDS := {"kind", "phase_id", "verdict", "confidence", "risk", "reason"}

  /** A decision schema that requires every field and pins kind and phase as the runner writes them. */
  predicate DecisionShape(d: Json, phaseId: string) {
    && FieldwiseOnly(d) && NoBranches(d)
    && DECISION_FIELDS <= Properties(d).Keys && (forall n :: n in DECISION_FIELDS ==> Requires(d, n))
    && Properties(d)["kind"] == Obj(map["const" := Str("phase_decision")])
    && Properties(d)["phase_id"] == Obj(map["const" := Str(phaseId)])
  }

  predicate ResponseShape(s: Json, phaseId: string) {
    "phase_decision" in Properties(s) && DecisionShape(Properties(s)["phase_decision"], phaseId)
  }

  /** What a schema or branch says of the decision. */
  function Part(b: Json): Json {
    if "phase_decision" in Properties(b) then Properties(b)["phase_decision"] else Bool(true)
  }

  predicate BranchShape(b: Json) {
    Fieldwise(b) && Fieldwise(Part(b))
  }

  /** The branches under a keyword, if it has any. */
  function BranchesAt(s: Json, keyword: string): Option<seq<Json>> {
    s.GetArray(keyword)
  }

  predicate BranchesShape(s: Json, keyword: string) {
    BranchesAt(s, keyword).Some? ==> forall b :: b in BranchesAt(s, keyword).value ==> BranchShape(b)
  }

  /** A schema that says nothing of the response as a whole, but in branches that go field by field. */
  predicate Explicit(s: Json) {
    FieldwiseOnly(s) && BranchesShape(s, "oneOf") && BranchesShape(s, "anyOf")
  }

  // ---- responses and their decisions ----

  predicate Decided(p: Json) {
    p.Obj? && "phase_decision" in p.fields && p.fields["phase_decision"].Obj?
  }

  function DecisionOf(p: Json): map<string, Json>
    requires Decided(p)
  {
    p.fields["phase_decision"].fields
  }

  function WithDecision(p: Json, decision: map<string, Json>): (q: Json)
    requires Decided(p)
    ensures Decided(q) && DecisionOf(q) == decision
  {
    Obj(p.fields["phase_decision" := Obj(decision)])
  }

  /** The response with fields of its decision deleted. */
  function Without(p: Json, deleted: set<string>): Json
    requires Decided(p)
  {
    WithDecision(p, DecisionOf(p) - deleted)
  }

  lemma HasDecisionFields(p: Json, schema: Json, phaseId: string)
    requires ResponseShape(schema, phaseId) && Valid(p, schema) && Decided(p)
    ensures DECISION_FIELDS <= DecisionOf(p).Keys
    ensures DecisionOf(p)["kind"] == Str("phase_decision") && DecisionOf(p)["phase_id"] == Str(phaseId)
  {
    var d, v := Properties(schema)["phase_decision"], p.fields["phase_decision"];
    assert PropertiesOk(p, schema) && Valid(v, d);
    assert RequiredOk(v, d.fields) && PropertiesOk(v, d);
    forall n | n in DECISION_FIELDS ensures n in DecisionOf(p) {
      assert Requires(d, n);
      var i :| 0 <= i < |d.fields["required"].items| && d.fields["required"].items[i] == Str(n);
    }
    assert Valid(v.fields["kind"], Properties(d)["kind"]) && Valid(v.fields["phase_id"], Properties(d)["phase_id"]);
    assert ValueOk(v.fields["kind"], Properties(d)["kind"].fields);
    assert ValueOk(v.fields["phase_id"], Properties(d)["phase_id"].fields);
  }

  // ---- a derived verdict is the payload's own ----

  lemma PinnedIsValue(v: Json, property: Json)
    requires Valid(v, property) && PinnedString(property).Some?
    ensures v == Str(PinnedString(property).value)
  {
    assert ValueOk(v, property.fields);
  }

  lemma PinnedAtOutcome(branch: Json, p: Json)
    requires PinnedAt(branch, OUTCOME_PATH).Some? && Valid(p, branch) && p.Obj? && "outcome" in p.fields
    ensures p.fields["outcome"] == Str(PinnedAt(branch, OUTCOME_PATH).value)
  {
    assert OUTCOME_PATH[1..] == ["outcome"] && ["outcome"][1..] == [];
    assert branch.Pointer(OUTCOME_PATH) == branch.fields["properties"].Pointer(["outcome"]);
    var property := branch.fields["properties"].fields["outcome"];
    assert PropertiesOk(p, branch);
    PinnedIsValue(p.fields["outcome"], property);
  }

  lemma PinnedAtVerdict(branch: Json, p: Json)
    requires PinnedAt(branch, VERDICT_PATH).Some? && Valid(p, branch) && Decided(p) && "verdict" in DecisionOf(p)
    ensures DecisionOf(p)["verdict"] == Str(PinnedAt(branch, VERDICT_PATH).value)
  {
    var rest := ["phase_decision", "properties", "verdict"];
    assert VERDICT_PATH[1..] == rest && rest[1..] == ["properties", "verdict"];
    assert branch.Pointer(VERDICT_PATH) == branch.fields["properties"].Pointer(rest);
    var part := branch.fields["properties"].fields["phase_decision"];
    assert branch.fields["properties"].Pointer(rest) == part.Pointer(["properties", "verdict"]);
    assert ["properties", "verdict"][1..] == ["verdict"] && ["verdict"][1..] == [];
    assert part.Pointer(["properties", "verdict"]) == part.fields["properties"].Pointer(["verdict"]);
    var property := part.fields["properties"].fields["verdict"];
    assert PropertiesOk(p, branch) && Valid(p.fields["phase_decision"], part);
    assert PropertiesOk(p.fields["phase_decision"], part);
    PinnedIsValue(DecisionOf(p)["verdict"], property);
  }

  lemma {:induction false} OnlyMatch(branches: seq<Json>, outcome: string, b: Json)
    requires b in branches && PinnedAt(b, OUTCOME_PATH) == Some(outcome)
    ensures b in Matching(branches, outcome)
  {
    if branches[0] != b { OnlyMatch(branches[1..], outcome, b); }
  }

  /** Some branch of a valid response's schema accepts it. */
  lemma SomeBranch(p: Json, schema: Json) returns (b: Json)
    requires Valid(p, schema) && Branches(schema).Some?
    ensures b in Branches(schema).value && Valid(p, b)
  {
    if "oneOf" in schema.fields {
      assert OneOfOk(p, schema);
      var i :| 0 <= i < |schema.fields["oneOf"].items| && Valid(p, schema.fields["oneOf"].items[i]);
      b := schema.fields["oneOf"].items[i];
    } else {
      assert AnyOfOk(p, schema);
      var i :| 0 <= i < |schema.fields["anyOf"].items| && Valid(p, schema.fields["anyOf"].items[i]);
      b := schema.fields["anyOf"].items[i];
    }
  }

  /** A verdict derived for a valid response is the verdict it states. */
  lemma DerivedIsOriginal(p: Json, schema: Json)
    requires Valid(p, schema) && Decided(p) && "verdict" in DecisionOf(p) && DerivedVerdict(p, schema).Some?
    ensures DecisionOf(p)["verdict"] == Str(DerivedVerdict(p, schema).value)
  {
    var outcome, branches := p.GetString("outcome").value, Branches(schema).value;
    var b := SomeBranch(p, schema);
    assert PinnedAt(b, OUTCOME_PATH).Some?;
    PinnedAtOutcome(b, p);
    OnlyMatch(branches, outcome, b);
    PinnedAtVerdict(b, p);
  }

  // ---- what the runner fills in ----

  /** What the runner knows of a decision, from the schemas and the rest of the response. */
  function Known(p: Json, phaseId: string, schema: Json): map<string, Json> {
    Filled(map[], Fills(p, phaseId, schema, Part(schema)))
  }

  lemma KnownValues(p: Json, phaseId: string, schema: Json)
    ensures var known, d := Known(p, phaseId, schema), Part(schema);
            && known.Keys <= DECISION_FIELDS
            && "kind" in known && known["kind"] == Str("phase_decision")
            && "phase_id" in known && known["phase_id"] == Str(phaseId)
            && "confidence" in known && known["confidence"] == Num(MinimumConfidence(d))
            && "risk" in known && known["risk"] == Str(ConservativeRisk(d))
            && ("verdict" in known <==> DerivedVerdict(p, schema).Some?)
            && ("verdict" in known ==> known["verdict"] == Str(DerivedVerdict(p, schema).value))
            && ("reason" in known <==> SummaryReason(p).Some?)
            && ("reason" in known ==> known["reason"] == Str(SummaryReason(p).value))
  {
    var fills := Fills(p, phaseId, schema, Part(schema));
    FilledKeeps(map[], fills);
    assert fills[0].name == "kind" && fills[1].name == "phase_id" && fills[2].name == "verdict";
    assert fills[3].name == "reason" && fills[4].name == "confidence" && fills[5].name == "risk";
  }

  /** Filling in puts what is known under what is there. */
  lemma {:induction false} FilledIsKnown(had: map<string, Json>, fills: seq<Fill>)
    ensures Filled(had, fills) == Filled(map[], fills) + had
    decreases |fills|
  {
    if fills != [] {
      var f, rest := fills[0], fills[1..];
      FilledIsKnown(had, rest);
      FilledIsKnown(map[], rest);
      if f.value.Some? {
        FilledIsKnown(map[f.name := f.value.value], rest);
        FilledIsKnown(had[f.name := f.value.value], rest);
      }
    }
  }

  lemma DecisionSchemaIs(schema: Json)
    requires "phase_decision" in Properties(schema)
    ensures schema.Pointer(["properties", "phase_decision"]) == Some(Part(schema))
  {
    assert ["properties", "phase_decision"][1..] == ["phase_decision"] && ["phase_decision"][1..] == [];
    assert schema.fields["properties"].Pointer(["phase_decision"]) == Some(Part(schema));
  }

  /** Normalizing a response that has a decision. */
  lemma NormalizedDecision(p: Json, phaseId: string, schema: Json, deleted: set<string>)
    requires "phase_decision" in Properties(schema) && Decided(p)
    ensures Normalized(Without(p, deleted), phaseId, schema) ==
            WithDecision(p, Known(p, phaseId, schema) + (DecisionOf(p) - deleted))
  {
    var w := Without(p, deleted);
    DecisionSchemaIs(schema);
    assert w.Get("outcome") == p.Get("outcome") && w.Get("summary") == p.Get("summary");
    SameFills(w, p, phaseId, schema);
    FilledIsKnown(DecisionOf(p) - deleted, Fills(p, phaseId, schema, Part(schema)));
    assert w.fields["phase_decision" := Obj(Known(p, phaseId, schema) + (DecisionOf(p) - deleted))] ==
           p.fields["phase_decision" := Obj(Known(p, phaseId, schema) + (DecisionOf(p) - deleted))];
  }

  /** Without any decision, one is built of what is known if verdict and reason are. */
  lemma MissingDecisionIsBuilt(p: Json, phaseId: string, schema: Json)
    requires "phase_decision" in Properties(schema) && Decided(p)
    ensures Normalized(Undecided(p), phaseId, schema) ==
            if DerivedVerdict(p, schema).Some? && SummaryReason(p).Some?
            then Normalized(Without(p, DecisionOf(p).Keys), phaseId, schema) else Undecided(p)
  {
    SameKnowledge(p);
    DecisionSchemaIs(schema);
    if Mechanical(p, schema) {
      NormalizedDecision(p, phaseId, schema, DecisionOf(p).Keys);
      assert DecisionOf(p) - DecisionOf(p).Keys == map[];
      BuiltDecision(p, phaseId, schema);
    }
  }

  lemma BuiltDecision(p: Json, phaseId: string, schema: Json)
    requires "phase_decision" in Properties(schema) && Decided(p) && Mechanical(p, schema)
    ensures Normalized(Undecided(p), phaseId, schema) == WithDecision(p, Known(p, phaseId, schema))
  {
    SameKnowledge(p);
    DecisionSchemaIs(schema);
    SameFills(Undecided(p), p, phaseId, schema);
    assert Undecided(p).fields["phase_decision" := Obj(Known(p, phaseId, schema))] ==
           p.fields["phase_decision" := Obj(Known(p, phaseId, schema))];
  }

  /** The response without a decision. */
  function Undecided(p: Json): Json
    requires p.Obj?
  {
    Obj(p.fields - {"phase_decision"})
  }

  lemma SameKnowledge(p: Json)
    requires p.Obj?
    ensures var q := Undecided(p);
            && q.Get("outcome") == p.Get("outcome") && q.GetString("outcome") == p.GetString("outcome")
            && q.Get("summary") == p.Get("summary") && q.GetString("summary") == p.GetString("summary")
            && q.Get("phase_decision") == None
  {
  }

  // ---- the restored decision ----

  /** The fields that the runner fills with values of its own, which need not be those deleted. */
  const OWN_VALUES := {"confidence", "risk", "reason"}

  function Changed(known: map<string, Json>, deleted: set<string>): map<string, Json> {
    map k | k in known && k in deleted && k in OWN_VALUES :: known[k]
  }

  /** The fields deleted of which the runner knows nothing. */
  function Lost(had: map<string, Json>, known: map<string, Json>, deleted: set<string>): set<string> {
    had.Keys * deleted - known.Keys
  }

  /** The decision `had` after deleting and normalizing. */
  function Restored(had: map<string, Json>, known: map<string, Json>, deleted: set<string>): map<string, Json> {
    (had - Lost(had, known, deleted)) + Changed(known, deleted)
  }

  lemma KnownIsOriginal(p: Json, phaseId: string, schema: Json)
    requires ResponseShape(schema, phaseId) && Valid(p, schema) && Decided(p)
    ensures Known(p, phaseId, schema).Keys <= DECISION_FIELDS <= DecisionOf(p).Keys
    ensures forall k :: k in Known(p, phaseId, schema) && k !in OWN_VALUES ==>
                        Known(p, phaseId, schema)[k] == DecisionOf(p)[k]
  {
    HasDecisionFields(p, schema, phaseId);
    KnownValues(p, phaseId, schema);
    if DerivedVerdict(p, schema).Some? { DerivedIsOriginal(p, schema); }
  }

  lemma RestoredIs(had: map<string, Json>, known: map<string, Json>, deleted: set<string>)
    requires known.Keys <= had.Keys
    requires forall k :: k in known && k !in OWN_VALUES ==> known[k] == had[k]
    ensures known + (had - deleted) == Restored(had, known, deleted)
  {
  }

  lemma RestoredVerdict(had: map<string, Json>, known: map<string, Json>, deleted: set<string>)
    requires "verdict" in had
    ensures var e := Restored(had, known, deleted);
            && ("verdict" in e <==> "verdict" !in deleted || "verdict" in known)
            && ("verdict" in e ==> e["verdict"] == had["verdict"])
  {
  }

  /**
   Take a response valid under a schema of this shape, whatever its branches,
   and delete any fields of its decision. Normalizing gives the decision back,
   but for the fields of which the runner knows nothing and for its own values of
   a deleted confidence, risk and reason. A deleted verdict comes back, as it
   was, exactly when the outcome determines one.
   */
  lemma RestoresDecision(p: Json, phaseId: string, schema: Json, deleted: set<string>)
    requires ResponseShape(schema, phaseId) && Valid(p, schema) && Decided(p)
    ensures var n := Normalized(Without(p, deleted), phaseId, schema);
            && n == WithDecision(p, Restored(DecisionOf(p), Known(p, phaseId, schema), deleted))
            && "verdict" in DecisionOf(p)
            && ("verdict" in DecisionOf(n) <==> "verdict" !in deleted || DerivedVerdict(p, schema).Some?)
            && ("verdict" in DecisionOf(n) ==> DecisionOf(n)["verdict"] == DecisionOf(p)["verdict"])
  {
    var had, known := DecisionOf(p), Known(p, phaseId, schema);
    NormalizedDecision(p, phaseId, schema, deleted);
    KnownIsOriginal(p, phaseId, schema);
    KnownValues(p, phaseId, schema);
    RestoredIs(had, known, deleted);
    RestoredVerdict(had, known, deleted);
  }

  // ---- schemas that go field by field ----

  predicate Accepts(properties: map<string, Json>, values: map<string, Json>) {
    forall k :: k in values && k in properties ==> Valid(values[k], properties[k])
  }

  /** It requires nothing that is lost, and accepts the values that are new. */
  predicate Takes(s: Json, lost: set<string>, changed: map<string, Json>) {
    (forall n :: n in lost ==> !Requires(s, n)) && Accepts(Properties(s), changed)
  }

  /** It accepts the rest of `had`. */
  predicate TakesRest(s: Json, had: map<string, Json>, lost: set<string>, changed: map<string, Json>) {
    match s
    case Bool(b) => b
    case Obj(keywords) =>
      && TypeOk(Obj(had), keywords) && RequiredOk(Obj(had), keywords)
      && forall k :: k in had && k !in lost && k !in changed && k in Properties(s) ==> Valid(had[k], Properties(s)[k])
    case _ => false
  }

  lemma RequiredIff(v: map<string, Json>, s: Json)
    requires s.Obj?
    ensures RequiredOk(Obj(v), s.fields) <==> forall n :: Requires(s, n) ==> n in v
  {
    if "required" in s.fields && s.fields["required"].Arr? {
      var names := s.fields["required"].items;
      forall n | RequiredOk(Obj(v), s.fields) && Requires(s, n) ensures n in v {
        var i :| 0 <= i < |names| && names[i] == Str(n);
      }
      forall i | (forall n :: Requires(s, n) ==> n in v) && 0 <= i < |names| && names[i].Str?
        ensures names[i].s in v
      {
        assert Requires(s, names[i].s);
      }
    }
  }

  lemma FieldwiseIff(v: map<string, Json>, s: Json)
    requires Fieldwise(s) && s.Obj?
    ensures Valid(Obj(v), s) <==>
            && TypeOk(Obj(v), s.fields) && (forall n :: Requires(s, n) ==> n in v)
            && forall k :: k in v && k in Properties(s) ==> Valid(v[k], Properties(s)[k])
  {
    RequiredIff(v, s);
    assert PropertiesOk(Obj(v), s) <==> forall k :: k in v && k in Properties(s) ==> Valid(v[k], Properties(s)[k]);
  }

  lemma PartIff(s: Json, had: map<string, Json>, lost: set<string>, changed: map<string, Json>)
    requires Fieldwise(s) && lost <= had.Keys && changed.Keys <= had.Keys && changed.Keys !! lost
    ensures Valid(Obj((had - lost) + changed), s) <==> TakesRest(s, had, lost, changed) && Takes(s, lost, changed)
    ensures Valid(Obj(had), s) ==> TakesRest(s, had, lost, changed)
  {
    if s.Obj? {
      FieldwiseIff((had - lost) + changed, s);
      FieldwiseIff(had, s);
      RequiredIff(had, s);
    }
  }

  // ---- branches ----

  predicate BranchTakesRest(b: Json, p: Json, lost: set<string>, changed: map<string, Json>)
    requires Decided(p)
  {
    match b
    case Bool(x) => x
    case Obj(keywords) =>
      && TypeOk(p, keywords) && RequiredOk(p, keywords)
      && (forall k :: k in p.fields && k != "phase_decision" && k in Properties(b) ==>
            Valid(p.fields[k], Properties(b)[k]))
      && TakesRest(Part(b), DecisionOf(p), lost, changed)
    case _ => false
  }

  /** The branch accepts the rest of the response, and takes the decision's new fields. */
  predicate BranchTakes(b: Json, p: Json, lost: set<string>, changed: map<string, Json>)
    requires Decided(p)
  {
    BranchTakesRest(b, p, lost, changed) && Takes(Part(b), lost, changed)
  }

  lemma BranchIff(b: Json, p: Json, lost: set<string>, changed: map<string, Json>)
    requires BranchShape(b) && Decided(p)
    requires lost <= DecisionOf(p).Keys && changed.Keys <= DecisionOf(p).Keys && changed.Keys !! lost
    ensures Valid(WithDecision(p, (DecisionOf(p) - lost) + changed), b) <==> BranchTakes(b, p, lost, changed)
    ensures Valid(p, b) ==> BranchTakesRest(b, p, lost, changed)
  {
    PartIff(Part(b), DecisionOf(p), lost, changed);
    if b.Obj? {
      var q := WithDecision(p, (DecisionOf(p) - lost) + changed);
      FieldwiseIff(p.fields, b);
      FieldwiseIff(q.fields, b);
      RequiredIff(p.fields, b);
      assert TypeOk(p, b.fields) == TypeOk(q, b.fields);
    }
  }

  predicate ExactlyOne(flags: seq<bool>) {
    exists i :: 0 <= i < |flags| && flags[i] && forall j :: 0 <= j < |flags| && j != i ==> !flags[j]
  }

  /** Which of the branches take the decision. */
  function Taken(bs: seq<Json>, p: Json, lost: set<string>, changed: map<string, Json>): seq<bool>
    requires Decided(p)
  {
    seq(|bs|, i requires 0 <= i < |bs| => BranchTakes(bs[i], p, lost, changed))
  }

  function Accepting(bs: seq<Json>, v: Json): seq<bool> {
    seq(|bs|, i requires 0 <= i < |bs| => Valid(v, bs[i]))
  }

  predicate OneTakes(s: Json, p: Json, lost: set<string>, changed: map<string, Json>)
    requires Decided(p)
  {
    BranchesAt(s, "oneOf").Some? ==> ExactlyOne(Taken(BranchesAt(s, "oneOf").value, p, lost, changed))
  }

  predicate SomeTakes(s: Json, p: Json, lost: set<string>, changed: map<string, Json>)
    requires Decided(p)
  {
    BranchesAt(s, "anyOf").Some? ==> true in Taken(BranchesAt(s, "anyOf").value, p, lost, changed)
  }

  /** Of `oneOf` exactly one branch, of `anyOf` at least one takes the decision. */
  predicate BranchesTake(s: Json, p: Json, lost: set<string>, changed: map<string, Json>)
    requires Decided(p)
  {
    OneTakes(s, p, lost, changed) && SomeTakes(s, p, lost, changed)
  }

  lemma OneOfFlags(v: Json, s: Json)
    requires s.Obj? && BranchesAt(s, "oneOf").Some? && OneOfOk(v, s)
    ensures ExactlyOne(Accepting(BranchesAt(s, "oneOf").value, v))
  {
    var bs := BranchesAt(s, "oneOf").value;
    var i :| 0 <= i < |bs| && Valid(v, bs[i]) && forall j :: 0 <= j < |bs| && j != i ==> !Valid(v, bs[j]);
    assert Accepting(bs, v)[i];
  }

  lemma FlagsOneOf(v: Json, s: Json)
    requires s.Obj? && BranchesAt(s, "oneOf").Some? && ExactlyOne(Accepting(BranchesAt(s, "oneOf").value, v))
    ensures OneOfOk(v, s)
  {
    var bs := BranchesAt(s, "oneOf").value;
    var flags := Accepting(bs, v);
    var i :| 0 <= i < |flags| && flags[i] && forall j :: 0 <= j < |flags| && j != i ==> !flags[j];
    forall j | 0 <= j < |bs| && j != i ensures !Valid(v, bs[j]) { assert !flags[j]; }
    assert Valid(v, s.fields["oneOf"].items[i]);
  }

  lemma OneOfIs(v: Json, s: Json)
    requires s.Obj?
    ensures OneOfOk(v, s) <==>
            (BranchesAt(s, "oneOf").Some? ==> ExactlyOne(Accepting(BranchesAt(s, "oneOf").value, v)))
  {
    if BranchesAt(s, "oneOf").Some? {
      if OneOfOk(v, s) { OneOfFlags(v, s); }
      if ExactlyOne(Accepting(BranchesAt(s, "oneOf").value, v)) { FlagsOneOf(v, s); }
    }
  }

  lemma AnyOfIs(v: Json, s: Json)
    requires s.Obj?
    ensures AnyOfOk(v, s) <==>
            (BranchesAt(s, "anyOf").Some? ==> true in Accepting(BranchesAt(s, "anyOf").value, v))
  {
    if BranchesAt(s, "anyOf").Some? {
      var bs := BranchesAt(s, "anyOf").value;
      assert forall i :: 0 <= i < |bs| ==> Accepting(bs, v)[i] == Valid(v, s.fields["anyOf"].items[i]);
    }
  }

  lemma TakenIsAccepting(bs: seq<Json>, p: Json, q: Json, lost: set<string>, changed: map<string, Json>)
    requires (forall b :: b in bs ==> BranchShape(b)) && Decided(p)
    requires lost <= DecisionOf(p).Keys && changed.Keys <= DecisionOf(p).Keys && changed.Keys !! lost
    requires q == WithDecision(p, (DecisionOf(p) - lost) + changed)
    ensures Accepting(bs, q) == Taken(bs, p, lost, changed)
  {
    forall i | 0 <= i < |bs| ensures Valid(q, bs[i]) == BranchTakes(bs[i], p, lost, changed) {
      BranchIff(bs[i], p, lost, changed);
    }
  }

  lemma BranchesIff(s: Json, p: Json, q: Json, lost: set<string>, changed: map<string, Json>)
    requires Explicit(s) && Decided(p)
    requires lost <= DecisionOf(p).Keys && changed.Keys <= DecisionOf(p).Keys && changed.Keys !! lost
    requires q == WithDecision(p, (DecisionOf(p) - lost) + changed)
    ensures OneOfOk(q, s) && AnyOfOk(q, s) <==> BranchesTake(s, p, lost, changed)
  {
    OneOfIs(q, s);
    AnyOfIs(q, s);
    if BranchesAt(s, "oneOf").Some? { TakenIsAccepting(BranchesAt(s, "oneOf").value, p, q, lost, changed); }
    if BranchesAt(s, "anyOf").Some? { TakenIsAccepting(BranchesAt(s, "anyOf").value, p, q, lost, changed); }
  }

  /** Apart from the branches, a new decision is all that can make the response invalid. */
  lemma ResponseIff(p: Json, q: Json, s: Json)
    requires FieldwiseOnly(s) && "phase_decision" in Properties(s) && Decided(p) && Valid(p, s)
    requires Decided(q) && q == WithDecision(p, DecisionOf(q))
    ensures Valid(q, s) <==> Valid(Obj(DecisionOf(q)), Part(s)) && OneOfOk(q, s) && AnyOfOk(q, s)
  {
    assert PropertiesOk(p, s) && RequiredOk(p, s.fields);
    assert RequiredOk(q, s.fields) && TypeOk(q, s.fields);
    assert q.fields["phase_decision"] == Obj(DecisionOf(q));
    if Valid(Obj(DecisionOf(q)), Part(s)) {
      assert PropertiesOk(q, s);
    } else {
      assert !PropertiesOk(q, s);
    }
  }

  lemma DecisionIff(p: Json, s: Json, lost: set<string>, changed: map<string, Json>)
    requires Fieldwise(Part(s)) && "phase_decision" in Properties(s) && Decided(p) && Valid(p, s)
    requires lost <= DecisionOf(p).Keys && changed.Keys <= DecisionOf(p).Keys && changed.Keys !! lost
    ensures Valid(Obj((DecisionOf(p) - lost) + changed), Part(s)) <==> Takes(Part(s), lost, changed)
  {
    assert PropertiesOk(p, s);
    assert Valid(p.fields["phase_decision"], Part(s)) && p.fields["phase_decision"] == Obj(DecisionOf(p));
    PartIff(Part(s), DecisionOf(p), lost, changed);
  }

  // ---- when the response is valid again ----

  /**
   Take a response valid under a schema of this shape and delete any fields of
   its decision. The normalized response is valid if and only if the decision
   schema requires no field that is lost and accepts the runner's own values,
   and the branches take the new decision.
   */
  lemma RestoresMechanicalFields(p: Json, phaseId: string, schema: Json, deleted: set<string>)
    requires ResponseShape(schema, phaseId) && Explicit(schema) && Valid(p, schema) && Decided(p)
    ensures var known := Known(p, phaseId, schema);
            var lost, changed := Lost(DecisionOf(p), known, deleted), Changed(known, deleted);
            Valid(Normalized(Without(p, deleted), phaseId, schema), schema) <==>
            Takes(Part(schema), lost, changed) && BranchesTake(schema, p, lost, changed)
  {
    var known := Known(p, phaseId, schema);
    var lost, changed := Lost(DecisionOf(p), known, deleted), Changed(known, deleted);
    var n := Normalized(Without(p, deleted), phaseId, schema);
    RestoresDecision(p, phaseId, schema, deleted);
    KnownIsOriginal(p, phaseId, schema);
    ResponseIff(p, n, schema);
    DecisionIff(p, schema, lost, changed);
    BranchesIff(schema, p, n, lost, changed);
  }

  // ---- branches that pin outcomes ----

  /** Of these branches `bs[i]` alone pins the outcome of `p`, and each pins one. */
  predicate PinsAlone(bs: seq<Json>, p: Json, i: nat) {
    && i < |bs| && p.GetString("outcome").Some?
    && forall j :: 0 <= j < |bs| ==>
         PinnedAt(bs[j], OUTCOME_PATH).Some? && (PinnedAt(bs[j], OUTCOME_PATH) == p.GetString("outcome") <==> j == i)
  }

  lemma PinnedBranch(b: Json, p: Json, lost: set<string>, changed: map<string, Json>)
    requires PinnedAt(b, OUTCOME_PATH).Some? && Decided(p) && p.GetString("outcome").Some?
    requires BranchTakesRest(b, p, lost, changed)
    ensures PinnedAt(b, OUTCOME_PATH) == p.GetString("outcome")
  {
    assert OUTCOME_PATH[1..] == ["outcome"] && ["outcome"][1..] == [];
    assert b.Pointer(OUTCOME_PATH) == b.fields["properties"].Pointer(["outcome"]);
    var property := b.fields["properties"].fields["outcome"];
    assert property == Properties(b)["outcome"];
    PinnedIsValue(p.fields["outcome"], property);
  }

  /** Only the branch of the outcome can take the new decision, and it does so by its part on the decision alone. */
  lemma OnlyPinnedTakes(bs: seq<Json>, p: Json, i: nat, lost: set<string>, changed: map<string, Json>)
    requires PinsAlone(bs, p, i) && Decided(p) && (forall b :: b in bs ==> BranchShape(b))
    requires lost <= DecisionOf(p).Keys && changed.Keys <= DecisionOf(p).Keys && changed.Keys !! lost
    requires exists k :: 0 <= k < |bs| && Accepting(bs, p)[k]
    ensures forall j :: 0 <= j < |bs| && j != i ==> !BranchTakes(bs[j], p, lost, changed)
    ensures BranchTakes(bs[i], p, lost, changed) <==> Takes(Part(bs[i]), lost, changed)
  {
    forall j | 0 <= j < |bs| && BranchTakesRest(bs[j], p, lost, changed) ensures j == i {
      PinnedBranch(bs[j], p, lost, changed);
    }
    var k :| 0 <= k < |bs| && Accepting(bs, p)[k];
    BranchIff(bs[k], p, lost, changed);
  }

  /** The outcome's branch under each keyword that has branches. */
  predicate PinnedUnder(s: Json, keyword: string, p: Json, i: nat) {
    BranchesAt(s, keyword).Some? ==> PinsAlone(BranchesAt(s, keyword).value, p, i)
  }

  function PartUnder(s: Json, keyword: string, i: nat): Json {
    if BranchesAt(s, keyword).Some? && i < |BranchesAt(s, keyword).value| then Part(BranchesAt(s, keyword).value[i])
    else Bool(true)
  }

  lemma OnePinned(s: Json, p: Json, i: nat, lost: set<string>, changed: map<string, Json>)
    requires s.Obj? && BranchesShape(s, "oneOf") && Decided(p) && PinnedUnder(s, "oneOf", p, i) && OneOfOk(p, s)
    requires lost <= DecisionOf(p).Keys && changed.Keys <= DecisionOf(p).Keys && changed.Keys !! lost
    ensures OneTakes(s, p, lost, changed) <==> Takes(PartUnder(s, "oneOf", i), lost, changed)
  {
    OneOfIs(p, s);
    if BranchesAt(s, "oneOf").Some? {
      var bs := BranchesAt(s, "oneOf").value;
      assert exists k :: 0 <= k < |bs| && Accepting(bs, p)[k];
      OnlyPinnedTakes(bs, p, i, lost, changed);
      OnlyOne(Taken(bs, p, lost, changed), i);
    }
  }

  lemma OnlyOne(flags: seq<bool>, i: nat)
    requires i < |flags| && forall j :: 0 <= j < |flags| && j != i ==> !flags[j]
    ensures ExactlyOne(flags) <==> flags[i]
    ensures true in flags <==> flags[i]
  {
  }

  lemma SomePinned(s: Json, p: Json, i: nat, lost: set<string>, changed: map<string, Json>)
    requires s.Obj? && BranchesShape(s, "anyOf") && Decided(p) && PinnedUnder(s, "anyOf", p, i) && AnyOfOk(p, s)
    requires lost <= DecisionOf(p).Keys && changed.Keys <= DecisionOf(p).Keys && changed.Keys !! lost
    ensures SomeTakes(s, p, lost, changed) <==> Takes(PartUnder(s, "anyOf", i), lost, changed)
  {
    AnyOfIs(p, s);
    if BranchesAt(s, "anyOf").Some? {
      var bs := BranchesAt(s, "anyOf").value;
      assert exists k :: 0 <= k < |bs| && Accepting(bs, p)[k];
      OnlyPinnedTakes(bs, p, i, lost, changed);
      OnlyOne(Taken(bs, p, lost, changed), i);
    }
  }

  /**
   With branches that each pin an outcome, one of them that of the response, the
   normalized response is valid if and only if the decision schema and what that
   branch says of the decision require no lost field and accept the runner's own
   values.
   */
  lemma PinnedBranchDecides(p: Json, phaseId: string, schema: Json, deleted: set<string>, i: nat, j: nat)
    requires ResponseShape(schema, phaseId) && Explicit(schema) && Valid(p, schema) && Decided(p)
    requires PinnedUnder(schema, "oneOf", p, i) && PinnedUnder(schema, "anyOf", p, j)
    ensures var known := Known(p, phaseId, schema);
            var lost, changed := Lost(DecisionOf(p), known, deleted), Changed(known, deleted);
            Valid(Normalized(Without(p, deleted), phaseId, schema), schema) <==>
            && Takes(Part(schema), lost, changed)
            && Takes(PartUnder(schema, "oneOf", i), lost, changed)
            && Takes(PartUnder(schema, "anyOf", j), lost, changed)
  {
    var known := Known(p, phaseId, schema);
    var lost, changed := Lost(DecisionOf(p), known, deleted), Changed(known, deleted);
    RestoresMechanicalFields(p, phaseId, schema, deleted);
    KnownIsOriginal(p, phaseId, schema);
    assert OneOfOk(p, schema) && AnyOfOk(p, schema);
    OnePinned(schema, p, i, lost, changed);
    SomePinned(schema, p, j, lost, changed);
  }

  /** Whatever the decision schema allows, a deleted risk is lost where the outcome's branch refuses its fill. */
  lemma RefusedRisk(p: Json, phaseId: string, schema: Json, i: nat, j: nat)
    requires ResponseShape(schema, phaseId) && Explicit(schema) && Valid(p, schema) && Decided(p)
    requires PinnedUnder(schema, "oneOf", p, i) && PinnedUnder(schema, "anyOf", p, j)
    requires var properties := Properties(PartUnder(schema, "oneOf", i));
             "risk" in properties && !Valid(Str(ConservativeRisk(Part(schema))), properties["risk"])
    ensures !Valid(Normalized(Without(p, {"risk"}), phaseId, schema), schema)
  {
    KnownValues(p, phaseId, schema);
    PinnedBranchDecides(p, phaseId, schema, {"risk"}, i, j);
    var changed := Changed(Known(p, phaseId, schema), {"risk"});
    assert "risk" in changed && changed["risk"] == Str(ConservativeRisk(Part(schema)));
    assert !Accepts(Properties(PartUnder(schema, "oneOf", i)), changed);
  }

  lemma {:induction false} MatchingFinds(bs: seq<Json>, outcome: string, b: Json)
    requires b in Matching(bs, outcome)
    ensures PinnedAt(b, OUTCOME_PATH) == Some(outcome)
    ensures b in bs
  {
    if b !in Matching(bs[1..], outcome) { assert b == bs[0]; } else { MatchingFinds(bs[1..], outcome, b); }
  }

  lemma {:induction false} OneMatches(bs: seq<Json>, outcome: string, i: nat, j: nat)
    requires i < j < |bs| && PinnedAt(bs[i], OUTCOME_PATH) == PinnedAt(bs[j], OUTCOME_PATH) == Some(outcome)
    ensures |Matching(bs, outcome)| >= 2
  {
    if i > 0 {
      OneMatches(bs[1..], outcome, i - 1, j - 1);
    } else {
      OnlyMatch(bs[1..], outcome, bs[j]);
    }
  }

  /** Where a verdict is derived, one branch alone pins the outcome. */
  lemma DerivedPinsAlone(p: Json, schema: Json) returns (i: nat)
    requires DerivedVerdict(p, schema).Some?
    ensures PinsAlone(Branches(schema).value, p, i)
  {
    var bs, outcome := Branches(schema).value, p.GetString("outcome").value;
    MatchingFinds(bs, outcome, Matching(bs, outcome)[0]);
    i :| 0 <= i < |bs| && bs[i] == Matching(bs, outcome)[0];
    forall j | 0 <= j < |bs|
      ensures PinnedAt(bs[j], OUTCOME_PATH).Some?
      ensures PinnedAt(bs[j], OUTCOME_PATH) == Some(outcome) <==> j == i
    {
      assert bs[j] in bs;
      if PinnedAt(bs[j], OUTCOME_PATH) == Some(outcome) && j != i {
        OneMatches(bs, outcome, if i < j then i else j, if i < j then j else i);
      }
    }
  }

  lemma {:induction false} OneMatching(bs: seq<Json>, outcome: string, i: nat)
    requires i < |bs|
    requires forall j :: 0 <= j < |bs| ==> (PinnedAt(bs[j], OUTCOME_PATH) == Some(outcome) <==> j == i)
    ensures Matching(bs, outcome) == [bs[i]]
  {
    if i == 0 {
      NoneMatching(bs[1..], outcome);
    } else {
      OneMatching(bs[1..], outcome, i - 1);
    }
  }

  lemma {:induction false} NoneMatching(bs: seq<Json>, outcome: string)
    requires forall j :: 0 <= j < |bs| ==> PinnedAt(bs[j], OUTCOME_PATH) != Some(outcome)
    ensures Matching(bs, outcome) == []
  {
    if bs != [] { NoneMatching(bs[1..], outcome); }
  }

  /** And where one alone does, the verdict it pins is derived. */
  lemma PinnedAloneDerives(p: Json, schema: Json, i: nat)
    requires Branches(schema).Some? && PinsAlone(Branches(schema).value, p, i)
    ensures DerivedVerdict(p, schema) == PinnedAt(Branches(schema).value[i], VERDICT_PATH)
  {
    var bs := Branches(schema).value;
    OneMatching(bs, p.GetString("outcome").value, i);
    forall b | b in bs ensures PinnedAt(b, OUTCOME_PATH).Some? {
      var j :| 0 <= j < |bs| && bs[j] == b;
    }
  }

  // ---- branches that say nothing of the fields ----

  predicate Silent(b: Json, lost: set<string>, changed: map<string, Json>) {
    forall k :: k in lost + changed.Keys ==> k !in Properties(Part(b)) && !Requires(Part(b), k)
  }

  lemma SilentTakes(b: Json, p: Json, lost: set<string>, changed: map<string, Json>)
    requires BranchShape(b) && Decided(p) && Silent(b, lost, changed)
    ensures BranchTakes(b, p, lost, changed) <==> Valid(p, b)
  {
    if Part(b).Obj? { FieldwiseIff(DecisionOf(p), Part(b)); RequiredIff(DecisionOf(p), Part(b)); }
    if b.Obj? { FieldwiseIff(p.fields, b); RequiredIff(p.fields, b); }
  }

  predicate AllSilent(s: Json, keyword: string, lost: set<string>, changed: map<string, Json>) {
    BranchesAt(s, keyword).Some? ==> forall b :: b in BranchesAt(s, keyword).value ==> Silent(b, lost, changed)
  }

  lemma SilentAreTaken(bs: seq<Json>, p: Json, lost: set<string>, changed: map<string, Json>)
    requires Decided(p) && forall b :: b in bs ==> BranchShape(b) && Silent(b, lost, changed)
    ensures Taken(bs, p, lost, changed) == Accepting(bs, p)
  {
    forall i | 0 <= i < |bs| ensures BranchTakes(bs[i], p, lost, changed) == Valid(p, bs[i]) {
      SilentTakes(bs[i], p, lost, changed);
    }
  }

  lemma SilentBranchesTake(s: Json, p: Json, lost: set<string>, changed: map<string, Json>)
    requires Explicit(s) && Valid(p, s) && Decided(p)
    requires AllSilent(s, "oneOf", lost, changed) && AllSilent(s, "anyOf", lost, changed)
    ensures BranchesTake(s, p, lost, changed)
  {
    assert OneOfOk(p, s) && AnyOfOk(p, s);
    OneOfIs(p, s);
    AnyOfIs(p, s);
    if BranchesAt(s, "oneOf").Some? { SilentAreTaken(BranchesAt(s, "oneOf").value, p, lost, changed); }
    if BranchesAt(s, "anyOf").Some? { SilentAreTaken(BranchesAt(s, "anyOf").value, p, lost, changed); }
  }

  /** Branches that say nothing of a lost or new field leave the decision schema alone to decide. */
  lemma SilentBranchesDecideNothing(p: Json, phaseId: string, schema: Json, deleted: set<string>)
    requires ResponseShape(schema, phaseId) && Explicit(schema) && Valid(p, schema) && Decided(p)
    requires var known := Known(p, phaseId, schema);
             var lost, changed := Lost(DecisionOf(p), known, deleted), Changed(known, deleted);
             AllSilent(schema, "oneOf", lost, changed) && AllSilent(schema, "anyOf", lost, changed)
    ensures var known := Known(p, phaseId, schema);
            Valid(Normalized(Without(p, deleted), phaseId, schema), schema) <==>
            Takes(Part(schema), Lost(DecisionOf(p), known, deleted), Changed(known, deleted))
  {
    var known := Known(p, phaseId, schema);
    RestoresMechanicalFields(p, phaseId, schema, deleted);
    SilentBranchesTake(schema, p, Lost(DecisionOf(p), known, deleted), Changed(known, deleted));
  }

  lemma PointerOfThree(schema: Json, name: string, keyword: string)
    requires name in Properties(schema)
    ensures schema.Pointer(["properties", name, keyword]) == Properties(schema)[name].Get(keyword)
  {
    var path, rest := ["properties", name, keyword], [name, keyword];
    assert path[1..] == rest && rest[1..] == [keyword] && [keyword][1..] == [];
    var properties := Obj(Properties(schema));
    assert schema.Get("properties") == Some(properties);
    assert schema.Pointer(path) == properties.Pointer(rest);
    assert properties.Get(name) == Some(Properties(schema)[name]);
    assert properties.Pointer(rest) == Properties(schema)[name].Pointer([keyword]);
    PointerOfOne(Properties(schema)[name], keyword);
  }

  lemma PointerOfOne(v: Json, keyword: string)
    ensures v.Pointer([keyword]) == v.Get(keyword)
  {
    assert [keyword][1..] == [];
    if v.Get(keyword).Some? { assert v.Get(keyword).value.Pointer([]) == Some(v.Get(keyword).value); }
  }
}
