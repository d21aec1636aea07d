/** Composing the schema of a phase response from its contracts. */
module RuntimeContract {
  import opened Common
  import opened Json
  import opened PhaseOutput

  datatype FieldDef = FieldDef(
    fieldType: string,
    enumValues: seq<string>,
    items: Option<FieldDef>,
    fields: seq<NamedField>,
    required: bool)

  datatype NamedField = NamedField(name: string, definition: FieldDef)

  datatype OutputContract = OutputContract(kind: string, fields: seq<NamedField>, requiredFields: seq<string>)

  datatype DecisionContract = DecisionContract(
    maxRisk: Risk,
    requiresEvidence: bool,
    fields: seq<NamedField>,
    extra: Option<Json>,
    allowMissing: bool)

  datatype SchemaError = PropertiesNotObject | RequiredNotArray

  function Strs(names: seq<string>): seq<Json> {
    if names == [] then [] else [Str(names[0])] + Strs(names[1..])
  }

  /** Appends the entries that are not there yet. */
  function AddMissing(required: seq<Json>, extra: seq<Json>): (all: seq<Json>)
    ensures required <= all
    decreases |extra|
  {
    if extra == [] then required
    else AddMissing(if extra[0] in required then required else required + [extra[0]], extra[1..])
  }

  lemma {:induction false} AddedExactly(required: seq<Json>, extra: seq<Json>, x: Json)
    ensures x in AddMissing(required, extra) <==> x in required || x in extra
    decreases |extra|
  {
    if extra != [] {
      AddedExactly(if extra[0] in required then required else required + [extra[0]], extra[1..], x);
    }
  }

  function Put(base: Json, key: string, v: Json): Json
    requires base.Obj?
  {
    Obj(base.fields[key := v])
  }

  function WithProperties(base: Json, extra: map<string, Json>): Result<Json, SchemaError> {
    match base.Get("properties")
    case Some(Obj(properties)) => Ok(Put(base, "properties", Obj(properties + extra)))
    case _ => Err(PropertiesNotObject)
  }

  function WithRequired(base: Json, extra: seq<Json>): Result<Json, SchemaError> {
    match base.Get("required")
    case Some(Arr(required)) => Ok(Put(base, "required", Arr(AddMissing(required, extra))))
    case _ => Err(RequiredNotArray)
  }

  /** Of an overlay only its properties and required names are merged. */
  function MergeSchema(base: Json, overlay: Json): Result<Json, SchemaError> {
    match (match overlay.Get("properties")
           case Some(Obj(extra)) => WithProperties(base, extra)
           case _ => Ok(base))
    case Err(e) => Err(e)
    case Ok(merged) =>
      (match overlay.Get("required")
       case Some(Arr(extra)) => WithRequired(merged, extra)
       case _ => Ok(merged))
  }

  method MergeSchemaInto(base: Json, overlay: Json) returns (merged: Result<Json, SchemaError>)
    ensures merged == MergeSchema(base, overlay)
  {
    var schema := base;
    var extraProperties := overlay.Get("properties");
    if extraProperties.Some? && extraProperties.value.Obj? {
      var properties := schema.Get("properties");
      if properties.None? || !properties.value.Obj? { return Err(PropertiesNotObject); }
      schema := Obj(schema.fields["properties" := Obj(properties.value.fields + extraProperties.value.fields)]);
    }
    var extraRequired := overlay.GetArray("required");
    if extraRequired.Some? {
      var before := schema.GetArray("required");
      if before.None? { return Err(RequiredNotArray); }
      var required := before.value;
      for i := 0 to |extraRequired.value|
        invariant AddMissing(required, extraRequired.value[i..]) == AddMissing(before.value, extraRequired.value)
      {
        assert extraRequired.value[i..][1..] == extraRequired.value[i + 1..];
        if extraRequired.value[i] !in required {
          required := required + [extraRequired.value[i]];
        }
      }
      schema := Obj(schema.fields["required" := Arr(required)]);
    }
    merged := Ok(schema);
  }

  function FieldSchema(d: FieldDef): Json {
    var typed := map["type" := Str(d.fieldType)];
    var listed := if d.enumValues == [] then typed else typed["enum" := Arr(Strs(d.enumValues))];
    var itemed := match d.items
                  case Some(items) => listed["items" := FieldSchema(items)]
                  case None => listed;
    if d.fields == [] then Obj(itemed)
    else
      var nested := itemed["properties" := Obj(FieldSchemas(d.fields))]["additionalProperties" := Bool(true)];
      Obj(if RequiredNames(d.fields) == [] then nested else nested["required" := Arr(Strs(RequiredNames(d.fields)))])
  }

  /** The schemas of fields by name; names are distinct, and a later one would win. */
  function FieldSchemas(fields: seq<NamedField>): map<string, Json> {
    if fields == [] then map[]
    else map[fields[0].name := FieldSchema(fields[0].definition)] + FieldSchemas(fields[1..])
  }

  function RequiredNames(fields: seq<NamedField>): seq<string> {
    if fields == [] then []
    else (if fields[0].definition.required then [fields[0].name] else []) + RequiredNames(fields[1..])
  }

  function AnyValue(names: seq<string>): map<string, Json> {
    map n | n in names :: Obj(map[])
  }

  function ApplyContractFields(schema: Json, fields: seq<NamedField>, requiredFields: seq<string>)
    : Result<Json, SchemaError>
  {
    match WithProperties(schema, AnyValue(requiredFields) + FieldSchemas(fields))
    case Err(e) => Err(e)
    case Ok(s) => WithRequired(s, Strs(requiredFields) + Strs(RequiredNames(fields)))
  }

  function ContractBase(kind: string): Json {
    Obj(map["type" := Str("object"), "required" := Arr([Str("kind")]),
            "properties" := Obj(map["kind" := Obj(map["const" := Str(kind)])]),
            "additionalProperties" := Bool(true)])
  }

  function OutputSchema(contract: Option<OutputContract>, explicit: Option<Json>): Result<Option<Json>, SchemaError> {
    match contract
    case None => Ok(explicit)
    case Some(c) =>
      match ApplyContractFields(ContractBase(c.kind), c.fields, c.requiredFields)
      case Err(e) => Err(e)
      case Ok(s) =>
        match explicit
        case None => Ok(Some(s))
        case Some(overlay) =>
          match MergeSchema(s, overlay)
          case Err(e) => Err(e)
          case Ok(merged) => Ok(Some(merged))
  }

  const DECISION_NAMES := ["kind", "phase_id", "verdict", "confidence", "risk", "reason"]

  function AllowedRisks(maxRisk: Risk): seq<string> {
    match maxRisk
    case Low => ["low"]
    case Medium => ["low", "medium"]
    case High => ["low", "medium", "high"]
  }

  function TypeOnly(name: string): Json {
    Obj(map["type" := Str(name)])
  }

  function NonEmptyText(): Json {
    Obj(map["type" := Str("string"), "minLength" := Num(1.0)])
  }

  function EvidenceSchema(): Json {
    Obj(map["type" := Str("array"),
            "items" := Obj(map["type" := Str("object"), "required" := Arr([Str("kind"), Str("description")]),
                               "properties" := Obj(map["kind" := TypeOnly("string"),
                                                       "description" := NonEmptyText(),
                                                       "file_path" := TypeOnly("string"),
                                                       "value" := Obj(map[])]),
                               "additionalProperties" := Bool(true)])])
  }

  function DecisionProperties(risks: seq<string>, phaseId: string): map<string, Json> {
    map["kind" := Obj(map["const" := Str("phase_decision")]),
        "phase_id" := Obj(map["const" := Str(phaseId)]),
        "verdict" := Obj(map["enum" := Arr(Strs(["advance", "rework", "fail", "skip"]))]),
        "confidence" := Obj(map["type" := Str("number"), "minimum" := Num(0.0), "maximum" := Num(1.0)]),
        "risk" := Obj(map["enum" := Arr(Strs(risks))]),
        "reason" := NonEmptyText(),
        "evidence" := EvidenceSchema(),
        "guardrail_violations" := Obj(map["type" := Str("array"), "items" := TypeOnly("string")]),
        "commit_message" := TypeOnly("string")]
  }

  function DecisionBase(contract: DecisionContract, phaseId: string): Json {
    Obj(map["type" := Str("object"),
            "required" := Arr(Strs(DECISION_NAMES + (if contract.requiresEvidence then ["evidence"] else []))),
            "properties" := Obj(DecisionProperties(AllowedRisks(contract.maxRisk), phaseId)),
            "additionalProperties" := Bool(true)])
  }

  function DecisionSchema(contract: DecisionContract, phaseId: string): Result<Json, SchemaError> {
    match ApplyContractFields(DecisionBase(contract, phaseId), contract.fields, [])
    case Err(e) => Err(e)
    case Ok(s) => Overlaid(s, contract.extra)
  }

  function Overlaid(s: Json, extra: Option<Json>): Result<Json, SchemaError> {
    match extra
    case None => Ok(s)
    case Some(overlay) => MergeSchema(s, overlay)
  }

  /** The output schema with the decision schema as its `phase_decision`. */
  function ResponseSchema(output: Json, decision: Json, required: bool): Result<Json, SchemaError> {
    match WithProperties(output, map["phase_decision" := decision])
    case Err(e) => Err(e)
    case Ok(s) =>
      if !required then Ok(s)
      else match WithRequired(s, [Str("phase_decision")])
           case Ok(r) => Ok(r)
           case Err(_) => Ok(Put(s, "required", Arr([Str("phase_decision")])))
  }

  // ---- what composition keeps and what it drops ----

  /** A composed output schema has only the keywords of the contract's own schema. */
  lemma ContractDropsBranches(c: OutputContract, explicit: Option<Json>)
    ensures var s := OutputSchema(Some(c), explicit);
            s.Ok? ==> s.value.Some? && s.value.value.Obj?
                      && s.value.value.fields.Keys == {"type", "required", "properties", "additionalProperties"}
  {
  }
}
