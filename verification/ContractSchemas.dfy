/**
 What the schemas say that the runner writes for contracts: the values of a
 declared field, the fields that are required, the risks that are allowed, and
 what merging another schema adds.
 */
module ContractSchemas {
  import opened Common
  import opened Json
  import opened JsonSchema
  import opened PhaseOutput
  import opened RuntimeContract
  import opened DecisionNormalization
  import opened MechanicalFields
  import opened ComposedResponses

  // ---- fields ----

  lemma {:induction false} RequiredNamesIff(fields: seq<NamedField>, n: string)
    ensures n in RequiredNames(fields) <==>
            exists i :: 0 <= i < |fields| && fields[i].name == n && fields[i].definition.required
  {
    if fields != [] {
      RequiredNamesIff(fields[1..], n);
      if i :| 0 <= i < |fields| && fields[i].name == n && fields[i].definition.required && i > 0 {
        assert fields[1..][i - 1] == fields[i];
      }
      if i :| 0 <= i < |fields[1..]| && fields[1..][i].name == n && fields[1..][i].definition.required {
        assert fields[i + 1] == fields[1..][i];
      }
    }
  }

  predicate NoOther(s: Json) {
    s.Obj? && forall k :: k in s.fields ==>
      k in {"type", "enum", "items", "properties", "additionalProperties", "required"}
  }

  /** Its keywords up to the items. */
  lemma FlatKeywords(d: FieldDef)
    requires d.fields == []
    ensures var s := FieldSchema(d);
            && NoOther(s) && s.Get("type") == Some(Str(d.fieldType))
            && s.Get("enum") == (if d.enumValues == [] then None else Some(Arr(Strs(d.enumValues))))
            && s.Get("items") == (match d.items case Some(items) => Some(FieldSchema(items)) case None => None)
            && s.Get("properties") == None && s.Get("required") == None
  {
    if d.enumValues == [] {
      if d.items.None? { assert FieldSchema(d) == Obj(map["type" := Str(d.fieldType)]); }
    } else if d.items.None? {
      assert FieldSchema(d) == Obj(map["type" := Str(d.fieldType)]["enum" := Arr(Strs(d.enumValues))]);
    }
  }

  lemma NestedKeywords(d: FieldDef)
    requires d.fields != []
    ensures var s, flat := FieldSchema(d), FieldSchema(d.(fields := []));
            && NoOther(s) && s.Get("properties") == Some(Obj(FieldSchemas(d.fields)))
            && s.Get("required") ==
               (if RequiredNames(d.fields) == [] then None else Some(Arr(Strs(RequiredNames(d.fields)))))
            && s.Get("type") == flat.Get("type") && s.Get("enum") == flat.Get("enum")
            && s.Get("items") == flat.Get("items")
  {
    FlatKeywords(d.(fields := []));
  }

  /** The keywords of a field's schema. */
  lemma FieldKeywords(d: FieldDef)
    ensures var s := FieldSchema(d);
            && NoOther(s) && s.Get("type") == Some(Str(d.fieldType))
            && s.Get("enum") == (if d.enumValues == [] then None else Some(Arr(Strs(d.enumValues))))
            && s.Get("items") == (match d.items case Some(items) => Some(FieldSchema(items)) case None => None)
            && s.Get("properties") == (if d.fields == [] then None else Some(Obj(FieldSchemas(d.fields))))
            && s.GetArray("required") ==
               (if d.fields == [] || RequiredNames(d.fields) == [] then None else Some(Strs(RequiredNames(d.fields))))
  {
    if d.fields == [] {
      FlatKeywords(d);
    } else {
      NestedKeywords(d);
      FlatKeywords(d.(fields := []));
    }
  }

  lemma EnumIff(v: Json, names: seq<string>)
    ensures v in Strs(names) <==> v.Str? && v.s in names
  {
    StrsLength(names);
    if v.Str? { StrsIn(names, v.s); }
  }

  /**
   A value is valid for a declared field if and only if it has the declared type,
   is one of the listed strings if there are any, each of its items is valid for
   the declared items, and, where fields are declared, it has the required ones
   and each is valid.
   */
  lemma FieldSchemaIff(d: FieldDef, v: Json)
    ensures Valid(v, FieldSchema(d)) <==>
            && HasType(v, d.fieldType) && (d.enumValues != [] ==> v.Str? && v.s in d.enumValues)
            && (d.items.Some? && v.Arr? ==>
                  forall i :: 0 <= i < |v.items| ==> Valid(v.items[i], FieldSchema(d.items.value)))
            && (d.fields != [] && v.Obj? ==>
                  && (forall n :: n in RequiredNames(d.fields) ==> n in v.fields)
                  && (forall k :: k in FieldSchemas(d.fields) && k in v.fields ==>
                        Valid(v.fields[k], FieldSchemas(d.fields)[k])))
  {
    FieldValues(d, v);
    FieldItems(d, v);
    FieldProperties(d, v);
    FieldRequires(d, v);
  }

  lemma FieldValues(d: FieldDef, v: Json)
    ensures var s := FieldSchema(d);
            && s.Obj? && (TypeOk(v, s.fields) <==> HasType(v, d.fieldType))
            && (ValueOk(v, s.fields) <==> (d.enumValues != [] ==> v.Str? && v.s in d.enumValues))
            && RangeOk(v, s.fields) && OneOfOk(v, s) && AnyOfOk(v, s)
  {
    FieldKeywords(d);
    FieldListed(d, v);
  }

  lemma FieldListed(d: FieldDef, v: Json)
    ensures ValueOk(v, FieldSchema(d).fields) <==> (d.enumValues != [] ==> v.Str? && v.s in d.enumValues)
  {
    FieldKeywords(d);
    EnumIff(v, d.enumValues);
  }

  lemma FieldItems(d: FieldDef, v: Json)
    ensures ItemsOk(v, FieldSchema(d)) <==>
            (d.items.Some? && v.Arr? ==>
               forall i :: 0 <= i < |v.items| ==> Valid(v.items[i], FieldSchema(d.items.value)))
  {
    FieldKeywords(d);
  }

  lemma FieldProperties(d: FieldDef, v: Json)
    ensures PropertiesOk(v, FieldSchema(d)) <==>
            (d.fields != [] && v.Obj? ==>
               forall k :: k in FieldSchemas(d.fields) && k in v.fields ==>
                 Valid(v.fields[k], FieldSchemas(d.fields)[k]))
  {
    FieldKeywords(d);
  }

  lemma FieldRequires(d: FieldDef, v: Json)
    ensures RequiredOk(v, FieldSchema(d).fields) <==>
            (d.fields != [] && v.Obj? ==> forall n :: n in RequiredNames(d.fields) ==> n in v.fields)
  {
    FieldKeywords(d);
    if v.Obj? {
      RequiredIff(v.fields, FieldSchema(d));
      forall n ensures Requires(FieldSchema(d), n) <==> d.fields != [] && n in RequiredNames(d.fields) {
        StrsIn(RequiredNames(d.fields), n);
      }
    }
  }

  // ---- merging ----

  /**
   Merging succeeds if and only if there is something to merge into; it adds the
   overlay's properties, which win, and its required names, and leaves every
   other keyword as it is.
   */
  lemma MergeIs(base: Json, overlay: Json)
    requires base.Obj?
    ensures var properties := overlay.Get("properties").Some? && overlay.Get("properties").value.Obj?;
            var m := MergeSchema(base, overlay);
            && (m.Ok? <==>
                && (properties ==> base.Get("properties").Some? && base.Get("properties").value.Obj?)
                && (overlay.GetArray("required").Some? ==> base.GetArray("required").Some?))
            && (m.Ok? ==>
                  && m.value.Obj? && Properties(m.value) == Properties(base) + Properties(overlay)
                  && (forall n :: Requires(m.value, n) <==> Requires(base, n) || Requires(overlay, n))
                  && forall k :: k != "properties" && k != "required" ==> m.value.Get(k) == base.Get(k))
  {
    forall n | base.GetArray("required").Some? && overlay.GetArray("required").Some?
      ensures Str(n) in AddMissing(base.GetArray("required").value, overlay.GetArray("required").value) <==>
              Str(n) in base.GetArray("required").value || Str(n) in overlay.GetArray("required").value
    {
      AddedExactly(base.GetArray("required").value, overlay.GetArray("required").value, Str(n));
    }
  }

  // ---- decisions ----

  /** The fields every decision must have; evidence where the contract asks for it. */
  lemma DecisionRequiresIff(contract: DecisionContract, phaseId: string, n: string)
    ensures Requires(DecisionBase(contract, phaseId), n) <==>
            n in {"kind", "phase_id", "verdict", "confidence", "risk", "reason"}
            || (contract.requiresEvidence && n == "evidence")
  {
    var more := if contract.requiresEvidence then ["evidence"] else [];
    StrsIn(DECISION_NAMES + more, n);
    NamesAre(n);
    assert n in DECISION_NAMES + more <==> n in DECISION_NAMES || n in more;
  }

  lemma NamesAre(n: string)
    ensures n in DECISION_NAMES <==> n in DECISION_FIELDS
  {
    assert DECISION_NAMES[0] == "kind" && DECISION_NAMES[1] == "phase_id" && DECISION_NAMES[2] == "verdict"
        && DECISION_NAMES[3] == "confidence" && DECISION_NAMES[4] == "risk" && DECISION_NAMES[5] == "reason";
  }

  function RankOf(r: Risk): nat {
    match r
    case Low => 0
    case Medium => 1
    case High => 2
  }

  /** A decision may state the named risks up to the contract's highest. */
  lemma RiskAllowedIff(contract: DecisionContract, phaseId: string, name: string)
    ensures "risk" in Properties(DecisionBase(contract, phaseId))
    ensures Valid(Str(name), Properties(DecisionBase(contract, phaseId))["risk"]) <==>
            name in {"low", "medium", "high"} && RiskRank(name) <= RankOf(contract.maxRisk)
  {
    BaseFields(contract, phaseId);
    var names := AllowedRisks(contract.maxRisk);
    EnumIff(Str(name), names);
    ListValid(Strs(names), Str(name));
    RisksAre(contract.maxRisk, name);
  }

  lemma ListValid(values: seq<Json>, w: Json)
    ensures Valid(w, Obj(map["enum" := Arr(values)])) <==> w in values
  {
    var s := Obj(map["enum" := Arr(values)]);
    assert TypeOk(w, s.fields) && RangeOk(w, s.fields) && RequiredOk(w, s.fields);
    assert PropertiesOk(w, s) && ItemsOk(w, s) && OneOfOk(w, s) && AnyOfOk(w, s);
    assert ValueOk(w, s.fields) <==> w in values;
  }

  lemma RisksAre(r: Risk, name: string)
    ensures name in AllowedRisks(r) <==> name in {"low", "medium", "high"} && RiskRank(name) <= RankOf(r)
  {
    var names := AllowedRisks(r);
    assert names[0] == "low" && (|names| > 1 ==> names[1] == "medium") && (|names| > 2 ==> names[2] == "high");
    assert |"low"| == 3 && |"medium"| == 6 && |"high"| == 4;
  }

  // ---- responses ----

  /** The decision is required exactly when the contract asks for it or the output schema did. */
  lemma ResponseRequiresIff(output: Json, decision: Json, required: bool, n: string)
    requires ResponseSchema(output, decision, required).Ok?
    ensures Requires(ResponseSchema(output, decision, required).value, n) <==>
            Requires(output, n) || (required && n == "phase_decision")
  {
    if output.GetArray("required").Some? {
      AddedExactly(output.GetArray("required").value, [Str("phase_decision")], Str(n));
    }
  }
}
