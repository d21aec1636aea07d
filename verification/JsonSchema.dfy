/**
 The part of JSON Schema (draft 2020-12) that composed phase schemas use:
 Validation sections 6.1 to 6.5 and Core section 10.2.1.
 */
module JsonSchema {
  import opened Common
  import opened Json

  /** Section 6.1.1. */
  predicate HasType(v: Json, name: string) {
    match v
    case Null => name == "null"
    case Bool(_) => name == "boolean"
    case Num(n) => name == "number" || (name == "integer" && n == n.Floor as real)
    case Str(_) => name == "string"
    case Arr(_) => name == "array"
    case Obj(_) => name == "object"
  }

  predicate TypeOk(v: Json, keywords: map<string, Json>) {
    "type" in keywords ==>
      match keywords["type"]
      case Str(name) => HasType(v, name)
      case Arr(names) => exists i :: 0 <= i < |names| && names[i].Str? && HasType(v, names[i].s)
      case _ => false
  }

  /** Sections 6.1.2 and 6.1.3. */
  predicate ValueOk(v: Json, keywords: map<string, Json>) {
    && ("const" in keywords ==> v == keywords["const"])
    && ("enum" in keywords && keywords["enum"].Arr? ==> v in keywords["enum"].items)
  }

  /** Sections 6.2 and 6.3. */
  predicate RangeOk(v: Json, keywords: map<string, Json>) {
    && ("minimum" in keywords && keywords["minimum"].Num? && v.Num? ==> v.n >= keywords["minimum"].n)
    && ("maximum" in keywords && keywords["maximum"].Num? && v.Num? ==> v.n <= keywords["maximum"].n)
    && ("minLength" in keywords && keywords["minLength"].Num? && v.Str? ==> |v.s| as real >= keywords["minLength"].n)
  }

  /** Section 6.5.3. */
  predicate RequiredOk(v: Json, keywords: map<string, Json>) {
    "required" in keywords && keywords["required"].Arr? && v.Obj? ==>
      forall i :: 0 <= i < |keywords["required"].items| && keywords["required"].items[i].Str? ==>
        keywords["required"].items[i].s in v.fields
  }

  predicate PropertiesOk(v: Json, s: Json)
    requires s.Obj?
    decreases s, 0
  {
    "properties" in s.fields && s.fields["properties"].Obj? && v.Obj? ==>
      forall k :: k in s.fields["properties"].fields && k in v.fields ==>
        Valid(v.fields[k], s.fields["properties"].fields[k])
  }

  predicate ItemsOk(v: Json, s: Json)
    requires s.Obj?
    decreases s, 0
  {
    "items" in s.fields && v.Arr? ==> forall i :: 0 <= i < |v.items| ==> Valid(v.items[i], s.fields["items"])
  }

  predicate OneOfOk(v: Json, s: Json)
    requires s.Obj?
    decreases s, 0
  {
    "oneOf" in s.fields && s.fields["oneOf"].Arr? ==>
      exists i :: 0 <= i < |s.fields["oneOf"].items| && Valid(v, s.fields["oneOf"].items[i])
                  && forall j :: 0 <= j < |s.fields["oneOf"].items| && j != i ==> !Valid(v, s.fields["oneOf"].items[j])
  }

  predicate AnyOfOk(v: Json, s: Json)
    requires s.Obj?
    decreases s, 0
  {
    "anyOf" in s.fields && s.fields["anyOf"].Arr? ==>
      exists i :: 0 <= i < |s.fields["anyOf"].items| && Valid(v, s.fields["anyOf"].items[i])
  }

  predicate Valid(v: Json, s: Json)
    decreases s, 1
  {
    match s
    case Bool(b) => b
    case Obj(keywords) =>
      && TypeOk(v, keywords) && ValueOk(v, keywords) && RangeOk(v, keywords) && RequiredOk(v, keywords)
      && PropertiesOk(v, s) && ItemsOk(v, s) && OneOfOk(v, s) && AnyOfOk(v, s)
    case _ => false
  }
}
