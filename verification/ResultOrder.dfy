/**
 Which results a value or text holds, and which of them the search returns:
 the ways to a result, and the order in which the source tries them.
 */
module ResultOrder {
  import opened Common
  import opened Json
  import opened JsonText
  import opened JsonScan
  import opened TextLines
  import opened ResultSearch

  /** A way from a value to a result: the value itself, or through a part of it. Keys are numbered. */
  datatype Way =
    | Here
    | Item(i: nat, rest: Way)
    | Nested(key: nat, rest: Way)
    | Said(key: nat, text: TextWay)
    | Text(text: TextWay)

  /** A way from a text: through one of its balanced objects, or a line that is a JSON object or array. */
  datatype TextWay = ObjectAt(i: nat, rest: Way) | LineAt(i: nat, rest: Way)

  /** The key of an object under which a result may lie. */
  function NestedKey(key: nat): string
    requires key < 6
  {
    match key
    case 0 => "proposal"
    case 1 => "data"
    case 2 => "payload"
    case 3 => "result"
    case 4 => "output"
    case 5 => "item"
  }

  /** The key of an object under which a text may lie. */
  function TextKey(key: nat): string
    requires key < 5
  {
    match key
    case 0 => "text"
    case 1 => "message"
    case 2 => "content"
    case 3 => "output_text"
    case 4 => "delta"
  }

  function ObjectsOf(text: string, parse: string -> Option<Json>): seq<Json> {
    Objects(Spans(text, 0), parse)
  }

  function LinesOf(text: string, parse: string -> Option<Json>): seq<Json> {
    LinePayloads(Lines(text), parse)
  }

  /** The way leads to an object whose kind is the expected one, letter case aside. */
  predicate Leads(parse: string -> Option<Json>, kind: string, v: Json, way: Way)
    decreases way
  {
    match way
    case Here => v.Obj? && Lower(v.GetString("kind").GetOr("")) == Lower(kind)
    case Item(i, rest) => v.Arr? && i < |v.items| && Leads(parse, kind, v.items[i], rest)
    case Nested(k, rest) =>
      v.Obj? && k < 6 && NestedKey(k) in v.fields && Leads(parse, kind, v.fields[NestedKey(k)], rest)
    case Said(k, text) =>
      && v.Obj? && k < 5 && TextKey(k) in v.fields && v.fields[TextKey(k)].Str?
      && TextLeads(parse, kind, v.fields[TextKey(k)].s, text)
    case Text(text) => v.Str? && TextLeads(parse, kind, v.s, text)
  }

  predicate TextLeads(parse: string -> Option<Json>, kind: string, text: string, way: TextWay)
    decreases way
  {
    match way
    case ObjectAt(i, rest) =>
      i < |ObjectsOf(text, parse)| && Leads(parse, kind, ObjectsOf(text, parse)[i], rest)
    case LineAt(i, rest) => i < |LinesOf(text, parse)| && Leads(parse, kind, LinesOf(text, parse)[i], rest)
  }

  /** Where the way leads. */
  function End(parse: string -> Option<Json>, kind: string, v: Json, way: Way): Json
    requires Leads(parse, kind, v, way)
    decreases way
  {
    match way
    case Here => v
    case Item(i, rest) => End(parse, kind, v.items[i], rest)
    case Nested(k, rest) => End(parse, kind, v.fields[NestedKey(k)], rest)
    case Said(k, text) => TextEnd(parse, kind, v.fields[TextKey(k)].s, text)
    case Text(text) => TextEnd(parse, kind, v.s, text)
  }

  function TextEnd(parse: string -> Option<Json>, kind: string, text: string, way: TextWay): Json
    requires TextLeads(parse, kind, text, way)
    decreases way
  {
    match way
    case ObjectAt(i, rest) => End(parse, kind, ObjectsOf(text, parse)[i], rest)
    case LineAt(i, rest) => End(parse, kind, LinesOf(text, parse)[i], rest)
  }

  /** The value itself first, then items and nested keys in order, then text keys in order. */
  predicate Before(a: Way, b: Way) {
    match a
    case Here => !b.Here?
    case Item(i, rest) => b.Item? && (i < b.i || (i == b.i && Before(rest, b.rest)))
    case Nested(k, rest) => b.Said? || (b.Nested? && (k < b.key || (k == b.key && Before(rest, b.rest))))
    case Said(k, text) => b.Said? && (k < b.key || (k == b.key && TextBefore(text, b.text)))
    case Text(text) => b.Text? && TextBefore(text, b.text)
  }

  /** The last object first, and lines in order after all objects. */
  predicate TextBefore(a: TextWay, b: TextWay) {
    match a
    case ObjectAt(i, rest) => b.LineAt? || (b.ObjectAt? && (i > b.i || (i == b.i && Before(rest, b.rest))))
    case LineAt(i, rest) => b.LineAt? && (i < b.i || (i == b.i && Before(rest, b.rest)))
  }

  // ---- the first of the ways ----

  /** `way` leads to a result, and no other way that does comes before it; None: no way does. */
  ghost predicate IsFirst(parse: string -> Option<Json>, kind: string, v: Json, way: Option<Way>) {
    match way
    case None => forall u :: !Leads(parse, kind, v, u)
    case Some(w) =>
      Leads(parse, kind, v, w) && forall u :: Leads(parse, kind, v, u) && u != w ==> Before(w, u)
  }

  ghost predicate IsFirstInText(parse: string -> Option<Json>, kind: string, text: string, way: Option<TextWay>) {
    match way
    case None => forall u :: !TextLeads(parse, kind, text, u)
    case Some(w) =>
      TextLeads(parse, kind, text, w) && forall u :: TextLeads(parse, kind, text, u) && u != w ==> TextBefore(w, u)
  }

  function EndOf(parse: string -> Option<Json>, kind: string, v: Json, way: Option<Way>): Option<Json>
    requires way.Some? ==> Leads(parse, kind, v, way.value)
  {
    if way.Some? then Some(End(parse, kind, v, way.value)) else None
  }

  function EndOfText(parse: string -> Option<Json>, kind: string, text: string, way: Option<TextWay>): Option<Json>
    requires way.Some? ==> TextLeads(parse, kind, text, way.value)
  {
    if way.Some? then Some(TextEnd(parse, kind, text, way.value)) else None
  }

  /** The search of a text returns the end of the first way, if there is any way at all. */
  lemma {:induction false} TextReturnsFirst(parse: string -> Option<Json>, kind: string, text: string)
    returns (way: Option<TextWay>)
    requires Shrinks(parse)
    ensures IsFirstInText(parse, kind, text, way)
    ensures FromText(parse, kind, text) == EndOfText(parse, kind, text, way)
    decreases |text|, 2
  {
    TextBelow(text, parse);
    var i, w := LastFirst(parse, kind, ObjectsOf(text, parse), |text|);
    if w.Some? {
      way := Some(ObjectAt(i, w.value));
    } else {
      var j, x := FirstFirst(parse, kind, LinesOf(text, parse), |text|);
      way := if x.Some? then Some(LineAt(j, x.value)) else None;
    }
  }

  /** Of a list of values, the last one with a way. */
  lemma {:induction false} LastFirst(parse: string -> Option<Json>, kind: string, vs: seq<Json>, n: nat)
    returns (i: nat, way: Option<Way>)
    requires Shrinks(parse) && AllBelow(vs, n)
    ensures way.Some? ==> i < |vs| && IsFirst(parse, kind, vs[i], way)
    ensures forall j :: (if way.Some? then i else -1) < j < |vs| ==> forall u :: !Leads(parse, kind, vs[j], u)
    ensures LastHit(parse, kind, vs, n) == if way.Some? then Some(End(parse, kind, vs[i], way.value)) else None
    decreases n, 1, |vs|
  {
    i, way := 0, None;
    if vs != [] {
      i, way := LastFirst(parse, kind, vs[1..], n);
      if way.Some? {
        i := i + 1;
      } else {
        i := 0;
        way := PayloadReturnsFirst(parse, kind, vs[0], n);
      }
    }
  }

  /** Of a list of values, the first one with a way. */
  lemma {:induction false} FirstFirst(parse: string -> Option<Json>, kind: string, vs: seq<Json>, n: nat)
    returns (i: nat, way: Option<Way>)
    requires Shrinks(parse) && AllBelow(vs, n)
    ensures way.Some? ==> i < |vs| && IsFirst(parse, kind, vs[i], way)
    ensures forall j :: 0 <= j < (if way.Some? then i else |vs|) ==> forall u :: !Leads(parse, kind, vs[j], u)
    ensures FirstHit(parse, kind, vs, n) == if way.Some? then Some(End(parse, kind, vs[i], way.value)) else None
    decreases n, 1, |vs|
  {
    i, way := 0, None;
    if vs != [] {
      way := PayloadReturnsFirst(parse, kind, vs[0], n);
      if way.None? {
        i, way := FirstFirst(parse, kind, vs[1..], n);
        i := i + 1;
      }
    }
  }

  /** The search of a value returns the end of the first way. */
  lemma {:induction false} PayloadReturnsFirst(parse: string -> Option<Json>, kind: string, v: Json, n: nat)
    returns (way: Option<Way>)
    requires Shrinks(parse) && StringsBelow(v, n)
    ensures IsFirst(parse, kind, v, way)
    ensures FromPayload(parse, kind, v, n) == EndOf(parse, kind, v, way)
    decreases n, 0, v
  {
    match v
    case Arr(_) =>
      way := ItemsReturnFirst(parse, kind, v, n, 0);
    case Obj(_) =>
      way := ObjectReturnsFirst(parse, kind, v, n);
    case Str(text) =>
      var t := TextReturnsFirst(parse, kind, text);
      way := if t.Some? then Some(Way.Text(t.value)) else None;
    case _ =>
      way := None;
  }

  lemma {:induction false} ObjectReturnsFirst(parse: string -> Option<Json>, kind: string, v: Json, n: nat)
    returns (way: Option<Way>)
    requires Shrinks(parse) && StringsBelow(v, n) && v.Obj?
    ensures IsFirst(parse, kind, v, way)
    ensures FromPayload(parse, kind, v, n) == EndOf(parse, kind, v, way)
    decreases n, 0, v, 10
  {
    if HasKind(v, kind) {
      way := Some(Here);
    } else {
      way := NestedReturnsFirst(parse, kind, v, n, 0);
      if way.None? { way := SaidReturnsFirst(parse, kind, v, n, 0); }
    }
  }

  /** Ways through the items from the `i`-th on. */
  lemma {:induction false} ItemsReturnFirst(parse: string -> Option<Json>, kind: string, v: Json, n: nat, i: nat)
    returns (way: Option<Way>)
    requires Shrinks(parse) && StringsBelow(v, n) && v.Arr? && i <= |v.items|
    requires forall u: Way :: u.Item? && u.i < i ==> !Leads(parse, kind, v, u)
    ensures IsFirst(parse, kind, v, way)
    ensures FromItems(parse, kind, v, n, i) == EndOf(parse, kind, v, way)
    decreases n, 0, v, |v.items| - i
  {
    if i == |v.items| {
      way := None;
    } else {
      var rest := PayloadReturnsFirst(parse, kind, v.items[i], n);
      if rest.Some? {
        way := Some(Way.Item(i, rest.value));
      } else {
        way := ItemsReturnFirst(parse, kind, v, n, i + 1);
      }
    }
  }

  /** `w` is the first of the ways through nested keys. */
  ghost predicate FirstNested(parse: string -> Option<Json>, kind: string, v: Json, way: Option<Way>) {
    match way
    case None => forall u: Way :: u.Nested? ==> !Leads(parse, kind, v, u)
    case Some(w) =>
      && w.Nested? && Leads(parse, kind, v, w)
      && forall u: Way :: u.Nested? && Leads(parse, kind, v, u) && u != w ==> Before(w, u)
  }

  lemma {:induction false} NestedReturnsFirst(parse: string -> Option<Json>, kind: string, v: Json, n: nat, k: nat)
    returns (way: Option<Way>)
    requires Shrinks(parse) && StringsBelow(v, n) && v.Obj? && k <= 6
    requires forall u: Way :: u.Nested? && u.key < k ==> !Leads(parse, kind, v, u)
    ensures FirstNested(parse, kind, v, way)
    ensures FromKeys(parse, kind, v, n, NESTED_KEYS[k..]) == EndOf(parse, kind, v, way)
    decreases n, 0, v, 6 - k
  {
    if k == 6 {
      way := None;
    } else {
      assert NESTED_KEYS[k..][0] == NestedKey(k) && NESTED_KEYS[k..][1..] == NESTED_KEYS[k + 1..];
      var rest := None;
      if NestedKey(k) in v.fields { rest := PayloadReturnsFirst(parse, kind, v.fields[NestedKey(k)], n); }
      if rest.Some? {
        way := Some(Nested(k, rest.value));
      } else {
        way := NestedReturnsFirst(parse, kind, v, n, k + 1);
      }
    }
  }

  ghost predicate FirstSaid(parse: string -> Option<Json>, kind: string, v: Json, way: Option<Way>) {
    match way
    case None => forall u: Way :: u.Said? ==> !Leads(parse, kind, v, u)
    case Some(w) =>
      && w.Said? && Leads(parse, kind, v, w)
      && forall u: Way :: u.Said? && Leads(parse, kind, v, u) && u != w ==> Before(w, u)
  }

  lemma {:induction false} SaidReturnsFirst(parse: string -> Option<Json>, kind: string, v: Json, n: nat, k: nat)
    returns (way: Option<Way>)
    requires Shrinks(parse) && StringsBelow(v, n) && v.Obj? && k <= 5
    requires forall u: Way :: u.Said? && u.key < k ==> !Leads(parse, kind, v, u)
    ensures FirstSaid(parse, kind, v, way)
    ensures FromTextKeys(parse, kind, v, n, TEXT_KEYS[k..]) == EndOf(parse, kind, v, way)
    decreases n, 0, v, 5 - k
  {
    if k == 5 {
      way := None;
    } else {
      assert TEXT_KEYS[k..][0] == TextKey(k) && TEXT_KEYS[k..][1..] == TEXT_KEYS[k + 1..];
      var t: Option<TextWay> := None;
      if TextKey(k) in v.fields && v.fields[TextKey(k)].Str? {
        assert StringsBelow(v.fields[TextKey(k)], n);
        t := TextReturnsFirst(parse, kind, v.fields[TextKey(k)].s);
      }
      if t.Some? {
        way := Some(Said(k, t.value));
      } else {
        way := SaidReturnsFirst(parse, kind, v, n, k + 1);
      }
    }
  }

  // ---- what the search returns ----

  /** A text has a result if and only if some way leads to one. */
  lemma TextHasResultIff(parse: string -> Option<Json>, kind: string, text: string)
    requires Shrinks(parse)
    ensures FromText(parse, kind, text).Some? <==> exists way :: TextLeads(parse, kind, text, way)
  {
    var first := TextReturnsFirst(parse, kind, text);
    if first.Some? {
      assert TextLeads(parse, kind, text, first.value);
      assert exists way :: TextLeads(parse, kind, text, way);
    } else {
      assert forall u :: !TextLeads(parse, kind, text, u);
    }
  }

  /** And a value, wherever it was found. */
  lemma ValueHasResultIff(parse: string -> Option<Json>, kind: string, v: Json, n: nat)
    requires Shrinks(parse) && StringsBelow(v, n)
    ensures FromPayload(parse, kind, v, n).Some? <==> exists way :: Leads(parse, kind, v, way)
  {
    var first := PayloadReturnsFirst(parse, kind, v, n);
    if first.Some? {
      assert Leads(parse, kind, v, first.value);
      assert exists way :: Leads(parse, kind, v, way);
    } else {
      assert forall u :: !Leads(parse, kind, v, u);
    }
  }

  lemma KeysDiffer(j: nat, k: nat)
    requires j < 6 && k < 6 && NestedKey(j) == NestedKey(k)
    ensures j == k
  {
    assert NestedKey(1)[0] == 'd' && NestedKey(5)[0] == 'i' && NestedKey(3)[0] == 'r' && NestedKey(4)[0] == 'o';
  }

  lemma OnlyWay(parse: string -> Option<Json>, kind: string, result: Json, k: nat, way: Way)
    requires k < 6 && kind != "" && Leads(parse, kind, Obj(map[NestedKey(k) := result]), way)
    requires way != Nested(k, Here) ==> Before(way, Nested(k, Here))
    ensures way == Nested(k, Here)
  {
    var v := Obj(map[NestedKey(k) := result]);
    assert NestedKey(k) != "kind" && v.GetString("kind") == None && |Lower(kind)| > 0 && |Lower("")| == 0;
    assert !Leads(parse, kind, v, Here);
    if way.Nested? {
      KeysDiffer(way.key, k);
      assert !Before(way.rest, Here);
    }
  }

  /** A result under one of the nested keys of an object that is none itself, and has no other key, is returned. */
  lemma WrappedResultIsFound(parse: string -> Option<Json>, kind: string, result: Json, k: nat, n: nat)
    requires Shrinks(parse) && StringsBelow(result, n) && k < 6
    requires result.Obj? && Lower(result.GetString("kind").GetOr("")) == Lower(kind) && kind != ""
    ensures var v := Obj(map[NestedKey(k) := result]);
            StringsBelow(v, n) && FromPayload(parse, kind, v, n) == Some(result)
  {
    var v, w := Obj(map[NestedKey(k) := result]), Nested(k, Here);
    assert NestedKey(k) != "kind" && v.GetString("kind") == None && |Lower(kind)| > 0 && |Lower("")| == 0;
    assert Leads(parse, kind, result, Here);
    assert Leads(parse, kind, v, w);
    var first := PayloadReturnsFirst(parse, kind, v, n);
    assert first.Some?;
    OnlyWay(parse, kind, result, k, first.value);
    assert End(parse, kind, v, w) == End(parse, kind, result, Here) == result;
  }
}
