/**
 Searching a model's text for the result object: texts are searched for values
 and values for texts, in turn.
 */
module ResultSearch {
  import opened Common
  import opened Json
  import opened JsonText
  import opened JsonScan
  import opened TextLines

  /** Every string inside a parsed value is shorter than the text parsed. */
  ghost predicate Shrinks(parse: string -> Option<Json>) {
    forall s :: ParsedBelow(parse, s)
  }

  ghost predicate ParsedBelow(parse: string -> Option<Json>, s: string) {
    parse(s).Some? ==> StringsBelow(parse(s).value, |s|)
  }

  ghost predicate AllBelow(vs: seq<Json>, n: nat) {
    forall i :: 0 <= i < |vs| ==> StringsBelow(vs[i], n)
  }

  /** A text is a printed document between white space. */
  ghost predicate ReadsAs(s: string, lead: string, d: Doc, trail: string) {
    s == lead + Render(d) + trail && WellFormed(d)
  }

  ghost predicate PrintedAs(s: string, v: Json, number: string -> real) {
    exists lead, d, trail :: ReadsAs(s, lead, d, trail) && Value(d, number) == v
  }

  ghost predicate AcceptsPrinted(parse: string -> Option<Json>, s: string, number: string -> real) {
    parse(s).Some? ==> PrintedAs(s, parse(s).value, number)
  }

  /** A parser that accepts only JSON texts, and reads them right, shrinks strings. */
  lemma ParsersShrink(parse: string -> Option<Json>, number: string -> real)
    requires forall s :: AcceptsPrinted(parse, s, number)
    ensures Shrinks(parse)
  {
    forall s
      ensures ParsedBelow(parse, s)
    {
      assert AcceptsPrinted(parse, s, number);
      if parse(s).Some? {
        var lead, d, trail :| ReadsAs(s, lead, d, trail) && Value(d, number) == parse(s).value;
        StringsShorter(d, number);
        BelowMore(Value(d, number), |Render(d)|, |s|);
      }
    }
  }

  // ---- the payloads of a text ----

  /** The object or array a whole line parses as, if it does. */
  function LinePayload(line: string, parse: string -> Option<Json>): seq<Json> {
    var trimmed := Trim(line);
    if trimmed == "" then []
    else match parse(trimmed)
         case Some(v) => if v.Obj? || v.Arr? then [v] else []
         case None => []
  }

  /** A line gives a payload exactly when it is, trimmed, the text of an object or array. */
  lemma LinePayloadIff(line: string, parse: string -> Option<Json>, v: Json)
    ensures LinePayload(line, parse) == [v] <==>
            Trim(line) != "" && parse(Trim(line)) == Some(v) && (v.Obj? || v.Arr?)
    ensures |LinePayload(line, parse)| <= 1
  {
  }

  function LinePayloads(lines: seq<string>, parse: string -> Option<Json>): seq<Json> {
    if lines == [] then [] else LinePayload(lines[0], parse) + LinePayloads(lines[1..], parse)
  }

  lemma {:induction false} SpansShorter(text: string, i: nat, k: nat)
    requires i <= |text| && k < |Spans(text, i)|
    ensures |Spans(text, i)[k]| <= |text|
    decreases |text| - i
  {
    if i < |text| {
      match ClosesAt(text, i)
      case Some(end) => if k > 0 { SpansShorter(text, end + 1, k - 1); }
      case None => SpansShorter(text, i + 1, k);
    }
  }

  lemma {:induction false} ObjectsBelow(spans: seq<string>, parse: string -> Option<Json>, n: nat)
    requires Shrinks(parse) && forall k :: 0 <= k < |spans| ==> |spans[k]| <= n
    ensures AllBelow(Objects(spans, parse), n)
  {
    if spans != [] {
      assert ParsedBelow(parse, spans[0]);
      if parse(spans[0]).Some? { BelowMore(parse(spans[0]).value, |spans[0]|, n); }
      ObjectsBelow(spans[1..], parse, n);
    }
  }

  lemma {:induction false} PayloadsBelow(lines: seq<string>, parse: string -> Option<Json>, n: nat)
    requires Shrinks(parse) && forall k :: 0 <= k < |lines| ==> |lines[k]| <= n
    ensures AllBelow(LinePayloads(lines, parse), n)
  {
    if lines != [] {
      var trimmed := Trim(lines[0]);
      assert ParsedBelow(parse, trimmed);
      if parse(trimmed).Some? { BelowMore(parse(trimmed).value, |trimmed|, n); }
      PayloadsBelow(lines[1..], parse, n);
    }
  }

  lemma TextBelow(text: string, parse: string -> Option<Json>)
    requires Shrinks(parse)
    ensures AllBelow(Objects(Spans(text, 0), parse), |text|)
    ensures AllBelow(LinePayloads(Lines(text), parse), |text|)
  {
    forall k | 0 <= k < |Spans(text, 0)| ensures |Spans(text, 0)[k]| <= |text| { SpansShorter(text, 0, k); }
    forall k | 0 <= k < |Lines(text)| ensures |Lines(text)[k]| <= |text| { LinesShorter(text, k); }
    ObjectsBelow(Spans(text, 0), parse, |text|);
    PayloadsBelow(Lines(text), parse, |text|);
  }

  // ---- the search ----

  const NESTED_KEYS := ["proposal", "data", "payload", "result", "output", "item"]
  const TEXT_KEYS := ["text", "message", "content", "output_text", "delta"]

  predicate SameName(a: string, b: string) {
    Lower(a) == Lower(b)
  }

  predicate HasKind(v: Json, kind: string) {
    v.Obj? && SameName(v.GetString("kind").GetOr(""), kind)
  }

  /** The last object of a text that holds a result; failing that, its first line that does. */
  function FromText(parse: string -> Option<Json>, kind: string, text: string): Option<Json>
    requires Shrinks(parse)
    decreases |text|, 2
  {
    TextBelow(text, parse);
    match LastHit(parse, kind, Objects(Spans(text, 0), parse), |text|)
    case Some(v) => Some(v)
    case None => FirstHit(parse, kind, LinePayloads(Lines(text), parse), |text|)
  }

  function LastHit(parse: string -> Option<Json>, kind: string, vs: seq<Json>, n: nat): Option<Json>
    requires Shrinks(parse) && AllBelow(vs, n)
    decreases n, 1, |vs|
  {
    if vs == [] then None
    else match LastHit(parse, kind, vs[1..], n)
         case Some(v) => Some(v)
         case None => FromPayload(parse, kind, vs[0], n)
  }

  function FirstHit(parse: string -> Option<Json>, kind: string, vs: seq<Json>, n: nat): Option<Json>
    requires Shrinks(parse) && AllBelow(vs, n)
    decreases n, 1, |vs|
  {
    if vs == [] then None
    else match FromPayload(parse, kind, vs[0], n)
         case Some(v) => Some(v)
         case None => FirstHit(parse, kind, vs[1..], n)
  }

  function FromPayload(parse: string -> Option<Json>, kind: string, v: Json, n: nat): Option<Json>
    requires Shrinks(parse) && StringsBelow(v, n)
    decreases n, 0, v
  {
    match v
    case Arr(_) => FromItems(parse, kind, v, n, 0)
    case Obj(_) =>
      if HasKind(v, kind) then Some(v)
      else (match FromKeys(parse, kind, v, n, NESTED_KEYS)
            case Some(hit) => Some(hit)
            case None => FromTextKeys(parse, kind, v, n, TEXT_KEYS))
    case Str(text) => FromText(parse, kind, text)
    case _ => None
  }

  function FromItems(parse: string -> Option<Json>, kind: string, v: Json, n: nat, i: nat): Option<Json>
    requires Shrinks(parse) && StringsBelow(v, n) && v.Arr? && i <= |v.items|
    decreases n, 0, v, |v.items| - i
  {
    if i == |v.items| then None
    else match FromPayload(parse, kind, v.items[i], n)
         case Some(hit) => Some(hit)
         case None => FromItems(parse, kind, v, n, i + 1)
  }

  function FromKeys(parse: string -> Option<Json>, kind: string, v: Json, n: nat, keys: seq<string>): Option<Json>
    requires Shrinks(parse) && StringsBelow(v, n) && v.Obj?
    decreases n, 0, v, |keys|
  {
    if keys == [] then None
    else match if keys[0] in v.fields then FromPayload(parse, kind, v.fields[keys[0]], n) else None
         case Some(hit) => Some(hit)
         case None => FromKeys(parse, kind, v, n, keys[1..])
  }

  function FromTextKeys(parse: string -> Option<Json>, kind: string, v: Json, n: nat, keys: seq<string>): Option<Json>
    requires Shrinks(parse) && StringsBelow(v, n) && v.Obj?
    decreases n, 0, v, |keys|
  {
    if keys == [] then None
    else match if keys[0] in v.fields && v.fields[keys[0]].Str?
               then assert StringsBelow(v.fields[keys[0]], n); FromText(parse, kind, v.fields[keys[0]].s)
               else None
         case Some(hit) => Some(hit)
         case None => FromTextKeys(parse, kind, v, n, keys[1..])
  }

  // ---- what the search finds ----

  /** Every result, however deeply nested, is an object of the expected kind. */
  ghost predicate Sound(kind: string, hit: Option<Json>) {
    hit.Some? ==> HasKind(hit.value, kind)
  }

  lemma {:induction false} TextResultHasKind(parse: string -> Option<Json>, kind: string, text: string)
    requires Shrinks(parse)
    ensures Sound(kind, FromText(parse, kind, text))
    decreases |text|, 2
  {
    TextBelow(text, parse);
    HitsHaveKind(parse, kind, Objects(Spans(text, 0), parse), |text|);
    HitsHaveKind(parse, kind, LinePayloads(Lines(text), parse), |text|);
  }

  lemma {:induction false} HitsHaveKind(parse: string -> Option<Json>, kind: string, vs: seq<Json>, n: nat)
    requires Shrinks(parse) && AllBelow(vs, n)
    ensures Sound(kind, LastHit(parse, kind, vs, n)) && Sound(kind, FirstHit(parse, kind, vs, n))
    decreases n, 1, |vs|
  {
    if vs != [] {
      PayloadResultHasKind(parse, kind, vs[0], n);
      HitsHaveKind(parse, kind, vs[1..], n);
    }
  }

  lemma {:induction false} PayloadResultHasKind(parse: string -> Option<Json>, kind: string, v: Json, n: nat)
    requires Shrinks(parse) && StringsBelow(v, n)
    ensures Sound(kind, FromPayload(parse, kind, v, n))
    decreases n, 0, v
  {
    match v
    case Arr(_) => ItemsHaveKind(parse, kind, v, n, 0);
    case Obj(_) =>
      KeysHaveKind(parse, kind, v, n, NESTED_KEYS);
      TextKeysHaveKind(parse, kind, v, n, TEXT_KEYS);
    case Str(text) => TextResultHasKind(parse, kind, text);
    case _ =>
  }

  lemma {:induction false} ItemsHaveKind(parse: string -> Option<Json>, kind: string, v: Json, n: nat, i: nat)
    requires Shrinks(parse) && StringsBelow(v, n) && v.Arr? && i <= |v.items|
    ensures Sound(kind, FromItems(parse, kind, v, n, i))
    decreases n, 0, v, |v.items| - i
  {
    if i < |v.items| {
      PayloadResultHasKind(parse, kind, v.items[i], n);
      ItemsHaveKind(parse, kind, v, n, i + 1);
    }
  }

  lemma {:induction false} KeysHaveKind(parse: string -> Option<Json>, kind: string, v: Json, n: nat, keys: seq<string>)
    requires Shrinks(parse) && StringsBelow(v, n) && v.Obj?
    ensures Sound(kind, FromKeys(parse, kind, v, n, keys))
    decreases n, 0, v, |keys|
  {
    if keys != [] {
      if keys[0] in v.fields { PayloadResultHasKind(parse, kind, v.fields[keys[0]], n); }
      KeysHaveKind(parse, kind, v, n, keys[1..]);
    }
  }

  lemma {:induction false} TextKeysHaveKind(
    parse: string -> Option<Json>, kind: string, v: Json, n: nat, keys: seq<string>)
    requires Shrinks(parse) && StringsBelow(v, n) && v.Obj?
    ensures Sound(kind, FromTextKeys(parse, kind, v, n, keys))
    decreases n, 0, v, |keys|
  {
    if keys != [] {
      if keys[0] in v.fields && v.fields[keys[0]].Str? {
        assert StringsBelow(v.fields[keys[0]], n);
        TextResultHasKind(parse, kind, v.fields[keys[0]].s);
      }
      TextKeysHaveKind(parse, kind, v, n, keys[1..]);
    }
  }

  // ---- the last printed result wins ----

  function Values(objects: seq<Doc>, number: string -> real): (vs: seq<Json>)
    requires AllPrinted(objects)
    ensures |vs| == |objects|
  {
    if objects == [] then [] else [Value(objects[0], number)] + Values(objects[1..], number)
  }

  /** The parser reads each of these documents as the value it denotes. */
  ghost predicate Reads(parse: string -> Option<Json>, objects: seq<Doc>, number: string -> real)
    requires AllPrinted(objects)
  {
    forall k :: 0 <= k < |objects| ==> parse(Render(objects[k])) == Some(Value(objects[k], number))
  }

  lemma {:induction false} ObjectsRead(parse: string -> Option<Json>, objects: seq<Doc>, number: string -> real)
    requires AllPrinted(objects) && Reads(parse, objects, number)
    ensures Objects(Renders(objects), parse) == Values(objects, number)
  {
    if objects != [] {
      assert parse(Render(objects[0])) == Some(Value(objects[0], number));
      ObjectsRead(parse, objects[1..], number);
    }
  }

  lemma {:induction false} LastHitAt(parse: string -> Option<Json>, kind: string, vs: seq<Json>, n: nat, k: nat)
    requires Shrinks(parse) && AllBelow(vs, n) && k < |vs| && HasKind(vs[k], kind)
    requires forall i :: k < i < |vs| ==> FromPayload(parse, kind, vs[i], n) == None
    ensures LastHit(parse, kind, vs, n) == Some(vs[k])
    decreases |vs|
  {
    if k > 0 {
      LastHitAt(parse, kind, vs[1..], n, k - 1);
    } else {
      NoHit(parse, kind, vs[1..], n);
    }
  }

  lemma {:induction false} NoHit(parse: string -> Option<Json>, kind: string, vs: seq<Json>, n: nat)
    requires Shrinks(parse) && AllBelow(vs, n)
    requires forall i :: 0 <= i < |vs| ==> FromPayload(parse, kind, vs[i], n) == None
    ensures LastHit(parse, kind, vs, n) == None
  {
    if vs != [] { NoHit(parse, kind, vs[1..], n); }
  }

  /** No result in a value found in a text of length `n`. */
  ghost predicate HoldsNone(parse: string -> Option<Json>, kind: string, v: Json, n: nat)
    requires Shrinks(parse)
  {
    StringsBelow(v, n) && FromPayload(parse, kind, v, n) == None
  }

  /**
   In a text of printed objects and brace-free prose, the last object of the
   expected kind is the result when nothing after it holds one, whatever the
   prose, the layout of the objects and what comes before.
   */
  lemma LastPrintedResultWins(
    parse: string -> Option<Json>, kind: string, prose: seq<string>, objects: seq<Doc>, number: string -> real, k: nat)
    requires |prose| == |objects| + 1 && AllBraceFree(prose) && AllPrinted(objects)
    requires Shrinks(parse) && Reads(parse, objects, number) && k < |objects|
    requires HasKind(Values(objects, number)[k], kind)
    requires forall i :: k < i < |objects| ==>
               HoldsNone(parse, kind, Values(objects, number)[i], |Interleave(prose, objects)|)
    ensures FromText(parse, kind, Interleave(prose, objects)) == Some(Values(objects, number)[k])
  {
    ScannerFindsPrintedObjects(prose, objects);
    ObjectsRead(parse, objects, number);
    TextBelow(Interleave(prose, objects), parse);
    LastHitAt(parse, kind, Values(objects, number), |Interleave(prose, objects)|, k);
  }

  // ---- the loop of the text search ----

  method ParseResultPayloadFromText(parse: string -> Option<Json>, kind: string, text: string)
    returns (result: Option<Json>)
    requires Shrinks(parse)
    ensures result == FromText(parse, kind, text)
  {
    TextBelow(text, parse);
    var payloads := CollectBalancedJsonObjects(text, parse);
    var last: Option<Json> := None;
    var i := 0;
    while i < |payloads|
      invariant 0 <= i <= |payloads|
      invariant LastHit(parse, kind, payloads, |text|) ==
                match LastHit(parse, kind, payloads[i..], |text|) case Some(v) => Some(v) case None => last
    {
      assert payloads[i..][1..] == payloads[i + 1..];
      var hit := FromPayload(parse, kind, payloads[i], |text|);
      if hit.Some? { last := hit; }
      i := i + 1;
    }
    if last.Some? { return last; }
    var lines := LinePayloads(Lines(text), parse);
    i := 0;
    while i < |lines|
      invariant 0 <= i <= |lines|
      invariant FirstHit(parse, kind, lines[i..], |text|) == FirstHit(parse, kind, lines, |text|)
    {
      assert lines[i..][1..] == lines[i + 1..];
      var hit := FromPayload(parse, kind, lines[i], |text|);
      if hit.Some? { return hit; }
      i := i + 1;
    }
    result := None;
  }
}
