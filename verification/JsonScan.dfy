/**
 Finding the JSON objects embedded in the text a model prints: the brace
 scanner, and that on texts made of printed objects and brace-free prose it
 finds exactly those objects.
 */
module JsonScan {
  import opened Common
  import opened Json
  import opened JsonText

  // ---- the scanner's state ----

  datatype Scan = Scan(depth: nat, inString: bool, escaped: bool)

  /** The state after one character; None when the character closes the object. */
  function Step(s: Scan, c: char): Option<Scan> {
    if s.inString then
      if s.escaped then Some(s.(escaped := false))
      else if c == '\\' then Some(s.(escaped := true))
      else if c == '"' then Some(s.(inString := false))
      else Some(s)
    else if c == '"' then Some(s.(inString := true))
    else if c == '{' then Some(s.(depth := s.depth + 1))
    else if c == '}' then
      if s.depth <= 1 then None else Some(s.(depth := s.depth - 1))
    else Some(s)
  }

  /** The state after a text that does not close the object; None if it does. */
  function After(s: Scan, text: string): Option<Scan>
    decreases text
  {
    if text == "" then Some(s)
    else match Step(s, text[0])
         case None => None
         case Some(next) => After(next, text[1..])
  }

  function Outside(depth: nat): Scan {
    Scan(depth, false, false)
  }

  function Inside(depth: nat): Scan {
    Scan(depth, true, false)
  }

  lemma {:induction false} AfterConcat(s: Scan, a: string, b: string)
    ensures After(s, a + b) == match After(s, a) case None => None case Some(s') => After(s', b)
    decreases a
  {
    if a == "" {
      assert a + b == b;
    } else {
      assert (a + b)[1..] == a[1..] + b;
      match Step(s, a[0])
      case None =>
      case Some(next) => AfterConcat(next, a[1..], b);
    }
  }

  // ---- balanced_object_end ----

  /** Where the object head before `i`, read up to `i` in state `s`, closes. */
  function Close(text: string, i: nat, s: Scan): (end: Option<nat>)
    requires i <= |text|
    ensures end.Some? ==> i <= end.value < |text|
    decreases |text| - i
  {
    if i == |text| then None
    else match Step(s, text[i])
         case None => Some(i)
         case Some(next) => Close(text, i + 1, next)
  }

  /**
   The end is the one place where the text read so far leaves the scanner at
   depth one outside strings and the next character is a closing brace.
   */
  lemma {:induction false} CloseIff(text: string, i: nat, s: Scan, end: nat)
    requires i <= end < |text| && s.depth >= 1 && (s.escaped ==> s.inString)
    ensures Close(text, i, s) == Some(end) <==> After(s, text[i..end]) == Some(Outside(1)) && text[end] == '}'
    decreases end - i
  {
    if i == end {
      assert text[i..end] == "";
    } else {
      assert text[i..end][0] == text[i] && text[i..end][1..] == text[i + 1..end];
      match Step(s, text[i])
      case None =>
      case Some(next) => CloseIff(text, i + 1, next, end);
    }
  }

  method BalancedObjectEnd(text: string, start: nat) returns (end: Option<nat>)
    requires start < |text| && text[start] == '{'
    ensures end == Close(text, start, Outside(0))
    ensures end.Some? ==> start < end.value
  {
    var depth: nat, inString, escaped := 0, false, false;
    var offset := start;
    while offset < |text|
      invariant start <= offset <= |text|
      invariant depth == 0 ==> offset == start
      invariant offset == start ==> !inString
      invariant escaped ==> inString
      invariant Close(text, offset, Scan(depth, inString, escaped)) == Close(text, start, Outside(0))
    {
      var c := text[offset];
      if inString {
        if escaped {
          escaped := false;
        } else if c == '\\' {
          escaped := true;
        } else if c == '"' {
          inString := false;
        }
      } else if c == '"' {
        inString := true;
      } else if c == '{' {
        depth := depth + 1;
      } else if c == '}' {
        depth := depth - 1;
        if depth == 0 { return Some(offset); }
      }
      offset := offset + 1;
    }
    end := None;
  }

  // ---- collect_balanced_json_objects ----

  function ClosesAt(text: string, i: nat): (end: Option<nat>)
    requires i < |text|
    ensures end.Some? ==> i <= end.value < |text|
  {
    if text[i] == '{' then Close(text, i, Outside(0)) else None
  }

  /** The balanced spans from `i` on, in order. */
  function Spans(text: string, i: nat): seq<string>
    requires i <= |text|
    decreases |text| - i
  {
    if i == |text| then []
    else match ClosesAt(text, i)
         case Some(end) => [text[i..end + 1]] + Spans(text, end + 1)
         case None => Spans(text, i + 1)
  }

  /** The object a span parses as, if it does. */
  function ParsedObject(span: string, parse: string -> Option<Json>): seq<Json> {
    match parse(span)
    case Some(v) => if v.Obj? then [v] else []
    case None => []
  }

  /** The spans that parse as objects, as values. */
  function Objects(spans: seq<string>, parse: string -> Option<Json>): seq<Json> {
    if spans == [] then [] else ParsedObject(spans[0], parse) + Objects(spans[1..], parse)
  }

  /** With `out` collected before `i`, the whole collection is `all`. */
  predicate Collected(text: string, i: nat, parse: string -> Option<Json>, out: seq<Json>, all: seq<Json>) {
    i <= |text| && out + Objects(Spans(text, i), parse) == all
  }

  lemma CollectNext(text: string, i: nat, parse: string -> Option<Json>, out: seq<Json>, all: seq<Json>)
    requires i < |text| && Collected(text, i, parse, out, all)
    ensures match ClosesAt(text, i)
            case Some(end) => Collected(text, end + 1, parse, out + ParsedObject(text[i..end + 1], parse), all)
            case None => Collected(text, i + 1, parse, out, all)
  {
    match ClosesAt(text, i)
    case None =>
    case Some(end) =>
      var span, rest := text[i..end + 1], Spans(text, end + 1);
      assert Spans(text, i) == [span] + rest;
      assert ([span] + rest)[1..] == rest;
      assert out + (ParsedObject(span, parse) + Objects(rest, parse))
          == (out + ParsedObject(span, parse)) + Objects(rest, parse);
  }

  method PushObject(out: seq<Json>, span: string, parse: string -> Option<Json>) returns (pushed: seq<Json>)
    ensures pushed == out + ParsedObject(span, parse)
  {
    pushed := out;
    var parsed := parse(span);
    if parsed.Some? && parsed.value.Obj? {
      pushed := pushed + [parsed.value];
    }
  }

  method CollectBalancedJsonObjects(text: string, parse: string -> Option<Json>) returns (out: seq<Json>)
    ensures out == Objects(Spans(text, 0), parse)
  {
    out := [];
    var i := 0;
    ghost var all := Objects(Spans(text, 0), parse);
    while i < |text|
      invariant Collected(text, i, parse, out, all)
    {
      CollectNext(text, i, parse, out, all);
      if text[i] == '{' {
        var closing := BalancedObjectEnd(text, i);
        if closing.Some? {
          out := PushObject(out, text[i..closing.value + 1], parse);
          i := closing.value + 1;
          continue;
        }
      }
      i := i + 1;
    }
  }

  // ---- printed texts leave the scanner where it was ----

  /** No character the scanner looks at outside strings. */
  predicate Quiet(text: string) {
    forall i :: 0 <= i < |text| ==> text[i] != '"' && text[i] != '{' && text[i] != '}'
  }

  lemma {:induction false} QuietAfter(text: string, depth: nat)
    requires Quiet(text)
    ensures After(Outside(depth), text) == Some(Outside(depth))
  {
    if text != "" { QuietAfter(text[1..], depth); }
  }

  lemma UnitAfter(u: Unit, depth: nat)
    requires UnitOk(u)
    ensures After(Inside(depth), UnitText(u)) == Some(Inside(depth))
  {
    match u
    case Plain(c) =>
      assert After(Inside(depth), UnitText(u)) == After(Inside(depth), UnitText(u)[1..]);
    case Escape(l) =>
      var escaped := Scan(depth, true, true);
      assert UnitText(u)[1..] == [l];
      assert After(escaped, [l]) == After(Inside(depth), [l][1..]);
    case Hex(code) =>
      CodeAfter(code, depth);
    case Pair(high, low) =>
      CodeAfter(high, depth);
      CodeAfter(low, depth);
      AfterConcat(Inside(depth), "\\u" + high, "\\u" + low);
      assert UnitText(u) == ("\\u" + high) + ("\\u" + low);
  }

  lemma CodeAfter(code: string, depth: nat)
    requires HexCode(code)
    ensures After(Inside(depth), "\\u" + code) == Some(Inside(depth))
  {
    var text := "\\u" + code;
    assert text[1..][1..] == code;
    HexAfter(code, depth);
  }

  lemma {:induction false} HexAfter(code: string, depth: nat)
    requires forall i :: 0 <= i < |code| ==> HexDigit(code[i])
    ensures After(Inside(depth), code) == Some(Inside(depth))
  {
    if code != "" { HexAfter(code[1..], depth); }
  }

  lemma {:induction false} UnitsAfter(units: seq<Unit>, depth: nat)
    requires UnitsOk(units)
    ensures After(Inside(depth), UnitsText(units)) == Some(Inside(depth))
  {
    if units != [] {
      UnitAfter(units[0], depth);
      AfterConcat(Inside(depth), UnitText(units[0]), UnitsText(units[1..]));
      UnitsAfter(units[1..], depth);
    }
  }

  lemma QuotedAfter(units: seq<Unit>, depth: nat)
    requires UnitsOk(units)
    ensures After(Outside(depth), Quoted(units)) == Some(Outside(depth))
  {
    UnitsAfter(units, depth);
    assert Quoted(units)[1..] == UnitsText(units) + "\"";
    AfterConcat(Inside(depth), UnitsText(units), "\"");
    assert After(Inside(depth), "\"") == Some(Outside(depth));
  }

  /** Two texts that leave the scanner alone, one after the other. */
  lemma Both(a: string, b: string, depth: nat)
    requires After(Outside(depth), a) == Some(Outside(depth))
    requires After(Outside(depth), b) == Some(Outside(depth))
    ensures After(Outside(depth), a + b) == Some(Outside(depth))
  {
    AfterConcat(Outside(depth), a, b);
  }

  lemma {:induction false} RenderAfter(d: Doc, depth: nat)
    requires WellFormed(d) && depth >= 1
    ensures After(Outside(depth), Render(d)) == Some(Outside(depth))
    decreases d
  {
    match d
    case Word(w) => ScalarAfter(d, depth);
    case Number(digits) => ScalarAfter(d, depth);
    case Text(units) => QuotedAfter(units, depth);
    case Array(open, items) =>
      ItemsAfter(items, depth);
      assert Quiet("[" + open);
      ArrayAfter("[" + open, RenderItems(items), depth);
    case Object(open, members) =>
      ObjectOpens(open, members, depth);
      ObjectAfter("{" + open + RenderMembers(members), depth);
  }

  lemma ScalarAfter(d: Doc, depth: nat)
    requires (d.Word? || d.Number?) && WellFormed(d)
    ensures After(Outside(depth), Render(d)) == Some(Outside(depth))
  {
    QuietAfter(Render(d), depth);
  }

  lemma ArrayAfter(head: string, items: string, depth: nat)
    requires Quiet(head) && After(Outside(depth), items) == Some(Outside(depth))
    ensures After(Outside(depth), head + items + "]") == Some(Outside(depth))
  {
    QuietAfter(head, depth);
    QuietAfter("]", depth);
    Both(head, items, depth);
    Both(head + items, "]", depth);
  }

  lemma ObjectAfter(head: string, depth: nat)
    requires depth >= 1 && After(Outside(depth), head) == Some(Outside(depth + 1))
    ensures After(Outside(depth), head + "}") == Some(Outside(depth))
  {
    AfterConcat(Outside(depth), head, "}");
    assert After(Outside(depth + 1), "}") == After(Outside(depth), "}"[1..]);
  }

  /** All of an object but its closing brace raises the depth by one. */
  lemma {:induction false} ObjectOpens(open: string, members: seq<Member>, depth: nat)
    requires Space(open) && MembersOk(members)
    ensures After(Outside(depth), "{" + open + RenderMembers(members)) == Some(Outside(depth + 1))
    decreases members, 1
  {
    QuietAfter(open, depth + 1);
    MembersAfter(members, depth + 1);
    Both(open, RenderMembers(members), depth + 1);
    var text := "{" + open + RenderMembers(members);
    assert text[1..] == open + RenderMembers(members);
  }

  lemma {:induction false} ItemsAfter(items: seq<Item>, depth: nat)
    requires ItemsOk(items) && depth >= 1
    ensures After(Outside(depth), RenderItems(items)) == Some(Outside(depth))
    decreases items
  {
    if items != [] {
      var i := items[0];
      var tail := i.after + (if |items| == 1 then "" else "," + i.gap);
      RenderAfter(i.value, depth);
      QuietAfter(tail, depth);
      Both(Render(i.value), tail, depth);
      ItemsAfter(items[1..], depth);
      Both(ItemText(i, |items| == 1), RenderItems(items[1..]), depth);
    }
  }

  lemma {:induction false} MembersAfter(members: seq<Member>, depth: nat)
    requires MembersOk(members) && depth >= 1
    ensures After(Outside(depth), RenderMembers(members)) == Some(Outside(depth))
    decreases members, 0
  {
    if members != [] {
      var m := members[0];
      var tail := m.after + (if |members| == 1 then "" else "," + m.gap);
      assert Quiet(tail) && Quiet(m.before + ":" + m.colon);
      RenderAfter(m.value, depth);
      MemberAfter(m.key, m.before + ":" + m.colon, Render(m.value), tail, depth);
      MembersAfter(members[1..], depth);
      Both(MemberText(m, |members| == 1), RenderMembers(members[1..]), depth);
    }
  }

  lemma MemberAfter(key: seq<Unit>, colon: string, value: string, tail: string, depth: nat)
    requires UnitsOk(key) && Quiet(colon) && Quiet(tail)
    requires After(Outside(depth), value) == Some(Outside(depth))
    ensures After(Outside(depth), Quoted(key) + colon + value + tail) == Some(Outside(depth))
  {
    QuotedAfter(key, depth);
    QuietAfter(colon, depth);
    QuietAfter(tail, depth);
    Both(Quoted(key), colon, depth);
    Both(Quoted(key) + colon, value, depth);
    Both(Quoted(key) + colon + value, tail, depth);
  }

  // ---- the scanner finds what was printed ----

  /** Prose and printed objects in turn. */
  function Interleave(prose: seq<string>, objects: seq<Doc>): string
    requires |prose| == |objects| + 1
  {
    if objects == [] then prose[0]
    else prose[0] + Render(objects[0]) + Interleave(prose[1..], objects[1..])
  }

  function Renders(objects: seq<Doc>): seq<string> {
    if objects == [] then [] else [Render(objects[0])] + Renders(objects[1..])
  }

  predicate BraceFree(s: string) {
    forall i :: 0 <= i < |s| ==> s[i] != '{'
  }

  predicate AllBraceFree(prose: seq<string>) {
    forall k :: 0 <= k < |prose| ==> BraceFree(prose[k])
  }

  predicate PrintedObject(d: Doc) {
    d.Object? && WellFormed(d)
  }

  predicate AllPrinted(objects: seq<Doc>) {
    forall k :: 0 <= k < |objects| ==> PrintedObject(objects[k])
  }

  lemma ObjectCloses(text: string, d: Doc, i: nat)
    requires PrintedObject(d) && i + |Render(d)| <= |text| && text[i..i + |Render(d)|] == Render(d)
    ensures text[i] == '{' && ClosesAt(text, i) == Some(i + |Render(d)| - 1)
  {
    var r := Render(d);
    var inner := "{" + d.open + RenderMembers(d.members);
    ObjectOpens(d.open, d.members, 0);
    var end := i + |r| - 1;
    assert r == inner + "}";
    assert text[i] == r[0] && text[end] == r[|r| - 1];
    assert text[i..end] == text[i..i + |r|][..|r| - 1];
    assert r[..|r| - 1] == inner;
    assert text[i..end][1..] == text[i + 1..end];
    CloseIff(text, i + 1, Outside(1), end);
  }

  lemma {:induction false} SpansSkip(text: string, i: nat, n: nat)
    requires i + n <= |text| && BraceFree(text[i..i + n])
    ensures Spans(text, i) == Spans(text, i + n)
    decreases n
  {
    if n > 0 {
      assert text[i] == text[i..i + n][0];
      assert text[i + 1..i + n] == text[i..i + n][1..];
      SpansSkip(text, i + 1, n - 1);
    }
  }

  lemma Slices(text: string, i: nat, a: string, b: string, c: string)
    requires i <= |text| && text[i..] == a + b + c
    ensures i + |a| + |b| <= |text| && text[i..i + |a|] == a
    ensures text[i + |a|..i + |a| + |b|] == b && text[i + |a| + |b|..] == c
  {
    var tail := text[i..];
    assert tail[..|a|] == a && tail[|a| + |b|..] == c;
    assert tail[|a|..|a| + |b|] == (a + b)[|a|..] == b;
  }

  /** Prose, then an object, then the rest. */
  lemma SpansOne(text: string, i: nat, p: string, d: Doc, rest: string)
    returns (j: nat)
    requires i <= |text| && text[i..] == p + Render(d) + rest && BraceFree(p) && PrintedObject(d)
    ensures j <= |text| && text[j..] == rest
    ensures Spans(text, i) == [Render(d)] + Spans(text, j)
  {
    Slices(text, i, p, Render(d), rest);
    j := i + |p| + |Render(d)|;
    SpansSkip(text, i, |p|);
    ObjectCloses(text, d, i + |p|);
  }

  lemma {:induction false} SpansFrom(text: string, i: nat, prose: seq<string>, objects: seq<Doc>)
    requires |prose| == |objects| + 1 && i <= |text| && text[i..] == Interleave(prose, objects)
    requires AllBraceFree(prose) && AllPrinted(objects)
    ensures Spans(text, i) == Renders(objects)
    decreases |objects|
  {
    if objects == [] {
      assert text[i..i + |prose[0]|] == prose[0];
      SpansSkip(text, i, |prose[0]|);
    } else {
      var j := SpansOne(text, i, prose[0], objects[0], Interleave(prose[1..], objects[1..]));
      SpansFrom(text, j, prose[1..], objects[1..]);
    }
  }

  /**
   Printer and scanner agree: in any text made of printed objects, whatever
   their layout, escapes and string contents, separated by prose without an
   opening brace, the scanner reports exactly the objects' texts, in order.
   */
  lemma {:induction false} ScannerFindsPrintedObjects(prose: seq<string>, objects: seq<Doc>)
    requires |prose| == |objects| + 1 && AllBraceFree(prose) && AllPrinted(objects)
    ensures Spans(Interleave(prose, objects), 0) == Renders(objects)
  {
    var text := Interleave(prose, objects);
    assert text[0..] == text;
    SpansFrom(text, 0, prose, objects);
  }

  /** The documents in one of the two usual layouts. */
  function LaidOut(objects: seq<Doc>, pretty: bool): seq<Doc>
    requires AllPrinted(objects)
  {
    if objects == [] then []
    else [if pretty then Pretty(objects[0], 0) else Compact(objects[0])] + LaidOut(objects[1..], pretty)
  }

  lemma {:induction false} LaidOutPrinted(objects: seq<Doc>, pretty: bool, number: string -> real)
    requires AllPrinted(objects)
    ensures |LaidOut(objects, pretty)| == |objects| && AllPrinted(LaidOut(objects, pretty))
  {
    if objects != [] {
      CompactKeepsValue(objects[0], number);
      PrettyKeepsValue(objects[0], 0, number);
      LaidOutPrinted(objects[1..], pretty, number);
    }
  }

  /** Objects printed compactly or pretty are found too. */
  lemma LaidOutObjectsAreFound(prose: seq<string>, objects: seq<Doc>, pretty: bool)
    requires |prose| == |objects| + 1 && AllBraceFree(prose) && AllPrinted(objects)
    ensures |LaidOut(objects, pretty)| == |objects|
    ensures Spans(Interleave(prose, LaidOut(objects, pretty)), 0) == Renders(LaidOut(objects, pretty))
  {
    LaidOutPrinted(objects, pretty, _ => 0.0);
    ScannerFindsPrintedObjects(prose, LaidOut(objects, pretty));
  }
}
