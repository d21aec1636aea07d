/**
 JSON texts (RFC 8259): documents with their layout, as any printer may write
 them, the text of a document and the value it denotes.
 */
module JsonText {
  import opened Common
  import opened Json

  // ---- strings (RFC 8259, section 7) ----

  /** One source unit of a string literal. */
  datatype Unit = Plain(c: char) | Escape(letter: char) | Hex(code: string) | Pair(high: string, low: string)

  predicate HexDigit(c: char) {
    '0' <= c <= '9' || 'a' <= c <= 'f' || 'A' <= c <= 'F'
  }

  function DigitValue(c: char): (n: nat)
    requires HexDigit(c)
    ensures n < 16
  {
    if c <= '9' then c as int - '0' as int
    else if c <= 'F' then c as int - 'A' as int + 10
    else c as int - 'a' as int + 10
  }

  predicate HexCode(s: string) {
    |s| == 4 && forall i :: 0 <= i < 4 ==> HexDigit(s[i])
  }

  function CodeValue(s: string): (n: nat)
    requires HexCode(s)
    ensures n < 0x10000
  {
    4096 * DigitValue(s[0]) + 256 * DigitValue(s[1]) + 16 * DigitValue(s[2]) + DigitValue(s[3])
  }

  predicate UnitOk(u: Unit) {
    match u
    case Plain(c) => c >= ' ' && c != '"' && c != '\\'
    case Escape(l) => l in "\"\\/bfnrt"
    case Hex(code) => HexCode(code) && !(0xD800 <= CodeValue(code) < 0xE000)
    case Pair(high, low) =>
      HexCode(high) && HexCode(low) && 0xD800 <= CodeValue(high) < 0xDC00 && 0xDC00 <= CodeValue(low) < 0xE000
  }

  function UnitText(u: Unit): string {
    match u
    case Plain(c) => [c]
    case Escape(l) => ['\\', l]
    case Hex(code) => "\\u" + code
    case Pair(high, low) => "\\u" + high + "\\u" + low
  }

  function UnitChar(u: Unit): char
    requires UnitOk(u)
  {
    match u
    case Plain(c) => c
    case Escape(l) =>
      (match l
       case 'b' => 8 as char
       case 'f' => 12 as char
       case 'n' => '\n'
       case 'r' => '\r'
       case 't' => '\t'
       case _ => l)
    case Hex(code) => CodeValue(code) as char
    case Pair(high, low) => (0x10000 + 0x400 * (CodeValue(high) - 0xD800) + (CodeValue(low) - 0xDC00)) as char
  }

  predicate UnitsOk(units: seq<Unit>) {
    forall i :: 0 <= i < |units| ==> UnitOk(units[i])
  }

  function UnitsText(units: seq<Unit>): string {
    if units == [] then "" else UnitText(units[0]) + UnitsText(units[1..])
  }

  function Decoded(units: seq<Unit>): (s: string)
    requires UnitsOk(units)
    ensures |s| == |units|
  {
    seq(|units|, i requires 0 <= i < |units| => UnitChar(units[i]))
  }

  /** How a printer writes one character. */
  function Escaped(c: char): (u: Unit)
    ensures UnitOk(u)
  {
    if c == '"' || c == '\\' then Escape(c)
    else if c == '\n' then Escape('n')
    else if c == '\r' then Escape('r')
    else if c == '\t' then Escape('t')
    else if c == 8 as char then Escape('b')
    else if c == 12 as char then Escape('f')
    else if c < ' ' then
      assert c as int < 32;
      Hex("00" + [if c as int < 16 then '0' else '1', LowDigit(c as int % 16)])
    else Plain(c)
  }

  function LowDigit(n: nat): (c: char)
    requires n < 16
    ensures HexDigit(c) && DigitValue(c) == n
  {
    if n < 10 then (n + '0' as int) as char else (n - 10 + 'a' as int) as char
  }

  function Quote(s: string): (units: seq<Unit>)
    ensures UnitsOk(units) && |units| == |s|
  {
    seq(|s|, i requires 0 <= i < |s| => Escaped(s[i]))
  }

  /** What a printer writes for a string reads back as that string. */
  lemma QuoteRoundTrip(s: string)
    ensures Decoded(Quote(s)) == s
  {
    forall i | 0 <= i < |s|
      ensures UnitChar(Escaped(s[i])) == s[i]
    {
      EscapedChar(s[i]);
    }
  }

  lemma EscapedChar(c: char)
    ensures UnitChar(Escaped(c)) == c
  {
    if c < ' ' && Escaped(c).Hex? {
      var n := c as int;
      var code := Escaped(c).code;
      assert DigitValue(code[0]) == 0 && DigitValue(code[1]) == 0;
      assert CodeValue(code) == n;
    }
  }

  // ---- documents ----

  /** A document with its layout: `open`, `before`, `after` and `gap` are white space. */
  datatype Doc =
    | Word(word: string)
    | Number(digits: string)
    | Text(units: seq<Unit>)
    | Array(open: string, items: seq<Item>)
    | Object(open: string, members: seq<Member>)

  datatype Item = Item(value: Doc, after: string, gap: string)

  datatype Member = Member(key: seq<Unit>, before: string, colon: string, value: Doc, after: string, gap: string)

  predicate Space(s: string) {
    forall i :: 0 <= i < |s| ==> s[i] == ' ' || s[i] == '\t' || s[i] == '\n' || s[i] == '\r'
  }

  predicate NumberChar(c: char) {
    '0' <= c <= '9' || c == '+' || c == '-' || c == '.' || c == 'e' || c == 'E'
  }

  predicate NumberText(s: string) {
    s != "" && forall i :: 0 <= i < |s| ==> NumberChar(s[i])
  }

  predicate WellFormed(d: Doc) {
    match d
    case Word(w) => w == "null" || w == "true" || w == "false"
    case Number(digits) => NumberText(digits)
    case Text(units) => UnitsOk(units)
    case Array(open, items) => Space(open) && ItemsOk(items)
    case Object(open, members) => Space(open) && MembersOk(members)
  }

  predicate ItemsOk(items: seq<Item>) {
    items == [] ||
    (Space(items[0].after) && Space(items[0].gap) && WellFormed(items[0].value) && ItemsOk(items[1..]))
  }

  predicate MembersOk(members: seq<Member>) {
    members == [] ||
    (var m := members[0];
     && UnitsOk(m.key) && Space(m.before) && Space(m.colon) && Space(m.after) && Space(m.gap)
     && WellFormed(m.value) && MembersOk(members[1..]))
  }

  function Quoted(units: seq<Unit>): string {
    "\"" + UnitsText(units) + "\""
  }

  function Render(d: Doc): string {
    match d
    case Word(w) => w
    case Number(digits) => digits
    case Text(units) => Quoted(units)
    case Array(open, items) => "[" + open + RenderItems(items) + "]"
    case Object(open, members) => "{" + open + RenderMembers(members) + "}"
  }

  /** Items are separated by commas. */
  function ItemText(i: Item, last: bool): string {
    Render(i.value) + (i.after + (if last then "" else "," + i.gap))
  }

  function RenderItems(items: seq<Item>): string {
    if items == [] then "" else ItemText(items[0], |items| == 1) + RenderItems(items[1..])
  }

  function MemberText(m: Member, last: bool): string {
    Quoted(m.key) + (m.before + ":" + m.colon) + Render(m.value) + (m.after + (if last then "" else "," + m.gap))
  }

  function RenderMembers(members: seq<Member>): string {
    if members == [] then "" else MemberText(members[0], |members| == 1) + RenderMembers(members[1..])
  }

  /** The value a document denotes; `number` reads digits. A repeated key keeps its last value. */
  function Value(d: Doc, number: string -> real): Json
    requires WellFormed(d)
  {
    match d
    case Word(w) => if w == "null" then Null else Bool(w == "true")
    case Number(digits) => Num(number(digits))
    case Text(units) => Str(Decoded(units))
    case Array(_, items) => Arr(ItemValues(items, number))
    case Object(_, members) => Obj(MemberValues(members, number))
  }

  function ItemValues(items: seq<Item>, number: string -> real): seq<Json>
    requires ItemsOk(items)
  {
    if items == [] then [] else [Value(items[0].value, number)] + ItemValues(items[1..], number)
  }

  function MemberValues(members: seq<Member>, number: string -> real): map<string, Json>
    requires MembersOk(members)
  {
    if members == [] then map[]
    else map[Decoded(members[0].key) := Value(members[0].value, number)] + MemberValues(members[1..], number)
  }

  // ---- the two usual layouts ----

  /** No white space, strings escaped only where they must be. */
  function Compact(d: Doc): Doc
    requires WellFormed(d)
  {
    match d
    case Word(_) => d
    case Number(_) => d
    case Text(units) => Text(Quote(Decoded(units)))
    case Array(_, items) => Array("", CompactItems(items))
    case Object(_, members) => Object("", CompactMembers(members))
  }

  function CompactItems(items: seq<Item>): seq<Item>
    requires ItemsOk(items)
  {
    if items == [] then [] else [Item(Compact(items[0].value), "", "")] + CompactItems(items[1..])
  }

  function CompactMembers(members: seq<Member>): seq<Member>
    requires MembersOk(members)
  {
    if members == [] then []
    else [Member(Quote(Decoded(members[0].key)), "", "", Compact(members[0].value), "", "")]
         + CompactMembers(members[1..])
  }

  function Indent(depth: nat): (s: string)
    ensures Space(s)
  {
    "\n" + seq(2 * depth, _ => ' ')
  }

  /** One member or item per line, indented by two spaces a level. */
  function Pretty(d: Doc, depth: nat): Doc
    requires WellFormed(d)
    decreases d
  {
    match d
    case Word(_) => d
    case Number(_) => d
    case Text(units) => Text(Quote(Decoded(units)))
    case Array(_, items) =>
      Array(if items == [] then "" else Indent(depth + 1), PrettyItems(items, depth))
    case Object(_, members) =>
      Object(if members == [] then "" else Indent(depth + 1), PrettyMembers(members, depth))
  }

  function PrettyItems(items: seq<Item>, depth: nat): seq<Item>
    requires ItemsOk(items)
    decreases items
  {
    if items == [] then []
    else [Item(Pretty(items[0].value, depth + 1), if |items| == 1 then Indent(depth) else "", Indent(depth + 1))]
         + PrettyItems(items[1..], depth)
  }

  function PrettyMembers(members: seq<Member>, depth: nat): seq<Member>
    requires MembersOk(members)
    decreases members
  {
    if members == [] then []
    else [Member(Quote(Decoded(members[0].key)), "", " ", Pretty(members[0].value, depth + 1),
                 if |members| == 1 then Indent(depth) else "", Indent(depth + 1))]
         + PrettyMembers(members[1..], depth)
  }

  lemma {:induction false} CompactKeepsValue(d: Doc, number: string -> real)
    requires WellFormed(d)
    ensures WellFormed(Compact(d)) && Value(Compact(d), number) == Value(d, number)
  {
    match d
    case Word(_) =>
    case Number(_) =>
    case Text(units) => QuoteRoundTrip(Decoded(units));
    case Array(_, items) => CompactItemsKeep(items, number);
    case Object(_, members) => CompactMembersKeep(members, number);
  }

  lemma {:induction false} CompactItemsKeep(items: seq<Item>, number: string -> real)
    requires ItemsOk(items)
    ensures ItemsOk(CompactItems(items)) && ItemValues(CompactItems(items), number) == ItemValues(items, number)
  {
    if items != [] {
      CompactKeepsValue(items[0].value, number);
      CompactItemsKeep(items[1..], number);
      assert CompactItems(items)[1..] == CompactItems(items[1..]);
    }
  }

  lemma {:induction false} CompactMembersKeep(members: seq<Member>, number: string -> real)
    requires MembersOk(members)
    ensures MembersOk(CompactMembers(members))
    ensures MemberValues(CompactMembers(members), number) == MemberValues(members, number)
  {
    if members != [] {
      QuoteRoundTrip(Decoded(members[0].key));
      CompactKeepsValue(members[0].value, number);
      CompactMembersKeep(members[1..], number);
      assert CompactMembers(members)[1..] == CompactMembers(members[1..]);
    }
  }

  lemma {:induction false} PrettyKeepsValue(d: Doc, depth: nat, number: string -> real)
    requires WellFormed(d)
    ensures WellFormed(Pretty(d, depth)) && Value(Pretty(d, depth), number) == Value(d, number)
    decreases d
  {
    match d
    case Word(_) =>
    case Number(_) =>
    case Text(units) => QuoteRoundTrip(Decoded(units));
    case Array(_, items) => PrettyItemsKeep(items, depth, number);
    case Object(_, members) => PrettyMembersKeep(members, depth, number);
  }

  lemma {:induction false} PrettyItemsKeep(items: seq<Item>, depth: nat, number: string -> real)
    requires ItemsOk(items)
    ensures ItemsOk(PrettyItems(items, depth))
    ensures ItemValues(PrettyItems(items, depth), number) == ItemValues(items, number)
    decreases items
  {
    if items != [] {
      PrettyKeepsValue(items[0].value, depth + 1, number);
      PrettyItemsKeep(items[1..], depth, number);
      assert PrettyItems(items, depth)[1..] == PrettyItems(items[1..], depth);
    }
  }

  lemma {:induction false} PrettyMembersKeep(members: seq<Member>, depth: nat, number: string -> real)
    requires MembersOk(members)
    ensures MembersOk(PrettyMembers(members, depth))
    ensures MemberValues(PrettyMembers(members, depth), number) == MemberValues(members, number)
    decreases members
  {
    if members != [] {
      QuoteRoundTrip(Decoded(members[0].key));
      PrettyKeepsValue(members[0].value, depth + 1, number);
      PrettyMembersKeep(members[1..], depth, number);
      assert PrettyMembers(members, depth)[1..] == PrettyMembers(members[1..], depth);
    }
  }

  // ---- a text is longer than the strings it holds ----

  /** Every string value inside `v` is shorter than `n`. */
  ghost predicate StringsBelow(v: Json, n: nat) {
    match v
    case Str(s) => |s| < n
    case Arr(items) => forall i :: 0 <= i < |items| ==> StringsBelow(items[i], n)
    case Obj(fields) => forall k :: k in fields ==> StringsBelow(fields[k], n)
    case _ => true
  }

  lemma {:induction false} BelowMore(v: Json, n: nat, m: nat)
    requires StringsBelow(v, n) && n <= m
    ensures StringsBelow(v, m)
  {
    match v
    case Arr(items) =>
      forall i | 0 <= i < |items| ensures StringsBelow(items[i], m) { BelowMore(items[i], n, m); }
    case Obj(fields) =>
      forall k | k in fields ensures StringsBelow(fields[k], m) { BelowMore(fields[k], n, m); }
    case _ =>
  }

  lemma {:induction false} UnitsTextLong(units: seq<Unit>)
    ensures |UnitsText(units)| >= |units|
  {
    if units != [] { UnitsTextLong(units[1..]); }
  }

  lemma {:induction false} StringsShorter(d: Doc, number: string -> real)
    requires WellFormed(d)
    ensures StringsBelow(Value(d, number), |Render(d)|)
  {
    match d
    case Word(_) =>
    case Number(_) =>
    case Text(units) => UnitsTextLong(units);
    case Array(_, items) => ItemsShorter(items, number, |Render(d)|);
    case Object(_, members) => MembersShorter(members, number, |Render(d)|);
  }

  lemma {:induction false} ItemsShorter(items: seq<Item>, number: string -> real, n: nat)
    requires ItemsOk(items) && n >= |RenderItems(items)|
    ensures forall i :: 0 <= i < |ItemValues(items, number)| ==> StringsBelow(ItemValues(items, number)[i], n)
  {
    if items != [] {
      StringsShorter(items[0].value, number);
      BelowMore(Value(items[0].value, number), |Render(items[0].value)|, n);
      ItemsShorter(items[1..], number, n);
    }
  }

  lemma {:induction false} MembersShorter(members: seq<Member>, number: string -> real, n: nat)
    requires MembersOk(members) && n >= |RenderMembers(members)|
    ensures forall k :: k in MemberValues(members, number) ==> StringsBelow(MemberValues(members, number)[k], n)
  {
    if members != [] {
      StringsShorter(members[0].value, number);
      BelowMore(Value(members[0].value, number), |Render(members[0].value)|, n);
      MembersShorter(members[1..], number, n);
    }
  }
}
