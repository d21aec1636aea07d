/** Config overrides of a CLI's argument list, seen as a map from keys to values. */
module ConfigOverrides {
  import opened Common
  import opened Json
  import opened TextLines

  datatype Override = Override(key: string, value: string)

  predicate NoEquals(s: string) {
    forall i :: 0 <= i < |s| ==> s[i] != '='
  }

  function EqualsAt(s: string): (n: nat)
    ensures n <= |s| && NoEquals(s[..n]) && (n < |s| ==> s[n] == '=')
  {
    if s == "" || s[0] == '=' then 0
    else
      assert s[1..][..EqualsAt(s[1..])] == s[1..1 + EqualsAt(s[1..])];
      1 + EqualsAt(s[1..])
  }

  /** An entry `key=value`, split at its first equals sign. */
  function ParseEntry(entry: string): Option<Override> {
    var trimmed := Trim(entry);
    var n := EqualsAt(trimmed);
    if n == |trimmed| then None
    else
      var key, value := Trim(trimmed[..n]), Trim(trimmed[n + 1..]);
      if key == "" || value == "" then None else Some(Override(key, value))
  }

  lemma {:induction false} TrimStartInside(s: string)
    requires NoEquals(s)
    ensures NoEquals(TrimStart(s))
  {
    if s != "" && IsSpace(s[0]) { TrimStartInside(s[1..]); }
  }

  /** The key of a parsed entry holds no equals sign, and neither part is empty. */
  lemma ParsedEntry(entry: string)
    requires ParseEntry(entry).Some?
    ensures var o := ParseEntry(entry).value;
            NoEquals(o.key) && o.key != "" && o.value != ""
  {
    var trimmed := Trim(entry);
    TrimStartInside(trimmed[..EqualsAt(trimmed)]);
  }

  // ---- the argument list ----

  predicate IsFlag(item: Json) {
    item == Str("-c") || item == Str("--config")
  }

  predicate HasKey(item: Json, key: string) {
    item.Str? && key + "=" <= item.s
  }

  predicate PairAt(args: seq<Json>, key: string, i: int) {
    0 <= i && i + 1 < |args| && IsFlag(args[i]) && HasKey(args[i + 1], key)
  }

  predicate NoPairIn(args: seq<Json>, key: string, lo: int, hi: int) {
    forall i :: lo <= i < hi ==> !PairAt(args, key, i)
  }

  predicate IsFirst(args: seq<Json>, key: string, p: nat) {
    PairAt(args, key, p) && NoPairIn(args, key, 0, p)
  }

  /** The first pair for a key, at or after `i`. */
  function FirstFrom(args: seq<Json>, key: string, i: nat): (p: Option<nat>)
    ensures p.Some? ==> i <= p.value && PairAt(args, key, p.value) && NoPairIn(args, key, i, p.value)
    ensures p.None? ==> NoPairIn(args, key, i, |args|)
    decreases |args| - i
  {
    if i >= |args| then None
    else if PairAt(args, key, i) then Some(i)
    else FirstFrom(args, key, i + 1)
  }

  function Entry(o: Override): Json {
    Str(o.key + "=" + o.value)
  }

  /** The first-pair view: what the list says of a key. */
  function Lookup(args: seq<Json>, key: string): Option<string> {
    match FirstFrom(args, key, 0)
    case Some(p) => Some(args[p + 1].s[|key| + 1..])
    case None => None
  }

  function ExecFrom(args: seq<Json>, i: nat): (p: nat)
    requires i <= |args|
    ensures p == 0 || (i <= p < |args| && args[p] == Str("exec"))
    decreases |args| - i
  {
    if i == |args| then 0 else if args[i] == Str("exec") then i else ExecFrom(args, i + 1)
  }

  function Inserted(args: seq<Json>, p: nat, o: Override): seq<Json>
    requires p <= |args|
  {
    args[..p] + [Str("-c"), Entry(o)] + args[p..]
  }

  function Ensure(args: seq<Json>, o: Override): seq<Json> {
    match FirstFrom(args, o.key, 0)
    case Some(p) => args[p + 1 := Entry(o)]
    case None => Inserted(args, ExecFrom(args, 0), o)
  }

  method CodexExecInsertIndex(args: seq<Json>) returns (p: nat)
    ensures p == ExecFrom(args, 0)
    ensures p <= |args|
  {
    p := 0;
    while p < |args|
      invariant p <= |args| && ExecFrom(args, p) == ExecFrom(args, 0)
    {
      if args[p] == Str("exec") { return; }
      p := p + 1;
    }
    p := 0;
  }

  method EnsureCodexConfigOverride(args: seq<Json>, o: Override) returns (edited: seq<Json>)
    ensures edited == Ensure(args, o)
  {
    edited := args;
    var prefix, target := o.key + "=", Str(o.key + "=" + o.value);
    var index := 0;
    while index + 1 < |edited|
      invariant 0 <= index && edited == args
      invariant FirstFrom(args, o.key, index) == FirstFrom(args, o.key, 0)
    {
      var flag, value := edited[index], edited[index + 1];
      if (flag == Str("-c") || flag == Str("--config")) && value.Str? && prefix <= value.s {
        edited := edited[index + 1 := target];
        return;
      }
      index := index + 1;
    }
    var p := CodexExecInsertIndex(edited);
    edited := edited[..p] + [Str("-c"), target] + edited[p..];
  }

  // ---- one override ----

  lemma FirstIs(args: seq<Json>, key: string, p: nat)
    requires IsFirst(args, key, p)
    ensures FirstFrom(args, key, 0) == Some(p)
  {
  }

  lemma {:induction false} EqualsAtKey(key: string, rest: string)
    requires NoEquals(key)
    ensures EqualsAt(key + "=" + rest) == |key|
  {
    var s := key + "=" + rest;
    if key != "" {
      EqualsAtKey(key[1..], rest);
      assert s[1..] == key[1..] + "=" + rest;
    }
  }

  lemma KeyOf(item: Json, key: string)
    requires NoEquals(key) && HasKey(item, key)
    ensures EqualsAt(item.s) == |key| && item.s[..|key|] == key
  {
    EqualsAtKey(key, item.s[|key| + 1..]);
    assert item.s == key + "=" + item.s[|key| + 1..];
  }

  /** An item holds at most one key without an equals sign. */
  lemma OneKey(item: Json, a: string, b: string)
    requires NoEquals(a) && NoEquals(b) && HasKey(item, a) && HasKey(item, b)
    ensures a == b
  {
    KeyOf(item, a);
    KeyOf(item, b);
  }

  lemma EntryHasKey(o: Override)
    ensures HasKey(Entry(o), o.key) && Entry(o).s[|o.key| + 1..] == o.value
  {
  }

  lemma NotFlagOrKey(key: string, item: Json)
    ensures HasKey(item, key) ==> !IsFlag(item) && item != Str("exec")
  {
    if HasKey(item, key) {
      assert item.s[|key|] == (key + "=")[|key|] == '=';
    }
  }

  /** Replacing the value of a key's pair moves no pair of any key. */
  lemma ReplacedPairs(args: seq<Json>, p: nat, o: Override, key: string, i: int)
    requires PairAt(args, o.key, p) && NoEquals(o.key) && NoEquals(key)
    ensures PairAt(args[p + 1 := Entry(o)], key, i) <==> PairAt(args, key, i)
  {
    EntryHasKey(o);
    NotFlagOrKey(o.key, Entry(o));
    NotFlagOrKey(o.key, args[p + 1]);
    if i == p && HasKey(Entry(o), key) { OneKey(Entry(o), key, o.key); }
    if i == p && HasKey(args[p + 1], key) { OneKey(args[p + 1], key, o.key); }
  }

  /** Where the items of a list are after the insertion. */
  function Shift(p: nat, i: int): int {
    if i < p then i else i + 2
  }

  /** Inserting before `exec`, or first, keeps the pairs of every key and adds one. */
  lemma InsertedPairs(args: seq<Json>, p: nat, o: Override, key: string, i: int)
    requires (p == 0 || (p < |args| && args[p] == Str("exec"))) && NoEquals(o.key) && NoEquals(key)
    ensures p <= |args|
    ensures PairAt(args, key, i) ==> PairAt(Inserted(args, p, o), key, Shift(p, i))
    ensures PairAt(Inserted(args, p, o), key, i) ==>
              (i == p && key == o.key) || (i < p && PairAt(args, key, i)) || (i >= p + 2 && PairAt(args, key, i - 2))
    ensures PairAt(Inserted(args, p, o), o.key, p)
  {
    var all := Inserted(args, p, o);
    EntryHasKey(o);
    NotFlagOrKey(o.key, Entry(o));
    assert all[p] == Str("-c") && all[p + 1] == Entry(o);
    NotFlagOrKey(key, Str("-c"));
    NotFlagOrKey(key, Str("exec"));
    if PairAt(all, key, i) && i == p { OneKey(Entry(o), key, o.key); }
  }

  lemma ReplacedFirst(args: seq<Json>, p: nat, o: Override)
    requires IsFirst(args, o.key, p) && NoEquals(o.key)
    ensures FirstFrom(args[p + 1 := Entry(o)], o.key, 0) == Some(p)
  {
    var all := args[p + 1 := Entry(o)];
    forall i: int ensures PairAt(all, o.key, i) <==> PairAt(args, o.key, i) { ReplacedPairs(args, p, o, o.key, i); }
    FirstIs(all, o.key, p);
  }

  lemma EnsureSets(args: seq<Json>, o: Override)
    requires NoEquals(o.key)
    ensures Lookup(Ensure(args, o), o.key) == Some(o.value)
  {
    EntryHasKey(o);
    match FirstFrom(args, o.key, 0)
    case Some(p) =>
      ReplacedFirst(args, p, o);
    case None =>
      var p := ExecFrom(args, 0);
      forall i | 0 <= i < p ensures !PairAt(Inserted(args, p, o), o.key, i) { InsertedPairs(args, p, o, o.key, i); }
      InsertedPairs(args, p, o, o.key, p);
      FirstIs(Inserted(args, p, o), o.key, p);
  }

  lemma EnsureKeepsOthers(args: seq<Json>, o: Override, key: string)
    requires NoEquals(o.key) && NoEquals(key) && key != o.key
    ensures Lookup(Ensure(args, o), key) == Lookup(args, key)
  {
    match FirstFrom(args, o.key, 0)
    case Some(p) => ReplacedKeepsOthers(args, p, o, key);
    case None => InsertedKeepsOthers(args, ExecFrom(args, 0), o, key);
  }

  lemma ReplacedKeepsOthers(args: seq<Json>, p: nat, o: Override, key: string)
    requires PairAt(args, o.key, p) && NoEquals(o.key) && NoEquals(key) && key != o.key
    ensures Lookup(args[p + 1 := Entry(o)], key) == Lookup(args, key)
    ensures FirstFrom(args[p + 1 := Entry(o)], key, 0) == FirstFrom(args, key, 0)
  {
    var all := args[p + 1 := Entry(o)];
    forall i ensures PairAt(all, key, i) <==> PairAt(args, key, i) { ReplacedPairs(args, p, o, key, i); }
    if FirstFrom(args, key, 0).Some? {
      var q := FirstFrom(args, key, 0).value;
      FirstIs(all, key, q);
      if q == p { OneKey(args[p + 1], key, o.key); }
    }
  }

  lemma InsertedKeepsOthers(args: seq<Json>, p: nat, o: Override, key: string)
    requires (p == 0 || (p < |args| && args[p] == Str("exec"))) && NoEquals(o.key) && NoEquals(key) && key != o.key
    ensures p <= |args| && Lookup(Inserted(args, p, o), key) == Lookup(args, key)
  {
    var all := Inserted(args, p, o);
    if FirstFrom(args, key, 0).Some? {
      var q := FirstFrom(args, key, 0).value;
      forall i | 0 <= i < Shift(p, q) ensures !PairAt(all, key, i) { InsertedPairs(args, p, o, key, i); }
      InsertedPairs(args, p, o, key, q);
      FirstIs(all, key, Shift(p, q));
      if p < |args| { NotFlagOrKey(key, args[p]); }
      assert all[Shift(p, q) + 1] == args[q + 1];
    } else {
      forall i | 0 <= i < |all| ensures !PairAt(all, key, i) { InsertedPairs(args, p, o, key, i); }
    }
  }

  // ---- a list of overrides ----

  predicate KeysOk(os: seq<Override>) {
    forall i :: 0 <= i < |os| ==> NoEquals(os[i].key)
  }

  function EnsureAll(args: seq<Json>, os: seq<Override>): seq<Json>
    decreases |os|
  {
    if os == [] then args else EnsureAll(Ensure(args, os[0]), os[1..])
  }

  method InjectOverrides(args: seq<Json>, os: seq<Override>) returns (edited: seq<Json>)
    ensures edited == EnsureAll(args, os)
  {
    edited := args;
    for i := 0 to |os|
      invariant EnsureAll(edited, os[i..]) == EnsureAll(args, os)
    {
      assert os[i..][1..] == os[i + 1..];
      edited := EnsureCodexConfigOverride(edited, os[i]);
    }
  }

  /** The map of a list of overrides: the last one wins. */
  function LastWins(os: seq<Override>): map<string, string> {
    if os == [] then map[] else map[os[0].key := os[0].value] + LastWins(os[1..])
  }

  /** Overrides refine a map: the first-pair view afterwards is the old one updated, last one winning. */
  lemma {:induction false} OverridesRefineMap(args: seq<Json>, os: seq<Override>, key: string)
    requires KeysOk(os) && NoEquals(key)
    ensures Lookup(EnsureAll(args, os), key) ==
            if key in LastWins(os) then Some(LastWins(os)[key]) else Lookup(args, key)
    decreases |os|
  {
    if os != [] {
      OverridesRefineMap(Ensure(args, os[0]), os[1..], key);
      if key == os[0].key { EnsureSets(args, os[0]); } else { EnsureKeepsOthers(args, os[0], key); }
    }
  }

  /** An override edits one item, or inserts two next to each other; everything else stays, in order. */
  lemma OthersStayInOrder(args: seq<Json>, o: Override) returns (p: nat)
    ensures p <= |args|
    ensures |Ensure(args, o)| == |args| + 2 ==> Ensure(args, o)[..p] + Ensure(args, o)[p + 2..] == args
    ensures |Ensure(args, o)| != |args| + 2 ==>
              |Ensure(args, o)| == |args| && forall i :: 0 <= i < |args| && i != p ==> Ensure(args, o)[i] == args[i]
  {
    match FirstFrom(args, o.key, 0)
    case Some(q) => p := q + 1;
    case None =>
      p := ExecFrom(args, 0);
      var all := Inserted(args, p, o);
      assert all[..p] == args[..p] && all[p + 2..] == args[p..];
  }

  /** An item that says something of one of these keys. */
  predicate Named(item: Json, keys: set<string>) {
    exists key :: key in keys && HasKey(item, key)
  }

  /** The items that are neither `-c` flags nor entries of these keys, in order. */
  function Others(args: seq<Json>, keys: set<string>): seq<Json> {
    if args == [] then []
    else (if args[0] == Str("-c") || Named(args[0], keys) then [] else [args[0]]) + Others(args[1..], keys)
  }

  function Flags(args: seq<Json>): nat {
    if args == [] then 0 else (if args[0] == Str("-c") then 1 else 0) + Flags(args[1..])
  }

  lemma {:induction false} OthersConcat(a: seq<Json>, b: seq<Json>, keys: set<string>)
    ensures Others(a + b, keys) == Others(a, keys) + Others(b, keys)
    ensures Flags(a + b) == Flags(a) + Flags(b)
  {
    if a == [] {
      assert a + b == b;
    } else {
      assert (a + b)[1..] == a[1..] + b;
      OthersConcat(a[1..], b, keys);
    }
  }

  /** Exchanging one entry of a key for another. */
  lemma ReplacedOthers(args: seq<Json>, p: nat, o: Override, keys: set<string>)
    requires PairAt(args, o.key, p) && o.key in keys
    ensures Others(args[p + 1 := Entry(o)], keys) == Others(args, keys)
    ensures Flags(args[p + 1 := Entry(o)]) == Flags(args)
  {
    var a, x, b := args[..p + 1], args[p + 1], args[p + 2..];
    EntryHasKey(o);
    NotFlagOrKey(o.key, Entry(o));
    NotFlagOrKey(o.key, x);
    assert args == a + [x] + b && args[p + 1 := Entry(o)] == a + [Entry(o)] + b;
    assert Named(x, keys) && Named(Entry(o), keys);
    assert [x][1..] == [] && [Entry(o)][1..] == [];
    OthersConcat(a, [x], keys);
    OthersConcat(a + [x], b, keys);
    OthersConcat(a, [Entry(o)], keys);
    OthersConcat(a + [Entry(o)], b, keys);
  }

  lemma PairOthers(o: Override, keys: set<string>)
    requires o.key in keys
    ensures Others([Str("-c"), Entry(o)], keys) == [] && Flags([Str("-c"), Entry(o)]) == 1
  {
    EntryHasKey(o);
    NotFlagOrKey(o.key, Entry(o));
    assert Named(Entry(o), keys);
    assert IsFlag(Str("-c")) && Entry(o) != Str("-c");
    var pair, last := [Str("-c"), Entry(o)], [Entry(o)];
    assert pair[1..] == last && last[1..] == [];
    assert Others(last, keys) == Others([], keys) && Flags(last) == Flags([]);
    assert Others(pair, keys) == Others(last, keys) && Flags(pair) == 1 + Flags(last);
  }

  lemma InsertedOthers(args: seq<Json>, p: nat, o: Override, keys: set<string>)
    requires p <= |args| && o.key in keys
    ensures Others(Inserted(args, p, o), keys) == Others(args, keys)
    ensures Flags(Inserted(args, p, o)) == Flags(args) + 1 && |Inserted(args, p, o)| == |args| + 2
  {
    var a, b, pair := args[..p], args[p..], [Str("-c"), Entry(o)];
    assert args == a + b && Inserted(args, p, o) == a + pair + b;
    PairOthers(o, keys);
    OthersConcat(a, b, keys);
    OthersConcat(a, pair, keys);
    OthersConcat(a + pair, b, keys);
  }

  /**
   Over a whole list of overrides, everything but `-c` flags and entries of the
   overridden keys stays, in order; what is added is a flag and an entry at a time.
   */
  lemma {:induction false} AllOthersStayInOrder(args: seq<Json>, os: seq<Override>, keys: set<string>)
    requires KeysOk(os) && forall i :: 0 <= i < |os| ==> os[i].key in keys
    ensures Others(EnsureAll(args, os), keys) == Others(args, keys)
    ensures |EnsureAll(args, os)| == |args| + 2 * (Flags(EnsureAll(args, os)) - Flags(args))
    decreases |os|
  {
    if os != [] {
      match FirstFrom(args, os[0].key, 0) {
        case Some(p) => ReplacedOthers(args, p, os[0], keys);
        case None => InsertedOthers(args, ExecFrom(args, 0), os[0], keys);
      }
      AllOthersStayInOrder(Ensure(args, os[0]), os[1..], keys);
    }
  }

  /** Without a pair for the key, a new one goes before the first `exec`, or first of all. */
  lemma InsertedBeforeExec(args: seq<Json>, o: Override, p: nat)
    requires forall i :: !PairAt(args, o.key, i)
    requires p <= |args| && forall i :: 0 <= i < p ==> args[i] != Str("exec")
    requires p == |args| || args[p] == Str("exec")
    ensures Ensure(args, o) ==
            if p < |args| then args[..p] + [Str("-c"), Str(o.key + "=" + o.value)] + args[p..]
            else [Str("-c"), Str(o.key + "=" + o.value)] + args
  {
    ExecIs(args, 0, p);
    assert args[..0] == [] && args[0..] == args;
  }

  lemma {:induction false} ExecIs(args: seq<Json>, i: nat, p: nat)
    requires i <= p <= |args| && (forall j :: i <= j < p ==> args[j] != Str("exec"))
    requires p == |args| || args[p] == Str("exec")
    ensures ExecFrom(args, i) == if p < |args| then p else 0
    decreases p - i
  {
    if i < p { ExecIs(args, i + 1, p); }
  }

  /** An entry that is written is read back: trimmed, and split at its first equals sign. */
  lemma EntryRoundTrip(key: string, value: string)
    requires NoEquals(key) && key != "" && value != "" && Trim(key) == key && Trim(value) == value
    requires Trim(key + "=" + value) == key + "=" + value
    ensures ParseEntry(key + "=" + value) == Some(Override(key, value))
  {
    EqualsAtKey(key, value);
    var s := key + "=" + value;
    assert s[..|key|] == key && s[|key| + 1..] == value;
  }

  /** A key that has its value already is left as it is. */
  lemma EnsureAgain(args: seq<Json>, o: Override)
    requires NoEquals(o.key) && Lookup(args, o.key) == Some(o.value)
    ensures Ensure(args, o) == args
  {
    var p := FirstFrom(args, o.key, 0).value;
    assert args[p + 1].s == (o.key + "=") + args[p + 1].s[|o.key| + 1..];
  }

  /** With a pair in place, a later override of the same key hides an earlier one. */
  lemma EnsureTwice(args: seq<Json>, k: string, v: string, w: string)
    requires NoEquals(k) && FirstFrom(args, k, 0).Some?
    ensures Ensure(Ensure(args, Override(k, v)), Override(k, w)) == Ensure(args, Override(k, w))
  {
    ReplacedFirst(args, FirstFrom(args, k, 0).value, Override(k, v));
  }

  /** With pairs in place, overrides of different keys commute. */
  lemma EnsureCommutes(args: seq<Json>, a: Override, b: Override)
    requires NoEquals(a.key) && NoEquals(b.key) && a.key != b.key
    requires FirstFrom(args, a.key, 0).Some? && FirstFrom(args, b.key, 0).Some?
    ensures Ensure(Ensure(args, a), b) == Ensure(Ensure(args, b), a)
  {
    var p, q := FirstFrom(args, a.key, 0).value, FirstFrom(args, b.key, 0).value;
    ReplacedKeepsOthers(args, p, a, b.key);
    ReplacedKeepsOthers(args, q, b, a.key);
    if p == q { OneKey(args[p + 1], a.key, b.key); }
  }

  predicate AllPresent(args: seq<Json>, os: seq<Override>) {
    forall i :: 0 <= i < |os| ==> FirstFrom(args, os[i].key, 0).Some?
  }

  lemma StillPresent(args: seq<Json>, o: Override, key: string)
    requires NoEquals(o.key) && NoEquals(key) && FirstFrom(args, key, 0).Some?
    ensures FirstFrom(Ensure(args, o), key, 0).Some?
  {
    if key == o.key { EnsureSets(args, o); } else { EnsureKeepsOthers(args, o, key); }
    assert Lookup(Ensure(args, o), key).Some?;
  }

  lemma AllStillPresent(args: seq<Json>, o: Override, os: seq<Override>)
    requires NoEquals(o.key) && KeysOk(os) && AllPresent(args, os)
    ensures AllPresent(Ensure(args, o), os)
  {
    forall i | 0 <= i < |os| ensures FirstFrom(Ensure(args, o), os[i].key, 0).Some? {
      StillPresent(args, o, os[i].key);
    }
  }

  /** An override whose key comes again later has no effect. */
  lemma {:induction false} Absorbed(args: seq<Json>, o: Override, os: seq<Override>)
    requires NoEquals(o.key) && KeysOk(os) && AllPresent(args, os) && o.key in LastWins(os)
    requires FirstFrom(args, o.key, 0).Some?
    ensures EnsureAll(Ensure(args, o), os) == EnsureAll(args, os)
    decreases |os|
  {
    if os[0].key == o.key {
      EnsureTwice(args, o.key, o.value, os[0].value);
    } else {
      EnsureCommutes(args, o, os[0]);
      AllStillPresent(args, os[0], os[1..]);
      StillPresent(args, os[0], o.key);
      Absorbed(Ensure(args, os[0]), o, os[1..]);
    }
  }

  /** The list says already what the overrides say. */
  predicate Settled(args: seq<Json>, os: seq<Override>) {
    forall k :: k in LastWins(os) ==> Lookup(args, k) == Some(LastWins(os)[k])
  }

  lemma {:induction false} SettledIsFixed(args: seq<Json>, os: seq<Override>)
    requires KeysOk(os) && AllPresent(args, os) && Settled(args, os)
    ensures EnsureAll(args, os) == args
    decreases |os|
  {
    if os != [] {
      SettledIsFixed(args, os[1..]);
      if os[0].key in LastWins(os[1..]) {
        Absorbed(args, os[0], os[1..]);
      } else {
        assert Lookup(args, os[0].key) == Some(LastWins(os)[os[0].key]);
        EnsureAgain(args, os[0]);
      }
    }
  }

  lemma {:induction false} LastWinsKeys(os: seq<Override>)
    ensures forall i :: 0 <= i < |os| ==> os[i].key in LastWins(os)
    ensures forall k :: k in LastWins(os) ==> exists i :: 0 <= i < |os| && os[i].key == k
  {
    if os != [] {
      LastWinsKeys(os[1..]);
      forall k | k in LastWins(os) ensures exists i :: 0 <= i < |os| && os[i].key == k {
        if k != os[0].key {
          var i :| 0 <= i < |os[1..]| && os[1..][i].key == k;
          assert os[i + 1].key == k;
        }
      }
    }
  }

  /** Injecting the same overrides again changes nothing, repeated keys included. */
  lemma OverridesAreIdempotent(args: seq<Json>, os: seq<Override>)
    requires KeysOk(os)
    ensures EnsureAll(EnsureAll(args, os), os) == EnsureAll(args, os)
  {
    var once := EnsureAll(args, os);
    LastWinsKeys(os);
    forall k | k in LastWins(os) ensures Lookup(once, k) == Some(LastWins(os)[k]) {
      OverridesRefineMap(args, os, k);
    }
    assert forall i :: 0 <= i < |os| ==> Lookup(once, os[i].key).Some?;
    SettledIsFixed(once, os);
  }
}
