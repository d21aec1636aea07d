/**
 The append-only notification log of a workflow run: its text, what opening,
 appending, rotating and crashing do to it, and what readers see.
 */
module NotificationLog {
  import opened Common
  import opened TextLines

  /** A record; `body` stands for its time, phase and payload. */
  datatype Record = Record(number: nat, body: string)

  datatype Codec = Codec(encode: Record -> string, decode: string -> Option<Record>)

  predicate EncodesLine(c: Codec, r: Record) {
    var line := c.encode(r);
    && c.decode(line) == Some(r) && line != "" && line[|line| - 1] != '\r'
    && OneLine(line)
  }

  /** Compact JSON: one line, not ending in a carriage return, that reads back as a 64-bit number. */
  ghost predicate CodecOk(c: Codec) {
    forall r: Record :: r.number < SEQUENCE_LIMIT ==> EncodesLine(c, r)
  }

  const SEQUENCE_LIMIT: nat := 0x1_0000_0000_0000_0000
  const ROTATION_THRESHOLD: nat := 100 * 1024 * 1024

  // ---- reading a log ----

  function TrimReturns(s: string): string {
    if s != "" && s[|s| - 1] == '\r' then TrimReturns(s[..|s| - 1]) else s
  }

  /** The record on a terminated line; blank and unreadable lines hold none. */
  function LineRecords(c: Codec, line: string): seq<Record> {
    var trimmed := TrimReturns(line);
    if trimmed == "" then []
    else match c.decode(trimmed)
         case Some(r) => [r]
         case None => []
  }

  /** The records of the terminated lines, in order. */
  function Records(c: Codec, text: string): seq<Record>
    decreases |text|
  {
    var n := LineEnd(text);
    if n == |text| then [] else LineRecords(c, text[..n]) + Records(c, text[n + 1..])
  }

  /** How much of a text its terminated lines take. */
  function ValidBytes(text: string): (n: nat)
    ensures n <= |text|
    decreases |text|
  {
    var n := LineEnd(text);
    if n == |text| then 0 else n + 1 + ValidBytes(text[n + 1..])
  }

  predicate AllTerminated(text: string) {
    ValidBytes(text) == |text|
  }

  function MaxSeq(rs: seq<Record>): nat {
    if rs == [] then 0
    else
      var m := MaxSeq(rs[..|rs| - 1]);
      if rs[|rs| - 1].number > m then rs[|rs| - 1].number else m
  }

  function After(rs: seq<Record>, from: nat): seq<Record> {
    if rs == [] then []
    else After(rs[..|rs| - 1], from) + (if rs[|rs| - 1].number > from then [rs[|rs| - 1]] else [])
  }

  /** The first line of a longer text is the same line. */
  lemma FirstLine(a: string, b: string)
    requires LineEnd(a) < |a|
    ensures var n := LineEnd(a);
            LineEnd(a + b) == n && (a + b)[..n] == a[..n] && (a + b)[n + 1..] == a[n + 1..] + b
  {
    var line, rest := a[..LineEnd(a)], a[LineEnd(a) + 1..];
    SplitLine(a);
    LineEndAt(line, rest + b);
    Pieces(line, rest + b);
    Assoc(line + "\n", rest, b);
  }

  /** After terminated lines, what follows is read on its own. */
  lemma {:induction false} ReadConcat(c: Codec, a: string, b: string)
    requires AllTerminated(a)
    ensures Records(c, a + b) == Records(c, a) + Records(c, b)
    ensures ValidBytes(a + b) == |a| + ValidBytes(b)
    decreases |a|
  {
    if a == "" {
      assert a + b == b;
    } else {
      FirstLine(a, b);
      var n := LineEnd(a);
      ReadConcat(c, a[n + 1..], b);
      Assoc(LineRecords(c, a[..n]), Records(c, a[n + 1..]), Records(c, b));
    }
  }

  /** A text that is one line, terminated or cut short. */
  lemma ReadLine(c: Codec, r: Record, n: nat)
    requires EncodesLine(c, r) && n <= |c.encode(r)| + 1
    ensures var text := (c.encode(r) + "\n")[..n];
            && Records(c, text) == (if n == |c.encode(r)| + 1 then [r] else [])
            && ValidBytes(text) == (if n == |c.encode(r)| + 1 then n else 0)
  {
    var line := c.encode(r);
    var text := (line + "\n")[..n];
    if n == |line| + 1 {
      assert text == line + "\n" + "";
      LineEndAt(line, "");
      assert text[..|line|] == line && text[|line| + 1..] == "";
    } else {
      assert text == line[..n];
      LineEndAt(text, "");
    }
  }

  /** Cutting a text to its valid bytes keeps its records and leaves terminated lines only. */
  predicate CutsWell(c: Codec, text: string) {
    var kept := text[..ValidBytes(text)];
    Records(c, kept) == Records(c, text) && AllTerminated(kept) && OneLine(text[ValidBytes(text)..])
  }

  lemma CutAfter(c: Codec, a: string, b: string)
    requires AllTerminated(a) && CutsWell(c, b)
    ensures CutsWell(c, a + b)
  {
    var kept := b[..ValidBytes(b)];
    ReadConcat(c, a, b);
    ReadConcat(c, a, kept);
    assert (a + b)[..ValidBytes(a + b)] == a + kept;
    assert (a + b)[ValidBytes(a + b)..] == b[ValidBytes(b)..];
  }

  /**
   For every text: cutting it to its valid bytes keeps all its records, leaves
   only terminated lines, and what is cut off holds no complete line.
   */
  lemma {:induction false} TruncationLosesNoLine(c: Codec, text: string)
    ensures var kept := text[..ValidBytes(text)];
            Records(c, kept) == Records(c, text) && AllTerminated(kept) && OneLine(text[ValidBytes(text)..])
    decreases |text|
  {
    var n := LineEnd(text);
    if n == |text| {
      LineEndIsFirst(text);
      assert text[..n] == text == text[0..];
    } else {
      SplitLine(text);
      TruncationLosesNoLine(c, text[n + 1..]);
      ReadTerminated(text[..n]);
      CutAfter(c, text[..n] + "\n", text[n + 1..]);
    }
  }

  lemma ReadTerminated(line: string)
    requires OneLine(line)
    ensures AllTerminated(line + "\n")
  {
    LineEndAt(line, "");
    assert line + "\n" + "" == line + "\n";
    assert (line + "\n")[|line| + 1..] == "";
  }

  lemma {:induction false} AfterConcat(a: seq<Record>, b: seq<Record>, from: nat)
    ensures After(a + b, from) == After(a, from) + After(b, from)
    decreases |b|
  {
    if b == [] {
      assert a + b == a;
    } else {
      assert (a + b)[..|a + b| - 1] == a + b[..|b| - 1];
      AfterConcat(a, b[..|b| - 1], from);
    }
  }

  // ---- what happens to a log ----

  /** The primary file, absent before the first opening, and the rotated ones by index. */
  datatype Disk = Disk(primary: Option<string>, rotated: map<nat, string>)

  datatype Log = Closed(disk: Disk) | Open(disk: Disk, last: nat)

  /** `kept`: how much of the line being written reached the file before a crash. */
  datatype Event =
    | Append(body: string)
    | CrashInAppend(body: string, kept: nat)
    | Crash
    | Reopen
    | Rotate
    | CrashInRotate

  function Text(d: Disk): string {
    d.primary.GetOr("")
  }

  /** Sequence numbers are 64-bit counters. */
  function NextSeq(last: nat): nat {
    (last + 1) % SEQUENCE_LIMIT
  }

  function Line(c: Codec, last: nat, body: string): string {
    c.encode(Record(NextSeq(last), body)) + "\n"
  }

  predicate IsMaxIndex(indices: set<nat>, m: nat) {
    (m == 0 || m in indices) && forall i :: i in indices ==> i <= m
  }

  lemma {:induction false} MaxIndexExists(indices: set<nat>)
    ensures exists m :: IsMaxIndex(indices, m)
  {
    if indices == {} {
      assert IsMaxIndex(indices, 0);
    } else {
      var i :| i in indices;
      MaxIndexExists(indices - {i});
      var m :| IsMaxIndex(indices - {i}, m);
      assert forall j :: j in indices ==> j == i || j in indices - {i};
      assert IsMaxIndex(indices, if i > m then i else m);
    }
  }

  ghost function MaxIndex(indices: set<nat>): (m: nat)
    ensures IsMaxIndex(indices, m)
  {
    MaxIndexExists(indices);
    var m :| IsMaxIndex(indices, m);
    m
  }

  predicate Possible(c: Codec, log: Log, e: Event) {
    match e
    case Append(_) => log.Open?
    case CrashInAppend(body, kept) => log.Open? && kept <= |Line(c, log.last, body)|
    case Crash => true
    case Reopen => log.Closed?
    case Rotate => log.Open? && |Text(log.disk)| >= ROTATION_THRESHOLD
    case CrashInRotate => log.Open? && |Text(log.disk)| >= ROTATION_THRESHOLD
  }

  function Written(d: Disk, text: string): Disk {
    d.(primary := Some(Text(d) + text))
  }

  /** The primary file moved to the next free index. */
  ghost function Moved(d: Disk): Disk {
    Disk(None, d.rotated[MaxIndex(d.rotated.Keys) + 1 := Text(d)])
  }

  function Opened(c: Codec, d: Disk): Log {
    var kept := Text(d)[..ValidBytes(Text(d))];
    Open(d.(primary := Some(kept)), MaxSeq(Records(c, kept)))
  }

  ghost function Step(c: Codec, log: Log, e: Event): Log
    requires Possible(c, log, e)
  {
    match e
    case Append(body) => Open(Written(log.disk, Line(c, log.last, body)), NextSeq(log.last))
    case CrashInAppend(body, kept) => Closed(Written(log.disk, Line(c, log.last, body)[..kept]))
    case Crash => Closed(log.disk)
    case Reopen => Opened(c, log.disk)
    case Rotate => Open(Moved(log.disk).(primary := Some("")), log.last)
    case CrashInRotate => Closed(Moved(log.disk))
  }

  ghost predicate Runs(c: Codec, log: Log, events: seq<Event>)
    decreases |events|
  {
    events == [] || (Possible(c, log, events[0]) && Runs(c, Step(c, log, events[0]), events[1..]))
  }

  ghost function End(c: Codec, log: Log, events: seq<Event>): Log
    requires Runs(c, log, events)
    decreases |events|
  {
    if events == [] then log else End(c, Step(c, log, events[0]), events[1..])
  }

  // ---- the order of the primary file ----

  predicate Increasing(rs: seq<Record>) {
    (forall i :: 0 <= i < |rs| ==> rs[i].number >= 1)
    && forall i, j :: 0 <= i < j < |rs| ==> rs[i].number < rs[j].number
  }

  predicate TextOrdered(c: Codec, text: string) {
    Increasing(Records(c, text)) && MaxSeq(Records(c, text)) < SEQUENCE_LIMIT
  }

  /** No line is torn and no record is ahead of the counter. */
  predicate UpToDate(c: Codec, text: string, last: nat) {
    AllTerminated(text) && MaxSeq(Records(c, text)) <= last < SEQUENCE_LIMIT
  }

  predicate Ordered(c: Codec, log: Log) {
    TextOrdered(c, Text(log.disk)) && (log.Open? ==> UpToDate(c, Text(log.disk), log.last))
  }

  lemma {:induction false} MaxBounds(rs: seq<Record>)
    ensures forall i :: 0 <= i < |rs| ==> rs[i].number <= MaxSeq(rs)
  {
    if rs != [] { MaxBounds(rs[..|rs| - 1]); }
  }

  lemma {:induction false} MaxIsLast(rs: seq<Record>)
    requires Increasing(rs)
    ensures MaxSeq(rs) == if rs == [] then 0 else rs[|rs| - 1].number
  {
    if rs != [] { MaxIsLast(rs[..|rs| - 1]); }
  }

  lemma IncreasingPush(rs: seq<Record>, r: Record)
    requires Increasing(rs) && MaxSeq(rs) < r.number
    ensures Increasing(rs + [r]) && MaxSeq(rs + [r]) == r.number
  {
    MaxBounds(rs);
    assert (rs + [r])[..|rs|] == rs;
  }

  /** The counter has not run out when a record is written. */
  predicate InRange(log: Log, e: Event) {
    (e.Append? || e.CrashInAppend?) && log.Open? ==> log.last + 1 < SEQUENCE_LIMIT
  }

  lemma LineAdds(c: Codec, text: string, last: nat, body: string, kept: nat)
    requires CodecOk(c) && AllTerminated(text) && last + 1 < SEQUENCE_LIMIT && kept <= |Line(c, last, body)|
    ensures var more := text + Line(c, last, body)[..kept];
            if kept == |Line(c, last, body)|
            then Records(c, more) == Records(c, text) + [Record(last + 1, body)] && AllTerminated(more)
            else Records(c, more) == Records(c, text) && ValidBytes(more) == |text|
  {
    var r := Record(last + 1, body);
    assert EncodesLine(c, r);
    ReadLine(c, r, kept);
    ReadConcat(c, text, Line(c, last, body)[..kept]);
  }

  lemma LineOrdered(c: Codec, text: string, last: nat, body: string, kept: nat)
    requires CodecOk(c) && TextOrdered(c, text) && UpToDate(c, text, last)
    requires last + 1 < SEQUENCE_LIMIT && kept <= |Line(c, last, body)|
    ensures var more := text + Line(c, last, body)[..kept];
            TextOrdered(c, more) && (kept == |Line(c, last, body)| ==> UpToDate(c, more, last + 1))
  {
    LineAdds(c, text, last, body, kept);
    IncreasingPush(Records(c, text), Record(last + 1, body));
  }

  lemma OpenedOrdered(c: Codec, d: Disk)
    requires TextOrdered(c, Text(d))
    ensures Ordered(c, Opened(c, d))
    ensures Records(c, Text(Opened(c, d).disk)) == Records(c, Text(d))
  {
    TruncationLosesNoLine(c, Text(d));
  }

  lemma NextIsMore(last: nat)
    requires last + 1 < SEQUENCE_LIMIT
    ensures NextSeq(last) == last + 1
  {
  }

  lemma WholeLineOrdered(c: Codec, text: string, last: nat, body: string)
    requires CodecOk(c) && TextOrdered(c, text) && UpToDate(c, text, last) && last + 1 < SEQUENCE_LIMIT
    ensures TextOrdered(c, text + Line(c, last, body)) && UpToDate(c, text + Line(c, last, body), last + 1)
  {
    var line := Line(c, last, body);
    assert line[..|line|] == line;
    LineOrdered(c, text, last, body, |line|);
  }

  lemma AppendOrdered(c: Codec, log: Log, body: string)
    requires CodecOk(c) && Ordered(c, log) && log.Open? && InRange(log, Append(body))
    ensures Ordered(c, Step(c, log, Append(body)))
  {
    WholeLineOrdered(c, Text(log.disk), log.last, body);
    NextIsMore(log.last);
    assert Step(c, log, Append(body)) == Open(Written(log.disk, Line(c, log.last, body)), log.last + 1);
  }

  lemma OrderKept(c: Codec, log: Log, e: Event)
    requires CodecOk(c) && Ordered(c, log) && Possible(c, log, e) && InRange(log, e)
    ensures Ordered(c, Step(c, log, e))
  {
    if e.Append? {
      AppendOrdered(c, log, e.body);
    } else if e.CrashInAppend? {
      LineOrdered(c, Text(log.disk), log.last, e.body, e.kept);
    } else if e.Reopen? {
      OpenedOrdered(c, log.disk);
    }
  }

  ghost predicate RunsInRange(c: Codec, log: Log, events: seq<Event>)
    decreases |events|
  {
    events == [] ||
    (Possible(c, log, events[0]) && InRange(log, events[0]) && RunsInRange(c, Step(c, log, events[0]), events[1..]))
  }

  /**
   Over every sequence of appends, crashes leaving any prefix of the line being
   written, reopenings and rotations, the complete records of the primary file
   have strictly increasing sequence numbers, until a 64-bit counter runs out.
   */
  lemma {:induction false} PrimaryIncreases(c: Codec, log: Log, events: seq<Event>)
    requires CodecOk(c) && Ordered(c, log) && RunsInRange(c, log, events)
    ensures Runs(c, log, events) && Ordered(c, End(c, log, events))
    ensures Increasing(Records(c, Text(End(c, log, events).disk)))
    decreases |events|
  {
    if events != [] {
      OrderKept(c, log, events[0]);
      PrimaryIncreases(c, Step(c, log, events[0]), events[1..]);
    }
  }

  const NO_LOG := Closed(Disk(None, map[]))

  /** No log at all is a good start. */
  lemma StartOrdered(c: Codec)
    ensures Ordered(c, NO_LOG)
  {
    assert Records(c, Text(NO_LOG.disk)) == [];
  }

  /** Rotating overwrites no rotated file: every text on disk is still there. */
  lemma RotationKeepsTexts(d: Disk)
    ensures var k := MaxIndex(d.rotated.Keys) + 1;
            && k !in d.rotated && Moved(d).rotated == d.rotated[k := Text(d)]
            && forall i :: i in d.rotated ==> Moved(d).rotated[i] == d.rotated[i]
  {
  }
}
