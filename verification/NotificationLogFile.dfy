/** The notification log as the runner writes it: an open file in a directory. */
module NotificationLogFile {
  import opened Common
  import opened TextLines
  import opened NotificationLog

  /** The run directory of a workflow. */
  class Directory {
    var primary: Option<string>
    var rotated: map<nat, string>

    constructor (primary: Option<string>, rotated: map<nat, string>)
      ensures Contents() == Disk(primary, rotated)
    {
      this.primary := primary;
      this.rotated := rotated;
    }

    function Contents(): Disk
      reads this
    {
      Disk(primary, rotated)
    }
  }

  lemma {:induction false} MaxOfConcat(a: seq<Record>, b: seq<Record>)
    ensures MaxSeq(a + b) == if MaxSeq(a) > MaxSeq(b) then MaxSeq(a) else MaxSeq(b)
    decreases |b|
  {
    if b == [] {
      assert a + b == a;
    } else {
      assert (a + b)[..|a + b| - 1] == a + b[..|b| - 1];
      MaxOfConcat(a, b[..|b| - 1]);
    }
  }

  function Max(a: nat, b: nat): nat {
    if a > b then a else b
  }

  /** The largest number on a line. */
  function LineMax(c: Codec, line: string): nat {
    MaxSeq(LineRecords(c, line))
  }

  /** The largest number on the terminated lines, line by line. */
  function TextMax(c: Codec, text: string): nat
    decreases |text|
  {
    var n := LineEnd(text);
    if n == |text| then 0 else Max(LineMax(c, text[..n]), TextMax(c, text[n + 1..]))
  }

  lemma {:induction false} TextMaxIsMax(c: Codec, text: string)
    ensures TextMax(c, text) == MaxSeq(Records(c, text))
    decreases |text|
  {
    var n := LineEnd(text);
    if n < |text| {
      TextMaxIsMax(c, text[n + 1..]);
      MaxOfConcat(LineRecords(c, text[..n]), Records(c, text[n + 1..]));
    }
  }

  /** With a number and a length found before it, `rest` decides what the scan finds. */
  predicate Scanned(c: Codec, text: string, rest: string, maxSeq: nat, bytes: nat) {
    TextMax(c, text) == Max(maxSeq, TextMax(c, rest)) && ValidBytes(text) == bytes + ValidBytes(rest)
  }

  lemma ScanOn(c: Codec, text: string, rest: string, maxSeq: nat, bytes: nat)
    requires Scanned(c, text, rest, maxSeq, bytes) && LineEnd(rest) < |rest|
    ensures var n := LineEnd(rest);
            Scanned(c, text, rest[n + 1..], Max(maxSeq, LineMax(c, rest[..n])), bytes + n + 1)
  {
  }

  lemma ScanEnds(c: Codec, text: string, rest: string, maxSeq: nat, bytes: nat)
    requires Scanned(c, text, rest, maxSeq, bytes) && LineEnd(rest) == |rest|
    ensures MaxSeq(Records(c, text)) == maxSeq && ValidBytes(text) == bytes
  {
    TextMaxIsMax(c, text);
  }

  method ScanMaxSeqAndValidBytes(c: Codec, text: string) returns (maxSeq: nat, validBytes: nat)
    ensures maxSeq == MaxSeq(Records(c, text)) && validBytes == ValidBytes(text)
  {
    maxSeq, validBytes := 0, 0;
    var rest := text;
    while rest != ""
      invariant Scanned(c, text, rest, maxSeq, validBytes)
      decreases |rest|
    {
      var n := LineEnd(rest);
      if n == |rest| { break; }
      ScanOn(c, text, rest, maxSeq, validBytes);
      maxSeq := Larger(c, rest[..n], maxSeq);
      validBytes := validBytes + n + 1;
      rest := rest[n + 1..];
    }
    ScanEnds(c, text, rest, maxSeq, validBytes);
  }

  lemma MaxOfOne(r: Record)
    ensures MaxSeq([r]) == r.number
  {
    assert [r][..0] == [];
  }

  method Larger(c: Codec, line: string, maxSeq: nat) returns (m: nat)
    ensures m == Max(maxSeq, LineMax(c, line))
  {
    m := maxSeq;
    var trimmed := TrimReturns(line);
    if trimmed == "" { return; }
    var record := c.decode(trimmed);
    if record.Some? {
      MaxOfOne(record.value);
      if record.value.number > m { m := record.value.number; }
    }
  }

  class NotificationLogHandle {
    const codec: Codec
    const dir: Directory
    var last: nat

    ghost predicate Valid()
      reads this, dir
    {
      last < SEQUENCE_LIMIT && dir.primary.Some?
    }

    ghost function State(): Log
      reads this, dir
    {
      Open(dir.Contents(), last)
    }

    /** Opens or creates the log of a directory. */
    constructor OpenLog(codec: Codec, dir: Directory)
      requires MaxSeq(Records(codec, Text(dir.Contents()))) < SEQUENCE_LIMIT
      modifies dir
      ensures this.dir == dir && this.codec == codec && Valid()
      ensures State() == Opened(codec, old(dir.Contents()))
    {
      this.codec := codec;
      this.dir := dir;
      var text := dir.primary.GetOr("");
      TruncationLosesNoLine(codec, text);
      var maxSeq, validBytes := ScanMaxSeqAndValidBytes(codec, text);
      last := maxSeq;
      new;
      assert text[..|text|] == text;
      if |text| > validBytes {
        text := text[..validBytes];
      }
      dir.primary := Some(text);
    }

    /**
     Appends a record. `crash` says how much of its line reaches the file when
     the process dies in the middle; None is an append that completes.
     */
    method Append(body: string, crash: Option<nat>)
      requires Valid()
      requires crash.Some? ==> Possible(codec, State(), CrashInAppend(body, crash.value))
      modifies this, dir
      ensures Valid()
      ensures crash.None? ==> State() == Step(codec, old(State()), NotificationLog.Append(body))
      ensures crash.Some? ==> Closed(dir.Contents()) == Step(codec, old(State()), CrashInAppend(body, crash.value))
    {
      last := (last + 1) % SEQUENCE_LIMIT;
      var line := codec.encode(Record(last, body)) + "\n";
      if crash.Some? { line := line[..crash.value]; }
      dir.primary := Some(dir.primary.GetOr("") + line);
    }

    /** Moves a primary file that reached the threshold to the next free index. */
    method RotateIfNeeded(listing: seq<nat>)
      requires Valid() && Indices(listing) == dir.rotated.Keys
      modifies dir
      ensures Valid()
      ensures State() ==
              if Possible(codec, old(State()), Rotate) then Step(codec, old(State()), Rotate) else old(State())
    {
      var text := dir.primary.GetOr("");
      if |text| < ROTATION_THRESHOLD { return; }
      var next := NextRotationIndex(listing);
      dir.rotated := dir.rotated[next := text];
      dir.primary := None;
      dir.primary := Some("");
    }
  }

  ghost function Indices(listing: seq<nat>): set<nat> {
    set i | i in listing
  }

  method NextRotationIndex(listing: seq<nat>) returns (next: nat)
    ensures next == MaxIndex(Indices(listing)) + 1
  {
    var maxIndex := 0;
    for k := 0 to |listing|
      invariant maxIndex == 0 || maxIndex in listing
      invariant forall i :: 0 <= i < k ==> listing[i] <= maxIndex
    {
      if listing[k] > maxIndex { maxIndex := listing[k]; }
    }
    assert maxIndex == 0 || maxIndex in Indices(listing);
    assert MaxIndex(Indices(listing)) == 0 || MaxIndex(Indices(listing)) in listing;
    next := maxIndex + 1;
  }

  /** The complete records after a sequence number. */
  method Tail(c: Codec, dir: Directory, from: nat) returns (out: seq<Record>)
    ensures out == After(Records(c, Text(dir.Contents())), from)
  {
    out := [];
    if dir.primary.None? { return; }
    var text := dir.primary.value;
    var rest := text;
    while rest != ""
      invariant TailFrom(c, rest, from, out) == TailFrom(c, text, from, [])
      decreases |rest|
    {
      var n := LineEnd(rest);
      if n == |rest| { break; }
      var newer := Newer(c, rest[..n], from);
      out := out + newer;
      rest := rest[n + 1..];
    }
    assert TailFrom(c, rest, from, out) == out;
    TailFinds(c, text, from, []);
  }

  /** Collecting on from `rest`, line by line. */
  function TailFrom(c: Codec, rest: string, from: nat, out: seq<Record>): seq<Record>
    decreases |rest|
  {
    var n := LineEnd(rest);
    if n == |rest| then out
    else TailFrom(c, rest[n + 1..], from, out + After(LineRecords(c, rest[..n]), from))
  }

  lemma {:induction false} TailFinds(c: Codec, rest: string, from: nat, out: seq<Record>)
    ensures TailFrom(c, rest, from, out) == out + After(Records(c, rest), from)
    decreases |rest|
  {
    var n := LineEnd(rest);
    if n < |rest| {
      var here := LineRecords(c, rest[..n]);
      TailFinds(c, rest[n + 1..], from, out + After(here, from));
      AfterConcat(here, Records(c, rest[n + 1..]), from);
      Assoc(out, After(here, from), After(Records(c, rest[n + 1..]), from));
    }
  }

  method Newer(c: Codec, line: string, from: nat) returns (out: seq<Record>)
    ensures out == After(LineRecords(c, line), from)
  {
    out := [];
    var trimmed := TrimReturns(line);
    if trimmed == "" { return; }
    var record := c.decode(trimmed);
    if record.None? { return; }
    assert LineRecords(c, line)[..0] == [];
    if record.value.number > from { out := out + [record.value]; }
  }
}
