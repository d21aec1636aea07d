/** Readers that poll the log with the last sequence number they saw. */
module NotificationTail {
  import opened Common
  import opened TextLines
  import opened NotificationLog

  /** A reader: the last number it saw and all it received. */
  datatype Reader = Reader(from: nat, got: seq<Record>)

  function Poll(c: Codec, text: string, r: Reader): Reader {
    var unseen := After(Records(c, text), r.from);
    Reader(if unseen == [] then r.from else unseen[|unseen| - 1].number, r.got + unseen)
  }

  /** The reader has seen a first part of the records after `start`, and asks from its end. */
  predicate Following(rs: seq<Record>, start: nat, r: Reader) {
    r.got <= After(rs, start) && r.from == if r.got == [] then start else r.got[|r.got| - 1].number
  }

  lemma {:induction false} AfterMember(rs: seq<Record>, from: nat, i: nat)
    requires i < |After(rs, from)|
    ensures After(rs, from)[i] in rs && After(rs, from)[i].number > from
  {
    if i < |After(rs[..|rs| - 1], from)| { AfterMember(rs[..|rs| - 1], from, i); }
  }

  lemma {:induction false} NoneAfter(rs: seq<Record>, from: nat)
    requires Increasing(rs) && (rs == [] || rs[|rs| - 1].number <= from)
    ensures After(rs, from) == []
  {
    if rs != [] { NoneAfter(rs[..|rs| - 1], from); }
  }

  /** What a follower gets next completes what it has. */
  lemma {:induction false} Completes(rs: seq<Record>, start: nat, r: Reader)
    requires Increasing(rs) && Following(rs, start, r)
    ensures r.got + After(rs, r.from) == After(rs, start)
    decreases |rs|
  {
    if rs != [] {
      var front, last := rs[..|rs| - 1], rs[|rs| - 1];
      if last.number <= start {
        NoneAfter(rs, start);
      } else if r.got == After(rs, start) {
        NoneAfter(rs, r.from);
      } else {
        assert r.got <= After(front, start) by { PrefixOfFront(r.got, After(front, start), last); }
        if r.got != [] { AfterMember(front, start, |r.got| - 1); }
        Completes(front, start, r);
        Assoc(r.got, After(front, r.from), [last]);
      }
    }
  }

  lemma PrefixOfFront<T>(a: seq<T>, b: seq<T>, x: T)
    requires a <= b + [x] && a != b + [x]
    ensures a <= b
  {
    assert |a| <= |b|;
    assert forall i :: 0 <= i < |a| ==> a[i] == (b + [x])[i];
  }

  lemma PollSeesAll(c: Codec, text: string, start: nat, r: Reader)
    requires Increasing(Records(c, text)) && Following(Records(c, text), start, r)
    ensures Poll(c, text, r).got == After(Records(c, text), start)
    ensures Following(Records(c, text), start, Poll(c, text, r))
  {
    Completes(Records(c, text), start, r);
  }

  lemma StillFollows(rs: seq<Record>, more: seq<Record>, start: nat, r: Reader)
    requires Following(rs, start, r)
    ensures Following(rs + more, start, r)
  {
    AfterConcat(rs, more, start);
  }

  /** The record an event adds to the primary file, if it completes one; rotations aside. */
  function Added(c: Codec, log: Log, e: Event): seq<Record> {
    match e
    case Append(body) => if log.Open? then [Record(log.last + 1, body)] else []
    case CrashInAppend(body, kept) =>
      if log.Open? && kept == |Line(c, log.last, body)| then [Record(log.last + 1, body)] else []
    case _ => []
  }

  lemma LineGrows(c: Codec, d: Disk, last: nat, body: string, kept: nat)
    requires CodecOk(c) && AllTerminated(Text(d)) && last + 1 < SEQUENCE_LIMIT && kept <= |Line(c, last, body)|
    ensures Records(c, Text(Written(d, Line(c, last, body)[..kept]))) ==
            Records(c, Text(d)) + (if kept == |Line(c, last, body)| then [Record(last + 1, body)] else [])
  {
    LineAdds(c, Text(d), last, body, kept);
  }

  lemma WholeLineGrows(c: Codec, d: Disk, last: nat, body: string)
    requires CodecOk(c) && AllTerminated(Text(d)) && last + 1 < SEQUENCE_LIMIT
    ensures Records(c, Text(Written(d, Line(c, last, body)))) == Records(c, Text(d)) + [Record(last + 1, body)]
  {
    var line := Line(c, last, body);
    LineGrows(c, d, last, body, |line|);
    assert line[..|line|] == line;
  }

  /** What an append leaves in the primary file. */
  lemma AppendText(c: Codec, log: Log, body: string)
    requires log.Open?
    ensures Text(Step(c, log, Append(body)).disk) == Text(Written(log.disk, Line(c, log.last, body)))
  {
  }

  lemma TornText(c: Codec, log: Log, body: string, kept: nat)
    requires log.Open? && kept <= |Line(c, log.last, body)|
    ensures Text(Step(c, log, CrashInAppend(body, kept)).disk) ==
            Text(Written(log.disk, Line(c, log.last, body)[..kept]))
  {
  }

  lemma AppendGrows(c: Codec, log: Log, body: string)
    requires CodecOk(c) && log.Open? && UpToDate(c, Text(log.disk), log.last) && log.last + 1 < SEQUENCE_LIMIT
    ensures Records(c, Text(Step(c, log, Append(body)).disk)) ==
            Records(c, Text(log.disk)) + [Record(log.last + 1, body)]
  {
    AppendText(c, log, body);
    WholeLineGrows(c, log.disk, log.last, body);
  }

  lemma TornGrows(c: Codec, log: Log, body: string, kept: nat)
    requires CodecOk(c) && log.Open? && UpToDate(c, Text(log.disk), log.last) && log.last + 1 < SEQUENCE_LIMIT
    requires kept <= |Line(c, log.last, body)|
    ensures Records(c, Text(Step(c, log, CrashInAppend(body, kept)).disk)) ==
            Records(c, Text(log.disk))
            + (if kept == |Line(c, log.last, body)| then [Record(log.last + 1, body)] else [])
  {
    TornText(c, log, body, kept);
    LineGrows(c, log.disk, log.last, body, kept);
  }

  /** Between rotations events only add complete records. */
  lemma RecordsGrow(c: Codec, log: Log, e: Event)
    requires CodecOk(c) && Ordered(c, log) && Possible(c, log, e) && InRange(log, e)
    requires !e.Rotate? && !e.CrashInRotate?
    ensures Records(c, Text(Step(c, log, e).disk)) == Records(c, Text(log.disk)) + Added(c, log, e)
  {
    match e
    case Append(body) => AppendGrows(c, log, body);
    case CrashInAppend(body, kept) => TornGrows(c, log, body, kept);
    case Crash => NoneAdded(c, log);
    case Reopen => OpenedOrdered(c, log.disk);
  }

  lemma NoneAdded(c: Codec, log: Log)
    ensures Records(c, Text(Step(c, log, Crash).disk)) == Records(c, Text(log.disk)) + []
  {
  }

  datatype Act = Do(e: Event) | Look

  /** A run between rotations, with polls anywhere in it. */
  ghost predicate Watched(c: Codec, log: Log, acts: seq<Act>)
    decreases |acts|
  {
    acts == [] ||
    (match acts[0]
     case Look => Watched(c, log, acts[1..])
     case Do(e) =>
       && Possible(c, log, e) && InRange(log, e) && !e.Rotate? && !e.CrashInRotate?
       && Watched(c, Step(c, log, e), acts[1..]))
  }

  ghost function Watch(c: Codec, log: Log, r: Reader, acts: seq<Act>): (Log, Reader)
    requires Watched(c, log, acts)
    decreases |acts|
  {
    if acts == [] then (log, r)
    else match acts[0]
         case Look => Watch(c, log, Poll(c, Text(log.disk), r), acts[1..])
         case Do(e) => Watch(c, Step(c, log, e), r, acts[1..])
  }

  lemma {:induction false} WatchFollows(c: Codec, log: Log, start: nat, r: Reader, acts: seq<Act>)
    requires CodecOk(c) && Ordered(c, log) && Watched(c, log, acts)
    requires Following(Records(c, Text(log.disk)), start, r)
    ensures var (log', r') := Watch(c, log, r, acts);
            Ordered(c, log') && Following(Records(c, Text(log'.disk)), start, r')
    decreases |acts|
  {
    if acts != [] {
      match acts[0]
      case Look =>
        PollSeesAll(c, Text(log.disk), start, r);
        WatchFollows(c, log, start, Poll(c, Text(log.disk), r), acts[1..]);
      case Do(e) =>
        RecordsGrow(c, log, e);
        StillFollows(Records(c, Text(log.disk)), Added(c, log, e), start, r);
        OrderKept(c, log, e);
        WatchFollows(c, Step(c, log, e), start, r, acts[1..]);
    }
  }

  /**
   Exactly-once tailing: between rotations, over every run of appends, torn
   lines, crashes and reopenings with polls anywhere, what a reader has received
   is a first part of the complete records after its starting number, in order
   and without repetition, and one more poll makes it all of them.
   */
  lemma TailExactlyOnce(c: Codec, log: Log, start: nat, acts: seq<Act>)
    requires CodecOk(c) && Ordered(c, log) && Watched(c, log, acts)
    ensures var (log', r) := Watch(c, log, Reader(start, []), acts);
            var records := Records(c, Text(log'.disk));
            && Increasing(records) && r.got <= After(records, start)
            && Poll(c, Text(log'.disk), r).got == After(records, start)
  {
    WatchFollows(c, log, start, Reader(start, []), acts);
    var (log', r) := Watch(c, log, Reader(start, []), acts);
    PollSeesAll(c, Text(log'.disk), start, r);
  }
}
