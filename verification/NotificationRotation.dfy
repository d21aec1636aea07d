/**
 Polling across rotations: exactly when a reader gets every record once. A
 rotation takes away what the reader has not polled, and reopening an empty
 file hands out numbers that the reader has seen before.
 */
module NotificationRotation {
  import opened Common
  import opened TextLines
  import opened NotificationLog
  import opened NotificationTail

  // ---- runs with rotations, and all that was completed in them ----

  predicate Rotates(e: Event) {
    e.Rotate? || e.CrashInRotate?
  }

  ghost predicate CanRun(c: Codec, log: Log, acts: seq<Act>)
    decreases |acts|
  {
    acts == [] ||
    (match acts[0]
     case Look => CanRun(c, log, acts[1..])
     case Do(e) => Possible(c, log, e) && InRange(log, e) && CanRun(c, Step(c, log, e), acts[1..]))
  }

  /** The log, the reader and every record completed so far. */
  datatype Seen = Seen(log: Log, reader: Reader, completed: seq<Record>)

  ghost function AfterAct(c: Codec, s: Seen, a: Act): Seen
    requires a.Do? ==> Possible(c, s.log, a.e)
  {
    match a
    case Look => s.(reader := Poll(c, Text(s.log.disk), s.reader))
    case Do(e) => s.(log := Step(c, s.log, e), completed := s.completed + Added(c, s.log, e))
  }

  ghost function RunActs(c: Codec, s: Seen, acts: seq<Act>): Seen
    requires CanRun(c, s.log, acts)
    decreases |acts|
  {
    if acts == [] then s else RunActs(c, AfterAct(c, s, acts[0]), acts[1..])
  }

  /** What the next poll would give. */
  function Unseen(c: Codec, s: Seen): seq<Record> {
    After(Records(c, Text(s.log.disk)), s.reader.from)
  }

  /**
   An act the reader survives: a rotation when it has polled everything, and a
   record numbered above what it has seen.
   */
  predicate SafeAct(c: Codec, s: Seen, a: Act) {
    match a
    case Look => true
    case Do(e) =>
      && (Rotates(e) ==> Unseen(c, s) == [])
      && (Added(c, s.log, e) != [] && s.log.Open? ==> s.reader.from <= s.log.last)
  }

  ghost predicate SafeRun(c: Codec, s: Seen, acts: seq<Act>)
    requires CanRun(c, s.log, acts)
    decreases |acts|
  {
    acts == [] || (SafeAct(c, s, acts[0]) && SafeRun(c, AfterAct(c, s, acts[0]), acts[1..]))
  }

  // ---- the reader's deficit ----

  /** One more poll makes the reader complete. */
  predicate OnTrack(c: Codec, s: Seen) {
    s.completed == s.reader.got + Unseen(c, s)
  }

  /** How many completed records the reader has not and will not get. */
  function Lost(c: Codec, s: Seen): int {
    |s.completed| - |s.reader.got| - |Unseen(c, s)|
  }

  lemma {:induction false} AfterLast(rs: seq<Record>, from: nat)
    requires Increasing(rs) && After(rs, from) != []
    ensures rs != [] && After(rs, from)[|After(rs, from)| - 1] == rs[|rs| - 1]
  {
    if rs[|rs| - 1].number <= from { NoneAfter(rs, from); }
  }

  lemma PollClears(c: Codec, s: Seen)
    requires Ordered(c, s.log)
    ensures var t := AfterAct(c, s, Look);
            Unseen(c, t) == [] && t.reader.got == s.reader.got + Unseen(c, s)
  {
    var rs, t := Records(c, Text(s.log.disk)), AfterAct(c, s, Look);
    if Unseen(c, s) != [] {
      AfterLast(rs, s.reader.from);
      NoneAfter(rs, rs[|rs| - 1].number);
      assert t.reader.from == rs[|rs| - 1].number;
    } else {
      assert t.reader.from == s.reader.from;
    }
  }

  lemma AfterOne(x: Record, from: nat)
    ensures After([x], from) == if x.number > from then [x] else []
  {
    assert [x][..0] == [];
    assert After([], from) == [];
  }

  /** A rotation leaves an empty primary file. */
  lemma RotatedEmpty(c: Codec, s: Seen, e: Event)
    requires Rotates(e) && Possible(c, s.log, e)
    ensures Unseen(c, AfterAct(c, s, Do(e))) == [] && Added(c, s.log, e) == []
  {
    assert Records(c, "") == [];
  }

  /** Any other event adds what it completes to what the reader can see, if its number is new. */
  lemma UnseenGrows(c: Codec, s: Seen, e: Event)
    requires CodecOk(c) && Ordered(c, s.log) && Possible(c, s.log, e) && InRange(s.log, e) && !Rotates(e)
    ensures var added := Added(c, s.log, e);
            && Unseen(c, AfterAct(c, s, Do(e))) == Unseen(c, s) + After(added, s.reader.from)
            && |added| <= 1
            && (added != [] ==> s.log.Open? && added[0].number == s.log.last + 1)
            && After(added, s.reader.from) == (if added != [] && s.log.last < s.reader.from then [] else added)
  {
    RecordsGrow(c, s.log, e);
    AfterConcat(Records(c, Text(s.log.disk)), Added(c, s.log, e), s.reader.from);
    if Added(c, s.log, e) != [] { AfterOne(Added(c, s.log, e)[0], s.reader.from); }
  }

  lemma SafeActKeepsTrack(c: Codec, s: Seen, a: Act)
    requires CodecOk(c) && Ordered(c, s.log) && OnTrack(c, s) && SafeAct(c, s, a)
    requires a.Do? ==> Possible(c, s.log, a.e) && InRange(s.log, a.e)
    ensures OnTrack(c, AfterAct(c, s, a))
  {
    if a.Look? {
      PollClears(c, s);
    } else if Rotates(a.e) {
      RotatedEmpty(c, s, a.e);
    } else {
      UnseenGrows(c, s, a.e);
      Assoc(s.reader.got, Unseen(c, s), Added(c, s.log, a.e));
    }
  }

  /** What is lost is never found again, and an unsafe act loses something. */
  lemma UnsafeActLoses(c: Codec, s: Seen, a: Act)
    requires CodecOk(c) && Ordered(c, s.log)
    requires a.Do? ==> Possible(c, s.log, a.e) && InRange(s.log, a.e)
    ensures Lost(c, AfterAct(c, s, a)) >= Lost(c, s) + if SafeAct(c, s, a) then 0 else 1
  {
    if a.Look? {
      PollClears(c, s);
    } else if Rotates(a.e) {
      RotatedEmpty(c, s, a.e);
    } else {
      UnseenGrows(c, s, a.e);
    }
  }

  lemma ActKeepsOrder(c: Codec, s: Seen, a: Act)
    requires CodecOk(c) && Ordered(c, s.log)
    requires a.Do? ==> Possible(c, s.log, a.e) && InRange(s.log, a.e)
    ensures Ordered(c, AfterAct(c, s, a).log)
  {
    if a.Do? { OrderKept(c, s.log, a.e); }
  }

  lemma {:induction false} SafeRunKeepsTrack(c: Codec, s: Seen, acts: seq<Act>)
    requires CodecOk(c) && Ordered(c, s.log) && OnTrack(c, s) && CanRun(c, s.log, acts) && SafeRun(c, s, acts)
    ensures OnTrack(c, RunActs(c, s, acts)) && Ordered(c, RunActs(c, s, acts).log)
    decreases |acts|
  {
    if acts != [] {
      SafeActKeepsTrack(c, s, acts[0]);
      ActKeepsOrder(c, s, acts[0]);
      SafeRunKeepsTrack(c, AfterAct(c, s, acts[0]), acts[1..]);
    }
  }

  lemma {:induction false} UnsafeRunLoses(c: Codec, s: Seen, acts: seq<Act>)
    requires CodecOk(c) && Ordered(c, s.log) && CanRun(c, s.log, acts)
    ensures Lost(c, RunActs(c, s, acts)) >= Lost(c, s) + if SafeRun(c, s, acts) then 0 else 1
    ensures Ordered(c, RunActs(c, s, acts).log)
    decreases |acts|
  {
    if acts != [] {
      UnsafeActLoses(c, s, acts[0]);
      ActKeepsOrder(c, s, acts[0]);
      UnsafeRunLoses(c, AfterAct(c, s, acts[0]), acts[1..]);
    }
  }

  /** A reader that starts after a number, on a log as it is. */
  function Begin(c: Codec, log: Log, start: nat): Seen {
    Seen(log, Reader(start, []), After(Records(c, Text(log.disk)), start))
  }

  /**
   Exactly once, over every run of appends, torn lines, crashes, reopenings,
   rotations and polls: one more poll gives the reader every record completed
   since its start, once and in order, if and only if it had polled everything
   at each rotation and each record completed later was numbered above what it
   had seen.
   */
  lemma ExactlyOnceIff(c: Codec, log: Log, start: nat, acts: seq<Act>)
    requires CodecOk(c) && Ordered(c, log) && CanRun(c, log, acts)
    ensures var s := RunActs(c, Begin(c, log, start), acts);
            Poll(c, Text(s.log.disk), s.reader).got == s.completed <==> SafeRun(c, Begin(c, log, start), acts)
  {
    var s0 := Begin(c, log, start);
    UnsafeRunLoses(c, s0, acts);
    PollClears(c, RunActs(c, s0, acts));
    if SafeRun(c, s0, acts) { SafeRunKeepsTrack(c, s0, acts); }
  }

  // ---- while the log is not reopened ----

  /** At each rotation everything has been polled. */
  ghost predicate PolledAtRotations(c: Codec, s: Seen, acts: seq<Act>)
    requires CanRun(c, s.log, acts)
    decreases |acts|
  {
    acts == [] ||
    (&& (acts[0].Do? && Rotates(acts[0].e) ==> Unseen(c, s) == [])
     && PolledAtRotations(c, AfterAct(c, s, acts[0]), acts[1..]))
  }

  predicate NotReopened(acts: seq<Act>) {
    forall i :: 0 <= i < |acts| ==> acts[i] != Do(Reopen)
  }

  /** The counter is at or past everything the reader has seen. */
  predicate CounterAhead(s: Seen) {
    s.log.Open? ==> s.reader.from <= s.log.last
  }

  lemma CounterStaysAhead(c: Codec, s: Seen, a: Act)
    requires Ordered(c, s.log) && CounterAhead(s) && a != Do(Reopen)
    requires a.Do? ==> Possible(c, s.log, a.e) && InRange(s.log, a.e)
    ensures CounterAhead(AfterAct(c, s, a))
  {
    var rs := Records(c, Text(s.log.disk));
    if a.Look? && Unseen(c, s) != [] {
      AfterLast(rs, s.reader.from);
      MaxBounds(rs);
    }
  }

  lemma {:induction false} LiveRunSafe(c: Codec, s: Seen, acts: seq<Act>)
    requires CodecOk(c) && Ordered(c, s.log) && CanRun(c, s.log, acts) && CounterAhead(s) && NotReopened(acts)
    ensures SafeRun(c, s, acts) <==> PolledAtRotations(c, s, acts)
    decreases |acts|
  {
    if acts != [] {
      CounterStaysAhead(c, s, acts[0]);
      ActKeepsOrder(c, s, acts[0]);
      LiveRunSafe(c, AfterAct(c, s, acts[0]), acts[1..]);
    }
  }

  /** While the log is not reopened, polling before each rotation is exactly what a reader needs. */
  lemma LiveTailingIff(c: Codec, log: Log, start: nat, acts: seq<Act>)
    requires CodecOk(c) && Ordered(c, log) && CanRun(c, log, acts)
    requires NotReopened(acts) && (log.Open? ==> start <= log.last)
    ensures var s := RunActs(c, Begin(c, log, start), acts);
            Poll(c, Text(s.log.disk), s.reader).got == s.completed <==>
            PolledAtRotations(c, Begin(c, log, start), acts)
  {
    ExactlyOnceIff(c, log, start, acts);
    LiveRunSafe(c, Begin(c, log, start), acts);
  }

  // ---- when an empty log is reopened ----

  /** The first record of an empty log. */
  lemma FirstRecord(c: Codec, body: string)
    requires CodecOk(c)
    ensures Records(c, Line(c, 0, body)) == [Record(1, body)]
  {
    var line := Line(c, 0, body);
    LineAdds(c, "", 0, body, |line|);
    assert "" + line[..|line|] == line;
  }

  /** After rotating and reopening, the counter starts with one again. */
  lemma ReopenAfterRotation(c: Codec, log: Log, body: string) returns (end: Log)
    requires CodecOk(c) && Possible(c, log, Rotate)
    ensures var reopened := Opened(c, Step(c, log, Rotate).disk);
            end == Step(c, reopened, Append(body)) && Records(c, Text(end.disk)) == [Record(1, body)]
  {
    var empty := Step(c, log, Rotate).disk;
    assert Opened(c, empty) == Open(empty, 0);
    FirstRecord(c, body);
    end := Step(c, Open(empty, 0), Append(body));
    assert "" + Line(c, 0, body) == Line(c, 0, body);
  }

  /** So the record written then reaches a reader exactly when the reader has seen none. */
  lemma ReopeningHidesRecordIff(c: Codec, log: Log, body: string, r: Reader)
    requires CodecOk(c) && Possible(c, log, Rotate)
    ensures var end := Step(c, Opened(c, Step(c, log, Rotate).disk), Append(body));
            && Records(c, Text(end.disk)) == [Record(1, body)]
            && (Poll(c, Text(end.disk), r).got == r.got + [Record(1, body)] <==> r.from == 0)
  {
    var _ := ReopenAfterRotation(c, log, body);
    AfterOne(Record(1, body), r.from);
  }
}
