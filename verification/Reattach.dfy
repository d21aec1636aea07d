/**
 Broadcasting event lines to the attached readers: accepts and emits interleave
 under one lock, and a reader that stalls in the middle of a line is dropped.
 */
module Reattach {
  import opened Common

  /** Where a reader attached, counted in emitted lines, and what it received. */
  datatype Reader = Reader(from: nat, received: string)

  /** A write goes through, or ends in an error after `taken` characters. */
  datatype WriteResult = Through | Stalls(taken: nat)

  datatype State = State(emitted: seq<string>, live: seq<Reader>, dropped: seq<Reader>)

  /** `results(i)`: how the write to the i-th live reader goes. */
  datatype Event = Accept | Emit(line: string, results: nat -> WriteResult)

  function Taken(text: string, w: WriteResult): string {
    match w
    case Through => text
    case Stalls(n) => if n < |text| then text[..n] else text
  }

  function Written(r: Reader, line: string, w: WriteResult): Reader {
    r.(received := r.received + Taken(line + "\n", w))
  }

  function WrittenAll(rs: seq<Reader>, line: string, results: nat -> WriteResult): seq<Reader> {
    seq(|rs|, i requires 0 <= i < |rs| => Written(rs[i], line, results(i)))
  }

  /** The elements whose write went through, or those whose did not. */
  function Pick<T>(xs: seq<T>, results: nat -> WriteResult, through: bool): (ys: seq<T>)
    ensures forall y :: y in ys ==> y in xs
  {
    if xs == [] then []
    else
      var n := |xs| - 1;
      Pick(xs[..n], results, through) + (if results(n).Through? == through then [xs[n]] else [])
  }

  function Step(s: State, e: Event): State {
    match e
    case Accept => s.(live := s.live + [Reader(|s.emitted|, "")])
    case Emit(line, results) =>
      var written := WrittenAll(s.live, line, results);
      State(s.emitted + [line], Pick(written, results, true), s.dropped + Pick(written, results, false))
  }

  function Run(s: State, events: seq<Event>): State
    decreases |events|
  {
    if events == [] then s else Run(Step(s, events[0]), events[1..])
  }

  const NO_READERS := State([], [], [])

  /** Lines as they go over the wire. */
  function Wire(lines: seq<string>): string {
    if lines == [] then "" else Wire(lines[..|lines| - 1]) + lines[|lines| - 1] + "\n"
  }

  /** A live reader holds the lines emitted since it attached, whole. */
  predicate UpToDate(emitted: seq<string>, r: Reader) {
    r.from <= |emitted| && r.received == Wire(emitted[r.from..])
  }

  /** A dropped reader holds whole lines up to the `k`-th, and a first part of that one. */
  predicate CutIn(emitted: seq<string>, r: Reader, k: nat) {
    r.from <= k < |emitted| && exists n :: 0 <= n <= |emitted[k]| + 1 && CutAfter(emitted, r, k, n)
  }

  predicate CutAfter(emitted: seq<string>, r: Reader, k: nat, n: nat) {
    && r.from <= k < |emitted| && n <= |emitted[k]| + 1
    && r.received == Wire(emitted[r.from..k]) + (emitted[k] + "\n")[..n]
  }

  ghost predicate Cut(emitted: seq<string>, r: Reader) {
    exists k :: CutIn(emitted, r, k)
  }

  ghost predicate Contiguous(s: State) {
    && (forall i :: 0 <= i < |s.live| ==> UpToDate(s.emitted, s.live[i]))
    && (forall i :: 0 <= i < |s.dropped| ==> Cut(s.emitted, s.dropped[i]))
  }

  lemma ThroughStays(emitted: seq<string>, r: Reader, line: string)
    requires UpToDate(emitted, r)
    ensures UpToDate(emitted + [line], Written(r, line, Through))
  {
    var lines := (emitted + [line])[r.from..];
    assert lines[..|lines| - 1] == emitted[r.from..] && lines[|lines| - 1] == line;
  }

  lemma StallCuts(emitted: seq<string>, r: Reader, line: string, w: WriteResult)
    requires UpToDate(emitted, r) && w.Stalls?
    ensures Cut(emitted + [line], Written(r, line, w))
  {
    var n := if w.taken < |line| + 1 then w.taken else |line| + 1;
    var k := |emitted|;
    assert (emitted + [line])[r.from..k] == emitted[r.from..];
    assert (line + "\n")[..n] == Taken(line + "\n", w);
    assert CutAfter(emitted + [line], Written(r, line, w), k, n);
    assert CutIn(emitted + [line], Written(r, line, w), k);
  }

  lemma CutStays(emitted: seq<string>, r: Reader, line: string)
    requires Cut(emitted, r)
    ensures Cut(emitted + [line], r)
  {
    var k: nat :| CutIn(emitted, r, k);
    var n: nat :| 0 <= n <= |emitted[k]| + 1 && CutAfter(emitted, r, k, n);
    assert (emitted + [line])[r.from..k] == emitted[r.from..k];
    assert CutAfter(emitted + [line], r, k, n);
    assert CutIn(emitted + [line], r, k);
  }

  lemma PickSnoc<T>(front: seq<T>, x: T, results: nat -> WriteResult, through: bool)
    ensures Pick(front + [x], results, through) ==
            Pick(front, results, through) + if results(|front|).Through? == through then [x] else []
  {
    assert (front + [x])[..|front|] == front;
  }

  /** Each element is picked for one of the two sides. */
  lemma {:induction false} PickAll<T>(xs: seq<T>, results: nat -> WriteResult)
    ensures |Pick(xs, results, true)| + |Pick(xs, results, false)| == |xs|
    ensures multiset(Pick(xs, results, true)) + multiset(Pick(xs, results, false)) == multiset(xs)
  {
    if xs != [] {
      var front, x := xs[..|xs| - 1], xs[|xs| - 1];
      assert xs == front + [x];
      PickAll(front, results);
      PickSnoc(front, x, results, true);
      PickSnoc(front, x, results, false);
      PushedTo(Pick(front, results, true), Pick(front, results, false), front, x, results(|front|).Through?);
    }
  }

  lemma PushedTo<T>(a: seq<T>, b: seq<T>, all: seq<T>, x: T, left: bool)
    requires multiset(a) + multiset(b) == multiset(all)
    ensures multiset(if left then a + [x] else a) + multiset(if left then b else b + [x]) == multiset(all + [x])
  {
  }

  lemma {:induction false} PickThrough<T>(xs: seq<T>, results: nat -> WriteResult, i: nat)
    requires i < |xs|
    ensures xs[i] in Pick(xs, results, results(i).Through?)
  {
    if i < |xs| - 1 { PickThrough(xs[..|xs| - 1], results, i); }
  }

  /** A reader whose write goes through has the whole line and stays; one that stalls is dropped; none is lost. */
  lemma EmitKeepsReaders(s: State, line: string, results: nat -> WriteResult)
    ensures var s' := Step(s, Emit(line, results));
            && |s'.live| + |s'.dropped| == |s.live| + |s.dropped|
            && forall i :: 0 <= i < |s.live| ==>
                 Written(s.live[i], line, results(i)) in (if results(i).Through? then s'.live else s'.dropped)
  {
    var written := WrittenAll(s.live, line, results);
    PickAll(written, results);
    forall i | 0 <= i < |s.live|
      ensures Written(s.live[i], line, results(i)) in Pick(written, results, results(i).Through?)
    {
      PickThrough(written, results, i);
    }
  }

  function Accepts(events: seq<Event>): nat {
    if events == [] then 0 else (if events[0].Accept? then 1 else 0) + Accepts(events[1..])
  }

  /** Over every interleaving, each accepted connection is a live or a dropped reader. */
  lemma {:induction false} NoReaderIsLost(s: State, events: seq<Event>)
    ensures var end := Run(s, events);
            |end.live| + |end.dropped| == |s.live| + |s.dropped| + Accepts(events)
    decreases |events|
  {
    if events != [] {
      if events[0].Emit? { EmitKeepsReaders(s, events[0].line, events[0].results); }
      NoReaderIsLost(Step(s, events[0]), events[1..]);
    }
  }

  lemma {:induction false} PickFrom<T>(xs: seq<T>, results: nat -> WriteResult, through: bool, y: T) returns (i: nat)
    requires y in Pick(xs, results, through)
    ensures i < |xs| && y == xs[i] && results(i).Through? == through
  {
    var n := |xs| - 1;
    if y in Pick(xs[..n], results, through) {
      i := PickFrom(xs[..n], results, through, y);
    } else {
      i := n;
    }
  }

  lemma StepContiguous(s: State, e: Event)
    requires Contiguous(s)
    ensures Contiguous(Step(s, e)) && s.dropped <= Step(s, e).dropped && s.emitted <= Step(s, e).emitted
  {
    match e
    case Accept =>
    case Emit(line, results) =>
      var t := Step(s, e);
      var written := WrittenAll(s.live, line, results);
      forall i | 0 <= i < |t.live| ensures UpToDate(t.emitted, t.live[i]) {
        var j := PickFrom(written, results, true, t.live[i]);
        ThroughStays(s.emitted, s.live[j], line);
      }
      forall i | 0 <= i < |t.dropped| ensures Cut(t.emitted, t.dropped[i]) {
        if i < |s.dropped| {
          CutStays(s.emitted, s.dropped[i], line);
        } else {
          var j := PickFrom(written, results, false, t.dropped[i]);
          StallCuts(s.emitted, s.live[j], line, results(j));
        }
      }
  }

  /**
   For every interleaving of accepts, emits and stalls: what a live reader
   received is exactly the lines emitted since it attached; what a dropped one
   received is a contiguous run of them from its attach point and at most one
   partial line after it, and it is never written to again.
   */
  lemma {:induction false} StreamsAreContiguous(s: State, events: seq<Event>)
    requires Contiguous(s)
    ensures Contiguous(Run(s, events)) && s.dropped <= Run(s, events).dropped && s.emitted <= Run(s, events).emitted
    decreases |events|
  {
    if events != [] {
      StepContiguous(s, events[0]);
      StreamsAreContiguous(Step(s, events[0]), events[1..]);
    }
  }

  /** The start of every run. */
  lemma StartContiguous()
    ensures Contiguous(NO_READERS)
  {
  }

  // ---- the emitter ----

  /** Blocking write with a deadline. */
  method WriteAll(reader: Reader, text: string, w: WriteResult) returns (after: Reader, ok: bool)
    ensures after == reader.(received := reader.received + Taken(text, w))
    ensures ok == (w.Through? || w.taken >= |text|)
  {
    match w
    case Through =>
      return reader.(received := reader.received + text), true;
    case Stalls(n) =>
      if n < |text| {
        return reader.(received := reader.received + text[..n]), false;
      }
      return reader.(received := reader.received + text), true;
  }

  /** What is left of a write's result after `n` characters went through. */
  function Rest(w: WriteResult, n: nat): WriteResult {
    match w
    case Through => Through
    case Stalls(taken) => Stalls(if taken > n then taken - n else 0)
  }

  lemma TakenInTwo(line: string, w: WriteResult)
    ensures w.Through? || w.taken >= |line| ==>
              Taken(line, w) == line && Taken(line + "\n", w) == line + Taken("\n", Rest(w, |line|))
    ensures w.Stalls? && w.taken < |line| ==> Taken(line + "\n", w) == Taken(line, w)
  {
    if w.Stalls? && w.taken < |line| {
      assert (line + "\n")[..w.taken] == line[..w.taken];
    }
  }

  /** The line, its terminator and a flush. */
  method WriteLine(reader: Reader, line: string, w: WriteResult) returns (after: Reader, ok: bool)
    ensures after == Written(reader, line, w) && ok == w.Through?
  {
    TakenInTwo(line, w);
    after, ok := WriteAll(reader, line, w);
    if ok {
      Assoc(reader.received, line, Taken("\n", Rest(w, |line|)));
      after, ok := WriteAll(after, "\n", Rest(w, |line|));
      var flushed := w.Through?;
      ok := ok && flushed;
    }
  }

  /** The emitter owns its connections; `emitted` and `dropped` keep track of lines and lost connections. */
  class ReattachListenerEmitter {
    var readers: seq<Reader>
    var emitted: seq<string>
    ghost var dropped: seq<Reader>

    constructor ()
      ensures Abstract() == NO_READERS
    {
      readers := [];
      emitted := [];
      dropped := [];
    }

    ghost function Abstract(): State
      reads this
    {
      State(emitted, readers, dropped)
    }

    /** The acceptor thread hands over a connection. */
    method Attach()
      modifies this
      ensures Abstract() == Step(old(Abstract()), Accept)
    {
      readers := readers + [Reader(|emitted|, "")];
    }

    /** Drains the readers, keeping the ones the line reached. */
    method BroadcastLine(line: string, results: nat -> WriteResult)
      modifies this
      ensures Abstract() == Step(old(Abstract()), Emit(line, results))
    {
      ghost var written := WrittenAll(readers, line, results);
      ghost var failed: seq<Reader> := [];
      var survivors: seq<Reader> := [];
      for i := 0 to |readers|
        invariant unchanged(this)
        invariant survivors == Pick(written[..i], results, true) && failed == Pick(written[..i], results, false)
      {
        assert written[..i + 1][..i] == written[..i];
        var reader, ok := WriteLine(readers[i], line, results(i));
        if ok {
          survivors := survivors + [reader];
        } else {
          failed := failed + [reader];
        }
      }
      assert written[..|written|] == written;
      readers := survivors;
      dropped := dropped + failed;
      emitted := emitted + [line];
    }
  }
}
