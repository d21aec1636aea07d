/**
 What the events of a run come to, told by the run's texts: which ends are
 successes, and which commit message, decision, payload and diagnostics result.
 */
module EventOutcome {
  import opened Common
  import opened Json
  import opened PhaseOutput
  import opened PhaseFailover
  import opened EventStream

  // ---- what the texts hold ----

  /** What the assistant said or thought, in order. */
  function Spoken(events: seq<RunEvent>): seq<string> {
    if events == [] then []
    else
      var k := events[|events| - 1].kind;
      Spoken(events[..|events| - 1])
      + if k.OutputChunk? then [k.text] else if k.Thinking? then [k.text] else []
  }

  function Joint(texts: seq<string>): string {
    if texts == [] then "" else Joint(texts[..|texts| - 1]) + texts[|texts| - 1] + "\n"
  }

  /** The first of the texts in which `f` finds anything, and what it finds. */
  predicate FirstFound<T(==)>(f: string -> Option<T>, texts: seq<string>, r: Option<T>) {
    match r
    case None => forall i :: 0 <= i < |texts| ==> f(texts[i]).None?
    case Some(v) =>
      exists i :: 0 <= i < |texts| && f(texts[i]) == Some(v) && forall j :: 0 <= j < i ==> f(texts[j]).None?
  }

  /** The `i`-th text holds the first decision. */
  predicate DecidesFirst(rs: Readers, texts: seq<string>, i: nat)
    requires i < |texts|
  {
    rs.parseDecision && rs.decision(texts[i]).Some? && forall j :: 0 <= j < i ==> rs.decision(texts[j]).None?
  }

  /** The commit message of the `i`-th text: its own, or that of the first decision. */
  function Message(rs: Readers, texts: seq<string>, i: nat): Option<string>
    requires i < |texts|
  {
    if rs.parseCommit && rs.commit(texts[i]).Some? then rs.commit(texts[i])
    else if DecidesFirst(rs, texts, i) then rs.decision(texts[i]).value.commitMessage
    else None
  }

  predicate IsCommit(rs: Readers, texts: seq<string>, r: Option<string>) {
    match r
    case None => forall i :: 0 <= i < |texts| ==> Message(rs, texts, i).None?
    case Some(v) =>
      exists i :: 0 <= i < |texts| && Message(rs, texts, i) == Some(v)
                  && forall j :: 0 <= j < i ==> Message(rs, texts, j).None?
  }

  predicate IsDecision(rs: Readers, texts: seq<string>, r: Option<Decision>) {
    if rs.parseDecision then FirstFound(rs.decision, texts, r) else r == None
  }

  /** The result in all that was said up to the `k`-th text. */
  function ResultUpTo(rs: Readers, texts: seq<string>, k: nat): Option<Json>
    requires k < |texts|
  {
    rs.result(Joint(texts[..k + 1]))
  }

  function DecisionUpTo(rs: Readers, texts: seq<string>, k: nat): Option<Json>
    requires k < |texts|
  {
    if rs.parseDecision then rs.decisionPayload(Joint(texts[..k + 1])) else None
  }

  predicate AnyResult(rs: Readers, texts: seq<string>) {
    exists k :: 0 <= k < |texts| && ResultUpTo(rs, texts, k).Some?
  }

  /** The latest result found; without any, the earliest decision found. */
  predicate IsPayload(rs: Readers, texts: seq<string>, r: Option<Json>) {
    if AnyResult(rs, texts) then
      exists k :: 0 <= k < |texts| && ResultUpTo(rs, texts, k).Some? && r == ResultUpTo(rs, texts, k)
                  && forall j :: k < j < |texts| ==> ResultUpTo(rs, texts, j).None?
    else
      match r
      case None => forall k :: 0 <= k < |texts| ==> DecisionUpTo(rs, texts, k).None?
      case Some(v) =>
        exists k :: 0 <= k < |texts| && DecisionUpTo(rs, texts, k) == Some(v)
                    && forall j :: 0 <= j < k ==> DecisionUpTo(rs, texts, j).None?
  }

  // ---- one more text ----

  lemma FirstGrows<T>(f: string -> Option<T>, texts: seq<string>, r: Option<T>, text: string)
    requires FirstFound(f, texts, r)
    ensures FirstFound(f, texts + [text], OrElse(r, f(text)))
  {
    var all := texts + [text];
    assert forall i :: 0 <= i < |texts| ==> all[i] == texts[i];
    if r.Some? {
      var i :| 0 <= i < |texts| && f(texts[i]) == r && forall j :: 0 <= j < i ==> f(texts[j]).None?;
      assert f(all[i]) == r;
    } else if f(text).Some? {
      assert f(all[|texts|]) == f(text);
    }
  }

  lemma MessageSame(rs: Readers, texts: seq<string>, text: string, i: nat)
    requires i < |texts|
    ensures Message(rs, texts + [text], i) == Message(rs, texts, i)
  {
    assert forall j :: 0 <= j <= i ==> (texts + [text])[j] == texts[j];
  }

  lemma LastMessage(rs: Readers, texts: seq<string>, text: string, decided: Option<Decision>)
    requires IsDecision(rs, texts, decided)
    ensures Message(rs, texts + [text], |texts|) ==
            if rs.parseCommit && rs.commit(text).Some? then rs.commit(text)
            else if rs.parseDecision && decided.None? && rs.decision(text).Some?
            then rs.decision(text).value.commitMessage
            else None
  {
    var all := texts + [text];
    assert forall j :: 0 <= j < |texts| ==> all[j] == texts[j];
    assert DecidesFirst(rs, all, |texts|) <==> rs.parseDecision && decided.None? && rs.decision(text).Some?;
  }

  lemma CommitGrows(rs: Readers, texts: seq<string>, text: string, r: Option<string>, decided: Option<Decision>)
    requires IsCommit(rs, texts, r) && IsDecision(rs, texts, decided)
    ensures IsCommit(rs, texts + [text], OrElse(r, Message(rs, texts + [text], |texts|)))
  {
    var all := texts + [text];
    forall i | 0 <= i < |texts| ensures Message(rs, all, i) == Message(rs, texts, i) {
      MessageSame(rs, texts, text, i);
    }
    if r.Some? {
      var i :| 0 <= i < |texts| && Message(rs, texts, i) == r
               && forall j :: 0 <= j < i ==> Message(rs, texts, j).None?;
      assert Message(rs, all, i) == r;
    }
  }

  lemma UpToSame(rs: Readers, texts: seq<string>, text: string, k: nat)
    requires k < |texts|
    ensures ResultUpTo(rs, texts + [text], k) == ResultUpTo(rs, texts, k)
    ensures DecisionUpTo(rs, texts + [text], k) == DecisionUpTo(rs, texts, k)
  {
    assert (texts + [text])[..k + 1] == texts[..k + 1];
  }

  lemma AllUpToSame(rs: Readers, texts: seq<string>, text: string)
    ensures forall k :: 0 <= k < |texts| ==>
              ResultUpTo(rs, texts + [text], k) == ResultUpTo(rs, texts, k)
              && DecisionUpTo(rs, texts + [text], k) == DecisionUpTo(rs, texts, k)
  {
    forall k | 0 <= k < |texts|
      ensures ResultUpTo(rs, texts + [text], k) == ResultUpTo(rs, texts, k)
              && DecisionUpTo(rs, texts + [text], k) == DecisionUpTo(rs, texts, k)
    {
      UpToSame(rs, texts, text, k);
    }
  }

  /** A new result, or none and an old one. */
  lemma ResultGrows(rs: Readers, texts: seq<string>, text: string, r: Option<Json>)
    requires IsPayload(rs, texts, r)
    requires ResultUpTo(rs, texts + [text], |texts|).Some? || AnyResult(rs, texts)
    ensures var found := ResultUpTo(rs, texts + [text], |texts|);
            IsPayload(rs, texts + [text], if found.Some? then found else r)
  {
    var all := texts + [text];
    var found := ResultUpTo(rs, all, |texts|);
    AllUpToSame(rs, texts, text);
    var k := |texts|;
    if found.None? {
      k :| 0 <= k < |texts| && ResultUpTo(rs, texts, k).Some? && r == ResultUpTo(rs, texts, k)
           && forall j :: k < j < |texts| ==> ResultUpTo(rs, texts, j).None?;
    }
    assert ResultUpTo(rs, all, k).Some? && forall j :: k < j < |all| ==> ResultUpTo(rs, all, j).None?;
  }

  lemma DecisionGrows(rs: Readers, texts: seq<string>, text: string, r: Option<Json>)
    requires IsPayload(rs, texts, r)
    requires ResultUpTo(rs, texts + [text], |texts|).None? && !AnyResult(rs, texts)
    ensures IsPayload(rs, texts + [text], if r.None? then DecisionUpTo(rs, texts + [text], |texts|) else r)
  {
    var all := texts + [text];
    AllUpToSame(rs, texts, text);
    assert !AnyResult(rs, all);
    if r.Some? {
      var k :| 0 <= k < |texts| && DecisionUpTo(rs, texts, k) == r
               && forall j :: 0 <= j < k ==> DecisionUpTo(rs, texts, j).None?;
      assert DecisionUpTo(rs, all, k) == r && forall j :: 0 <= j < k ==> DecisionUpTo(rs, all, j).None?;
    } else {
      assert forall j :: 0 <= j < |texts| ==> DecisionUpTo(rs, all, j).None?;
    }
  }

  lemma AnyHasPayload(rs: Readers, texts: seq<string>, r: Option<Json>)
    requires IsPayload(rs, texts, r) && AnyResult(rs, texts)
    ensures r.Some?
  {
  }

  lemma PayloadGrows(rs: Readers, texts: seq<string>, text: string, r: Option<Json>)
    requires IsPayload(rs, texts, r)
    ensures var all := texts + [text];
            var found, decided := ResultUpTo(rs, all, |texts|), DecisionUpTo(rs, all, |texts|);
            IsPayload(rs, all, if found.Some? then found else if r.None? then decided else r)
  {
    if ResultUpTo(rs, texts + [text], |texts|).Some? || AnyResult(rs, texts) {
      ResultGrows(rs, texts, text, r);
      if AnyResult(rs, texts) { AnyHasPayload(rs, texts, r); }
    } else {
      DecisionGrows(rs, texts, text, r);
    }
  }

  // ---- what is pending ----

  lemma {:induction false} SaysSnoc(events: seq<RunEvent>, e: RunEvent)
    ensures Says(events + [e]) ==
            Says(events) + if e.kind.OutputChunk? then [e.kind.text] else if e.kind.Thinking? then [e.kind.text]
                           else if e.kind.ToolCall? then ["tool_call: " + e.kind.tool] else []
  {
    var all := events + [e];
    if events == [] {
      assert all == [e] && all[1..] == [];
    } else {
      assert all[1..] == events[1..] + [e];
      SaysSnoc(events[1..], e);
    }
  }

  /** The variables of the loop after the run's texts. */
  predicate IsPending(rs: Readers, events: seq<RunEvent>, p: Pending) {
    var texts := Spoken(events);
    && IsCommit(rs, texts, p.commit) && IsDecision(rs, texts, p.decision) && IsPayload(rs, texts, p.payload)
    && FirstFound(rs.exhaustion, texts, p.exhaustion) && p.output == Joint(texts) && p.texts == Says(events)
  }

  lemma HeardIs(rs: Readers, texts: seq<string>, lines: seq<string>, p: Pending, text: string)
    requires IsCommit(rs, texts, p.commit) && IsDecision(rs, texts, p.decision) && IsPayload(rs, texts, p.payload)
    requires FirstFound(rs.exhaustion, texts, p.exhaustion) && p.output == Joint(texts) && p.texts == lines
    ensures var q, all := Heard(rs, p, text), texts + [text];
            && IsCommit(rs, all, q.commit) && IsDecision(rs, all, q.decision) && IsPayload(rs, all, q.payload)
            && FirstFound(rs.exhaustion, all, q.exhaustion) && q.output == Joint(all) && q.texts == lines + [text]
  {
    var q, all := Heard(rs, p, text), texts + [text];
    assert all[..|all| - 1] == texts && all[..|texts| + 1] == all;
    FirstGrows(rs.exhaustion, texts, p.exhaustion, text);
    if rs.parseDecision { FirstGrows(rs.decision, texts, p.decision, text); }
    LastMessage(rs, texts, text, p.decision);
    CommitGrows(rs, texts, text, p.commit, p.decision);
    PayloadGrows(rs, texts, text, p.payload);
  }

  lemma {:induction false} PendingSnoc(rs: Readers, events: seq<RunEvent>, e: RunEvent, p: Pending)
    requires forall i :: 0 <= i < |events| ==> !Terminal(events[i].kind)
    requires !Terminal(e.kind)
    ensures PendingAfter(rs, events + [e], p) == Noted(rs, PendingAfter(rs, events, p), e.kind)
    decreases |events|
  {
    if events == [] {
      assert ([] + [e])[1..] == [];
    } else {
      assert (events + [e])[1..] == events[1..] + [e];
      PendingSnoc(rs, events[1..], e, Noted(rs, p, events[0].kind));
    }
  }

  lemma PendingNext(rs: Readers, events: seq<RunEvent>, e: RunEvent, p: Pending)
    requires IsPending(rs, events, p) && !Terminal(e.kind)
    ensures IsPending(rs, events + [e], Noted(rs, p, e.kind))
  {
    var all := events + [e];
    assert all[..|all| - 1] == events && all[|all| - 1] == e;
    SaysSnoc(events, e);
    if e.kind.OutputChunk? || e.kind.Thinking? {
      assert Spoken(all) == Spoken(events) + [e.kind.text];
      HeardIs(rs, Spoken(events), Says(events), p, e.kind.text);
    } else {
      assert Spoken(all) == Spoken(events) + [] == Spoken(events);
      assert !e.kind.ToolCall? ==> Says(all) == Says(events) + [] == Says(events);
    }
  }

  lemma {:induction false} PendingIs(rs: Readers, events: seq<RunEvent>)
    requires forall i :: 0 <= i < |events| ==> !Terminal(events[i].kind)
    ensures IsPending(rs, events, PendingAfter(rs, events, NOTHING))
    decreases |events|
  {
    if events != [] {
      var front, e := events[..|events| - 1], events[|events| - 1];
      assert events == front + [e];
      PendingIs(rs, front);
      PendingSnoc(rs, front, e, NOTHING);
      PendingNext(rs, front, e, PendingAfter(rs, front, NOTHING));
    }
  }

  // ---- how a run ends ----

  lemma {:induction false} OwnAreOwn(runId: string, events: seq<RunEvent>)
    ensures forall i :: 0 <= i < |Own(runId, events)| ==> Own(runId, events)[i].runId == runId
  {
    if events != [] { OwnAreOwn(runId, events[1..]); }
  }

  /** The `n`-th of these events is the first terminal one. */
  predicate EndsAt(events: seq<RunEvent>, n: nat) {
    && n < |events| && (events[n].kind.Finished? || events[n].kind.Error?)
    && forall i :: 0 <= i < n ==> !events[i].kind.Finished? && !events[i].kind.Error?
  }

  lemma {:induction false} CutAt(events: seq<RunEvent>, n: nat)
    requires EndsAt(events, n)
    ensures UpToTerminal(events) == events[..n + 1]
  {
    if n > 0 { CutAt(events[1..], n - 1); }
  }

  lemma EndOfRun(rs: Readers, runId: string, events: seq<RunEvent>, n: nat)
    requires EndsAt(Own(runId, events), n)
    ensures var own := Own(runId, events);
            var p := PendingAfter(rs, own[..n], NOTHING);
            RunOutcome(rs, runId, events, NOTHING) == Ended(rs, p, own[n].kind) && IsPending(rs, own[..n], p)
  {
    var own := Own(runId, events);
    OwnAreOwn(runId, events);
    ForeignEventsHaveNoEffect(rs, runId, events, NOTHING);
    CutAt(own, n);
    assert own[..n + 1] == own[..n] + [own[n]] + [];
    OutcomeOfFinished(rs, runId, own[..n], own[n], [], NOTHING);
    PendingIs(rs, own[..n]);
  }

  /**
   A run that ends with an exit code is a success if and only if the code is
   missing or zero. Then its commit message, decision and payload are those that
   the run's texts hold. Otherwise the error carries the code, the last 24
   diagnostic lines, and the first exhaustion found in the texts or else in these.
   */
  lemma ExitDecides(rs: Readers, runId: string, events: seq<RunEvent>, n: nat)
    requires EndsAt(Own(runId, events), n) && Own(runId, events)[n].kind.Finished?
    ensures var own := Own(runId, events);
            var code, texts := own[n].kind.exitCode, Spoken(own[..n]);
            var r := RunOutcome(rs, runId, events, NOTHING);
            && (r.Ok? <==> code == None || code == Some(0))
            && match r
               case Ok(o) =>
                 && o.Completed? && IsCommit(rs, texts, o.commitMessage) && IsDecision(rs, texts, o.decision)
                 && IsPayload(rs, texts, o.payload)
               case Err(e) =>
                 && e.Exited? && e.code == code
                 && e.diagnostics == Summary(LastLines(DiagnosticLines(Says(own[..n]))))
                 && (FirstFound(rs.exhaustion, texts, e.exhaustion)
                     || (FirstFound(rs.exhaustion, texts, None)
                         && e.exhaustion == if e.diagnostics.Some? then rs.exhaustion(e.diagnostics.value) else None))
  {
    EndOfRun(rs, runId, events, n);
  }

  /** A run that ends with an error reports it, with the first exhaustion found in the texts or else in the error. */
  lemma ErrorIsReported(rs: Readers, runId: string, events: seq<RunEvent>, n: nat)
    requires EndsAt(Own(runId, events), n) && Own(runId, events)[n].kind.Error?
    ensures var own := Own(runId, events);
            var m, r := own[n].kind.message, RunOutcome(rs, runId, events, NOTHING);
            && r.Err? && r.error.Reported? && r.error.message == m
            && FirstFound(rs.exhaustion, Spoken(own[..n]) + [m], r.error.exhaustion)
  {
    EndOfRun(rs, runId, events, n);
    var own := Own(runId, events);
    var p := PendingAfter(rs, own[..n], NOTHING);
    FirstGrows(rs.exhaustion, Spoken(own[..n]), p.exhaustion, own[n].kind.message);
  }
}
