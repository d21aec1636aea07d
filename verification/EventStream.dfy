/** Reading the events of a run until it ends. */
module EventStream {
  import opened Common
  import opened Json
  import opened PhaseOutput
  import opened PhaseFailover

  datatype EventKind =
    | OutputChunk(text: string)
    | Thinking(text: string)
    | Error(message: string)
    | Finished(exitCode: Option<int>)
    | ToolCall(tool: string)
    | Other

  datatype RunEvent = RunEvent(runId: string, kind: EventKind)

  /** What the runner reads off texts. */
  datatype Readers = Readers(
    exhaustion: string -> Option<string>,
    commit: string -> Option<string>,
    decision: string -> Option<Decision>,
    result: string -> Option<Json>,
    decisionPayload: string -> Option<Json>,
    parseCommit: bool,
    parseDecision: bool)

  datatype Pending = Pending(
    commit: Option<string>,
    decision: Option<Decision>,
    payload: Option<Json>,
    output: string,
    exhaustion: Option<string>,
    texts: seq<string>)

  datatype StreamError =
    | Reported(message: string, exhaustion: Option<string>)
    | Exited(code: Option<int>, exhaustion: Option<string>, diagnostics: Option<string>)
    | Disconnected(diagnostics: Option<string>)

  const NOTHING := Pending(None, None, None, "", None, [])

  function OrElse<T>(a: Option<T>, b: Option<T>): Option<T> {
    if a.Some? then a else b
  }

  /** Text of the assistant, said or thought. */
  function Heard(rs: Readers, p: Pending, text: string): Pending {
    var commit := if rs.parseCommit then OrElse(p.commit, rs.commit(text)) else p.commit;
    var decided := if rs.parseDecision && p.decision.None? then rs.decision(text) else None;
    var output := p.output + text + "\n";
    var payload := match rs.result(output)
                   case Some(v) => Some(v)
                   case None => if p.payload.None? && rs.parseDecision then rs.decisionPayload(output) else p.payload;
    Pending(if decided.Some? then OrElse(commit, decided.value.commitMessage) else commit,
            OrElse(p.decision, decided), payload, output, OrElse(p.exhaustion, rs.exhaustion(text)), p.texts + [text])
  }

  function Diagnosed(p: Pending): Option<string> {
    Summary(LastLines(DiagnosticLines(p.texts)))
  }

  predicate Terminal(k: EventKind) {
    k.Error? || k.Finished?
  }

  function Noted(rs: Readers, p: Pending, k: EventKind): Pending
    requires !Terminal(k)
  {
    match k
    case OutputChunk(text) => Heard(rs, p, text)
    case Thinking(text) => Heard(rs, p, text)
    case ToolCall(tool) => p.(texts := p.texts + ["tool_call: " + tool])
    case Other => p
  }

  function Ended(rs: Readers, p: Pending, k: EventKind): Result<Outcome, StreamError>
    requires Terminal(k)
  {
    match k
    case Error(message) => Err(Reported(message, OrElse(p.exhaustion, rs.exhaustion(message))))
    case Finished(code) =>
      if code.GetOr(0) == 0 then Ok(Completed(p.commit, p.decision, p.payload))
      else
        Err(Exited(code, OrElse(p.exhaustion, if Diagnosed(p).Some? then rs.exhaustion(Diagnosed(p).value) else None),
                   Diagnosed(p)))
  }

  function RunOutcome(rs: Readers, runId: string, events: seq<RunEvent>, p: Pending): Result<Outcome, StreamError>
    decreases |events|
  {
    if events == [] then Err(Disconnected(Diagnosed(p)))
    else if events[0].runId != runId then RunOutcome(rs, runId, events[1..], p)
    else if Terminal(events[0].kind) then Ended(rs, p, events[0].kind)
    else RunOutcome(rs, runId, events[1..], Noted(rs, p, events[0].kind))
  }

  lemma NextEvent(rs: Readers, runId: string, events: seq<RunEvent>, i: nat, p: Pending)
    requires i < |events|
    ensures RunOutcome(rs, runId, events[i..], p) ==
            if events[i].runId != runId then RunOutcome(rs, runId, events[i + 1..], p)
            else if Terminal(events[i].kind) then Ended(rs, p, events[i].kind)
            else RunOutcome(rs, runId, events[i + 1..], Noted(rs, p, events[i].kind))
  {
    assert events[i..][1..] == events[i + 1..];
  }

  method ProcessPhaseEventStream(rs: Readers, runId: string, events: seq<RunEvent>)
    returns (outcome: Result<Outcome, StreamError>)
    ensures outcome == RunOutcome(rs, runId, events, NOTHING)
  {
    var commit: Option<string>, decision: Option<Decision>, payload: Option<Json> := None, None, None;
    var output, exhaustion: Option<string> := "", None;
    var diagnostics := new Diagnostics();
    for i := 0 to |events|
      invariant fresh(diagnostics) && diagnostics.Valid()
      invariant RunOutcome(rs, runId, events[i..],
                           Pending(commit, decision, payload, output, exhaustion, diagnostics.texts)) ==
                RunOutcome(rs, runId, events, NOTHING)
    {
      NextEvent(rs, runId, events, i, Pending(commit, decision, payload, output, exhaustion, diagnostics.texts));
      if events[i].runId != runId { continue; }
      match events[i].kind {
        case OutputChunk(text) =>
          diagnostics.PushPhaseDiagnosticLine(text);
          commit, decision, payload, output, exhaustion :=
            Hear(rs, commit, decision, payload, output, exhaustion, text, diagnostics.texts);
        case Thinking(text) =>
          diagnostics.PushPhaseDiagnosticLine(text);
          commit, decision, payload, output, exhaustion :=
            Hear(rs, commit, decision, payload, output, exhaustion, text, diagnostics.texts);
        case Error(message) =>
          if exhaustion.None? { exhaustion := rs.exhaustion(message); }
          return Err(Reported(message, exhaustion));
        case Finished(code) =>
          if code.GetOr(0) != 0 {
            var summary := diagnostics.Summarize();
            if exhaustion.None? && summary.Some? { exhaustion := rs.exhaustion(summary.value); }
            return Err(Exited(code, exhaustion, summary));
          }
          return Ok(Completed(commit, decision, payload));
        case ToolCall(tool) =>
          diagnostics.PushPhaseDiagnosticLine("tool_call: " + tool);
        case Other =>
      }
    }
    var summary := diagnostics.Summarize();
    outcome := Err(Disconnected(summary));
  }

  method Hear(
    rs: Readers, commit: Option<string>, decision: Option<Decision>, payload: Option<Json>, output: string,
    exhaustion: Option<string>, text: string, ghost texts: seq<string>)
    returns (commit': Option<string>, decision': Option<Decision>, payload': Option<Json>, output': string,
             exhaustion': Option<string>)
    requires texts != [] && texts[|texts| - 1] == text
    ensures Pending(commit', decision', payload', output', exhaustion', texts) ==
            Heard(rs, Pending(commit, decision, payload, output, exhaustion, texts[..|texts| - 1]), text)
  {
    commit', decision', payload', output', exhaustion' := commit, decision, payload, output, exhaustion;
    if exhaustion'.None? { exhaustion' := rs.exhaustion(text); }
    if rs.parseCommit && commit'.None? { commit' := rs.commit(text); }
    if rs.parseDecision && decision'.None? {
      var decided := rs.decision(text);
      if decided.Some? {
        if commit'.None? && decided.value.commitMessage.Some? { commit' := decided.value.commitMessage; }
        decision' := decided;
      }
    }
    output' := output' + text + "\n";
    var result := rs.result(output');
    if result.Some? {
      payload' := result;
    } else if payload'.None? && rs.parseDecision {
      payload' := rs.decisionPayload(output');
    }
  }

  // ---- what counts ----

  /** The run's own events. */
  function Own(runId: string, events: seq<RunEvent>): seq<RunEvent> {
    if events == [] then []
    else (if events[0].runId == runId then [events[0]] else []) + Own(runId, events[1..])
  }

  /** Events up to and including the first terminal one. */
  function UpToTerminal(events: seq<RunEvent>): seq<RunEvent> {
    if events == [] then []
    else if Terminal(events[0].kind) then [events[0]]
    else [events[0]] + UpToTerminal(events[1..])
  }

  /**
   Foreign events have no effect, and neither has anything after the run's first
   terminal event.
   */
  lemma {:induction false} ForeignEventsHaveNoEffect(rs: Readers, runId: string, events: seq<RunEvent>, p: Pending)
    ensures RunOutcome(rs, runId, events, p) == RunOutcome(rs, runId, UpToTerminal(Own(runId, events)), p)
    decreases |events|
  {
    if events != [] {
      var rest := Own(runId, events[1..]);
      if events[0].runId != runId {
        ForeignEventsHaveNoEffect(rs, runId, events[1..], p);
        assert Own(runId, events) == rest;
      } else if !Terminal(events[0].kind) {
        ForeignEventsHaveNoEffect(rs, runId, events[1..], Noted(rs, p, events[0].kind));
        assert Own(runId, events)[1..] == rest;
        assert UpToTerminal(Own(runId, events))[1..] == UpToTerminal(rest);
      }
    }
  }

  /** What a run's events say, one line each. */
  function Says(events: seq<RunEvent>): seq<string> {
    if events == [] then []
    else
      (match events[0].kind
       case OutputChunk(text) => [text]
       case Thinking(text) => [text]
       case ToolCall(tool) => ["tool_call: " + tool]
       case _ => []) + Says(events[1..])
  }

  /**
   A run that never ends is reported with exactly the last 24 non-empty
   normalized lines of its own events.
   */
  lemma {:induction false} DiagnosticsAreTheLastLines(rs: Readers, runId: string, events: seq<RunEvent>, p: Pending)
    requires forall i :: 0 <= i < |events| && events[i].runId == runId ==> !Terminal(events[i].kind)
    ensures RunOutcome(rs, runId, events, p) ==
            Err(Disconnected(Summary(LastLines(DiagnosticLines(p.texts + Says(Own(runId, events)))))))
    decreases |events|
  {
    if events == [] {
      assert p.texts + [] == p.texts;
    } else {
      var q := if events[0].runId != runId then p else Noted(rs, p, events[0].kind);
      DiagnosticsAreTheLastLines(rs, runId, events[1..], q);
      SaysNext(rs, runId, events, p);
    }
  }

  lemma SaysNext(rs: Readers, runId: string, events: seq<RunEvent>, p: Pending)
    requires events != [] && (events[0].runId == runId ==> !Terminal(events[0].kind))
    ensures var q := if events[0].runId != runId then p else Noted(rs, p, events[0].kind);
            q.texts + Says(Own(runId, events[1..])) == p.texts + Says(Own(runId, events))
  {
    var own, rest := Own(runId, events), Own(runId, events[1..]);
    if events[0].runId == runId {
      assert own[0] == events[0] && own[1..] == rest;
      var said := Says([events[0]]);
      assert Says([events[0]]) == said + Says([events[0]][1..]);
      assert Noted(rs, p, events[0].kind).texts == p.texts + said;
      assert Says(own) == said + Says(rest);
    } else {
      assert own == rest;
    }
  }

  /** What the assistant said, as it is searched for results. */
  function Output(events: seq<RunEvent>): string {
    if events == [] then ""
    else
      (match events[0].kind
       case OutputChunk(text) => text + "\n"
       case Thinking(text) => text + "\n"
       case _ => "") + Output(events[1..])
  }

  function PendingAfter(rs: Readers, events: seq<RunEvent>, p: Pending): Pending
    requires forall i :: 0 <= i < |events| ==> !Terminal(events[i].kind)
    decreases |events|
  {
    if events == [] then p else PendingAfter(rs, events[1..], Noted(rs, p, events[0].kind))
  }

  lemma OutputNext(rs: Readers, events: seq<RunEvent>, p: Pending)
    requires events != [] && !Terminal(events[0].kind)
    ensures Noted(rs, p, events[0].kind).output + Output(events[1..]) == p.output + Output(events)
  {
    var rest := Output(events[1..]);
    match events[0].kind
    case OutputChunk(text) => Assoc(p.output, text + "\n", rest); Assoc(p.output, text, "\n");
    case Thinking(text) => Assoc(p.output, text + "\n", rest); Assoc(p.output, text, "\n");
    case ToolCall(_) => Assoc(p.output, "", rest);
    case Other => Assoc(p.output, "", rest);
  }

  /** When the whole output holds a result, that is the payload, whatever was found in its parts. */
  lemma {:induction false} PayloadOfWholeOutput(rs: Readers, events: seq<RunEvent>, p: Pending)
    requires forall i :: 0 <= i < |events| ==> !Terminal(events[i].kind)
    requires p.output != "" && rs.result(p.output).Some? ==> p.payload == rs.result(p.output)
    ensures var q := PendingAfter(rs, events, p);
            q.output == p.output + Output(events) &&
            (q.output != "" && rs.result(q.output).Some? ==> q.payload == rs.result(q.output))
    decreases |events|
  {
    if events == [] {
      assert p.output + "" == p.output;
    } else {
      var q := Noted(rs, p, events[0].kind);
      PayloadOfWholeOutput(rs, events[1..], q);
      OutputNext(rs, events, p);
    }
  }

  lemma {:induction false} OutcomeOfFinished(
    rs: Readers, runId: string, events: seq<RunEvent>, end: RunEvent, after: seq<RunEvent>, p: Pending)
    requires forall i :: 0 <= i < |events| ==> !Terminal(events[i].kind) && events[i].runId == runId
    requires Terminal(end.kind) && end.runId == runId
    ensures RunOutcome(rs, runId, events + [end] + after, p) == Ended(rs, PendingAfter(rs, events, p), end.kind)
    decreases |events|
  {
    var all := events + [end] + after;
    if events == [] {
      assert all[0] == end;
    } else {
      assert all[1..] == events[1..] + [end] + after;
      OutcomeOfFinished(rs, runId, events[1..], end, after, Noted(rs, p, events[0].kind));
    }
  }

  /** A run that finishes well reports the result its whole output holds. */
  lemma FinishedReportsWholeOutput(
    rs: Readers, runId: string, events: seq<RunEvent>, code: Option<int>, after: seq<RunEvent>)
    requires forall i :: 0 <= i < |events| ==> !Terminal(events[i].kind) && events[i].runId == runId
    requires code.GetOr(0) == 0 && Output(events) != "" && rs.result(Output(events)).Some?
    ensures var r := RunOutcome(rs, runId, events + [RunEvent(runId, Finished(code))] + after, NOTHING);
            r.Ok? && r.value.Completed? && r.value.payload == rs.result(Output(events))
  {
    OutcomeOfFinished(rs, runId, events, RunEvent(runId, Finished(code)), after, NOTHING);
    PayloadOfWholeOutput(rs, events, NOTHING);
    assert "" + Output(events) == Output(events);
  }
}
