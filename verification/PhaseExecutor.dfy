/**
 One attempt to run a phase on a provider, with its checkpoint writes.
 Everything outside the runner (which writes fail, how sessions end) is an
 environment that answers the attempt.
 */
module PhaseExecutor {
  import opened Common
  import opened DurableWrite
  import opened PhaseOutput
  import opened PhaseFailover
  import S = PhaseSession

  // ---- one attempt ----

  /**
   `outlives`: the provider session works on after the runner has stopped
   listening; the runner asks no session to stop.
   */
  datatype AttemptEnv = AttemptEnv(
    prepared: bool,
    runId: string,
    pending: WriteFault,
    startError: Option<string>,
    startFailed: WriteFault,
    running: WriteFault,
    polls: seq<(string, WriteFault)>,
    stream: Result<Outcome, string>,
    terminal: WriteFault,
    outlives: bool,
    commitFails: bool)

  datatype AttemptResult =
    | Delivered(o: Outcome)
    | DispatchRetryable
    | TerminalCheckpoint
    | StreamError(message: string)

  /** `live`: the provider session is still at work. */
  datatype AttemptEnd = AttemptEnd(file: Option<S.Checkpoint>, result: AttemptResult, live: bool)

  /** Best-effort copies of the provider's session id. */
  function Polled(file: Option<S.Checkpoint>, polls: seq<(string, WriteFault)>): Option<S.Checkpoint>
    decreases |polls|
  {
    if polls == [] then file
    else Polled(S.Updated(file, S.ToSession(polls[0].0), polls[0].1), polls[1..])
  }

  function Attempt(file: Option<S.Checkpoint>, provider: string, e: AttemptEnv): AttemptEnd {
    var pending := After(e.pending, file, Some(S.PendingCheckpoint(provider, e.runId)));
    if !e.pending.Clean? then AttemptEnd(pending, DispatchRetryable, false)
    else if e.startError.Some? then
      var reason := "failed to start provider session: " + e.startError.value;
      AttemptEnd(S.Updated(pending, S.ToFailed(reason), e.startFailed), DispatchRetryable, false)
    else
      var running := S.Updated(pending, S.ToRunning, e.running);
      if !S.UpdateOk(pending, e.running) then AttemptEnd(running, TerminalCheckpoint, e.outlives)
      else
        var polled := Polled(running, e.polls);
        match e.stream
        case Ok(o) =>
          AttemptEnd(S.Updated(polled, S.ToCompleted, e.terminal),
                     if S.UpdateOk(polled, e.terminal) then Delivered(o) else TerminalCheckpoint, e.outlives)
        case Err(m) =>
          AttemptEnd(S.Updated(polled, S.ToFailed("phase event stream failed: " + m), e.terminal),
                     if S.UpdateOk(polled, e.terminal) then StreamError(m) else TerminalCheckpoint, e.outlives)
  }

  lemma {:induction false} PolledKeepsStatus(c: S.Checkpoint, polls: seq<(string, WriteFault)>)
    ensures Polled(Some(c), polls).Some?
    ensures var c' := Polled(Some(c), polls).value;
            c'.status == c.status && c'.runId == c.runId && c'.provider == c.provider
    decreases |polls|
  {
    if polls != [] {
      PolledKeepsStatus(S.Updated(Some(c), S.ToSession(polls[0].0), polls[0].1).value, polls[1..]);
    }
  }

  /**
   Whatever writes fail: a delivered outcome leaves this run's checkpoint
   Completed and a stream error leaves it Failed. If the checkpoint is left
   Running under this run's id, the result is the terminal checkpoint error. A
   session is still at work exactly when it started and outlives its stream.
   */
  lemma AttemptLeavesCheckpoint(file: Option<S.Checkpoint>, provider: string, e: AttemptEnv)
    requires file.Some? ==> file.value.runId != e.runId
    ensures var end := Attempt(file, provider, e);
            && (end.result.Delivered? ==>
                  end.file.Some? && end.file.value.runId == e.runId && end.file.value.status == S.Completed)
            && (end.result.StreamError? ==>
                  end.file.Some? && end.file.value.runId == e.runId && end.file.value.status == S.Failed)
            && (S.ShieldsRun(end.file, e.runId) ==> end.result.TerminalCheckpoint?)
            && (end.live <==> e.pending.Clean? && e.startError.None? && e.outlives)
  {
    PolledKeepsStatus(S.MarkRunning(S.PendingCheckpoint(provider, e.runId)), e.polls);
  }

  /** Which result an attempt has: the outcome or error of the stream, unless a write or the start fails. */
  lemma ResultIff(file: Option<S.Checkpoint>, provider: string, e: AttemptEnv)
    ensures var r := Attempt(file, provider, e).result;
            var started := e.pending.Clean? && e.startError.None?;
            && (r.DispatchRetryable? <==> !started)
            && (r.TerminalCheckpoint? <==> started && !(e.running.Clean? && e.terminal.Clean?))
            && (started && e.running.Clean? && e.terminal.Clean? ==>
                  match e.stream case Ok(o) => r == Delivered(o) case Err(m) => r == StreamError(m))
  {
    PolledKeepsStatus(S.MarkRunning(S.PendingCheckpoint(provider, e.runId)), e.polls);
  }

  /** The last session id whose write landed. */
  function LastSession(polls: seq<(string, WriteFault)>): Option<string> {
    if polls == [] then None
    else if Lands(polls[|polls| - 1].1) then Some(polls[|polls| - 1].0)
    else LastSession(polls[..|polls| - 1])
  }

  lemma {:induction false} PolledSnoc(file: Option<S.Checkpoint>, polls: seq<(string, WriteFault)>)
    requires polls != []
    ensures var poll := polls[|polls| - 1];
            Polled(file, polls) == S.Updated(Polled(file, polls[..|polls| - 1]), S.ToSession(poll.0), poll.1)
    decreases |polls|
  {
    if |polls| > 1 {
      PolledSnoc(S.Updated(file, S.ToSession(polls[0].0), polls[0].1), polls[1..]);
      assert polls[..|polls| - 1][1..] == polls[1..][..|polls[1..]| - 1];
    }
  }

  lemma {:induction false} PolledIs(c: S.Checkpoint, polls: seq<(string, WriteFault)>)
    ensures Polled(Some(c), polls) ==
            Some(if LastSession(polls).Some? then c.(providerSessionId := LastSession(polls)) else c)
    decreases |polls|
  {
    if polls != [] {
      PolledIs(c, polls[..|polls| - 1]);
      PolledSnoc(Some(c), polls);
    }
  }

  /** The whole record that is left when the result is the stream's. */
  lemma RecordLeft(file: Option<S.Checkpoint>, provider: string, e: AttemptEnv)
    requires e.pending.Clean? && e.startError.None? && e.running.Clean? && e.terminal.Clean?
    ensures Attempt(file, provider, e).file ==
            Some(match e.stream
                 case Ok(_) => S.Checkpoint(provider, e.runId, LastSession(e.polls), S.Completed, true, None)
                 case Err(m) => S.Checkpoint(provider, e.runId, LastSession(e.polls), S.Failed, true,
                                             Some("phase event stream failed: " + m)))
  {
    PolledIs(S.MarkRunning(S.PendingCheckpoint(provider, e.runId)), e.polls);
  }

  /**
   Exactly when a Running checkpoint is left behind: the session started, the
   Running write landed, and it or the write that should end it failed.
   */
  lemma RunningLeftIff(file: Option<S.Checkpoint>, provider: string, e: AttemptEnv)
    requires file.Some? ==> file.value.runId != e.runId
    ensures S.ShieldsRun(Attempt(file, provider, e).file, e.runId) <==>
            e.pending.Clean? && e.startError.None? &&
            (e.running.FailNew? || (e.running.Clean? && e.terminal.FailOld?))
  {
    PolledKeepsStatus(S.MarkRunning(S.PendingCheckpoint(provider, e.runId)), e.polls);
  }

  // ---- a process that dies during an attempt ----

  function EndUpdate(e: AttemptEnv): S.Update {
    match e.stream
    case Ok(_) => S.ToCompleted
    case Err(m) => S.ToFailed("phase event stream failed: " + m)
  }

  /** The checkpoint file after the first `n` writes of the attempt, if it makes so many. */
  function AfterWrites(file: Option<S.Checkpoint>, provider: string, e: AttemptEnv, n: nat): Option<S.Checkpoint> {
    if n == 0 then file
    else
      var pending := After(e.pending, file, Some(S.PendingCheckpoint(provider, e.runId)));
      if n == 1 || !e.pending.Clean? then pending
      else if e.startError.Some? then
        S.Updated(pending, S.ToFailed("failed to start provider session: " + e.startError.value), e.startFailed)
      else
        var running := S.Updated(pending, S.ToRunning, e.running);
        if n == 2 || !e.running.Clean? then running
        else if n - 2 <= |e.polls| then Polled(running, e.polls[..n - 2])
        else S.Updated(Polled(running, e.polls), EndUpdate(e), e.terminal)
  }

  /** With all its writes made, that is the file the attempt leaves behind. */
  lemma AllWritesMade(file: Option<S.Checkpoint>, provider: string, e: AttemptEnv)
    ensures AfterWrites(file, provider, e, |e.polls| + 3) == Attempt(file, provider, e).file
  {
  }

  /**
   When the process dies with its session started and not yet recorded as over,
   the checkpoint shields the run if and only if the Running write was made and
   landed. Between the start of the session and that write nothing shields it.
   */
  lemma DeathShieldedIff(file: Option<S.Checkpoint>, provider: string, e: AttemptEnv, n: nat)
    requires file.Some? ==> file.value.runId != e.runId
    requires e.pending.Clean? && e.startError.None? && 1 <= n <= |e.polls| + 2
    ensures S.ShieldsRun(AfterWrites(file, provider, e, n), e.runId) <==> n >= 2 && Lands(e.running)
  {
    if n > 2 { PolledKeepsStatus(S.MarkRunning(S.PendingCheckpoint(provider, e.runId)), e.polls[..n - 2]); }
  }

  method RunWorkflowPhaseAttempt(session: S.SessionFile, provider: string, e: AttemptEnv)
    returns (result: AttemptResult, live: bool)
    modifies session
    ensures AttemptEnd(session.file, result, live) == Attempt(old(session.file), provider, e)
  {
    var ok := session.WritePending(provider, e.runId, e.pending);
    if !ok { return DispatchRetryable, false; }
    if e.startError.Some? {
      var _ := session.Mutate(S.ToFailed("failed to start provider session: " + e.startError.value), e.startFailed);
      return DispatchRetryable, false;
    }
    ok := session.Mutate(S.ToRunning, e.running);
    if !ok { return TerminalCheckpoint, e.outlives; }
    ghost var running := session.file;
    var i := 0;
    while i < |e.polls|
      invariant 0 <= i <= |e.polls|
      invariant Polled(session.file, e.polls[i..]) == Polled(running, e.polls)
    {
      var _ := session.Mutate(S.ToSession(e.polls[i].0), e.polls[i].1);
      assert e.polls[i..][1..] == e.polls[i + 1..];
      i := i + 1;
    }
    match e.stream
    case Ok(o) =>
      ok := session.Mutate(S.ToCompleted, e.terminal);
      return if ok then Delivered(o) else TerminalCheckpoint, e.outlives;
    case Err(m) =>
      ok := session.Mutate(S.ToFailed("phase event stream failed: " + m), e.terminal);
      return if ok then StreamError(m) else TerminalCheckpoint, e.outlives;
  }
}
