/**
 The loops of one phase call as the runner writes them: nested loops that
 update the checkpoint file, the back-off and the last outcome held. Each loop
 is proved to compute the function of `PhaseRetry` that specifies it.
 */
module PhaseDispatch {
  import opened Common
  import opened PhaseOutput
  import opened PhaseExecutor
  import opened PhaseRetry
  import S = PhaseSession

  method RunAttempts(plan: Plan, world: World, session: S.SessionFile, before: seq<Dispatch>, t: nat, c: nat)
    returns (trace: seq<Dispatch>, end: AttemptsEnd)
    requires t < |plan.providers|
    modifies session
    ensures (Progress(session.file, trace), end) ==
            Attempts(plan, world, Progress(old(session.file), before), t, c, 1, 200)
  {
    trace := before;
    var backoff, a := 200, 1;
    ghost var start := Progress(session.file, before);
    while a <= plan.maxAttempts
      invariant a >= 1 && backoff >= 0
      invariant Attempts(plan, world, Progress(session.file, trace), t, c, a, backoff) ==
                Attempts(plan, world, start, t, c, 1, 200)
    {
      var e := world.attempts(|trace|);
      if !e.prepared {
        return trace, Abort(PreparationFailed);
      }
      var found := session.file;
      var result, live := RunWorkflowPhaseAttempt(session, plan.providers[t], e);
      var attempt := AttemptEnd(session.file, result, live);
      match result {
        case Delivered(o) =>
          var outcome := o;
          if plan.commits && outcome.Completed? {
            var message := outcome.commitMessage.GetOr(plan.fallbackMessage);
            if e.commitFails {
              return trace + [Dispatch(t, c, a, found, attempt, None, None)], Abort(CommitFailed);
            }
            outcome := outcome.(commitMessage := Some(message));
          }
          return trace + [Dispatch(t, c, a, found, attempt, Some(outcome), None)], Succeeded(outcome);
        case DispatchRetryable =>
          return trace + [Dispatch(t, c, a, found, attempt, None, None)], Abort(CheckpointIo);
        case TerminalCheckpoint =>
          return trace + [Dispatch(t, c, a, found, attempt, None, None)], Abort(CheckpointIo);
        case StreamError(message) =>
          if Retries(plan, message, a) {
            trace := trace + [Dispatch(t, c, a, found, attempt, None, Some(backoff))];
            backoff := if 2 * backoff < MAX_BACKOFF then 2 * backoff else MAX_BACKOFF;
          } else {
            trace := trace + [Dispatch(t, c, a, found, attempt, None, None)];
            if t + 1 < |plan.providers| && FailsOver(plan, message) {
              return trace, MoveOn;
            }
            return trace, Abort(Failure(message));
          }
      }
      a := a + 1;
    }
    end := MoveOn;
  }

  method RunContinuations(plan: Plan, world: World, session: S.SessionFile, before: seq<Dispatch>, t: nat)
    returns (trace: seq<Dispatch>, end: ContinuationsEnd)
    requires t < |plan.providers|
    modifies session
    ensures (Progress(session.file, trace), end) ==
            Continuations(plan, world, Progress(old(session.file), before), t, 0, None)
  {
    trace := before;
    var last: Option<Outcome> := None;
    var c := 0;
    ghost var start := Progress(session.file, before);
    while c <= plan.maxContinuations
      invariant Continuations(plan, world, Progress(session.file, trace), t, c, last) ==
                Continuations(plan, world, start, t, 0, None)
    {
      var attempts;
      trace, attempts := RunAttempts(plan, world, session, trace, t, c);
      match attempts {
        case Abort(e) =>
          return trace, Stop(e);
        case MoveOn =>
          return trace, FellThrough(last);
        case Succeeded(o) =>
          if OutcomeIsComplete(o, plan.structured) {
            return trace, Finished(o);
          }
          last := Some(o);
      }
      c := c + 1;
    }
    end := FellThrough(last);
  }

  /** A phase call on the session's checkpoint file. */
  method RunWorkflowPhaseWithAgent(plan: Plan, world: World, session: S.SessionFile)
    returns (trace: seq<Dispatch>, end: PhaseEnd)
    modifies session
    ensures (trace, end) == RunPhaseCall(plan, world, old(session.file))
    ensures Progress(session.file, trace) == Targets(plan, world, Progress(old(session.file), []), 0).0
  {
    trace := [];
    var t := 0;
    ghost var start := Progress(session.file, []);
    while t < |plan.providers|
      invariant t <= |plan.providers|
      invariant Targets(plan, world, Progress(session.file, trace), t) == Targets(plan, world, start, 0)
    {
      if !world.resolves(t) {
        return trace, PhaseErr(PreparationFailed);
      }
      var inner;
      trace, inner := RunContinuations(plan, world, session, trace, t);
      match inner {
        case Stop(e) =>
          return trace, PhaseErr(e);
        case Finished(o) =>
          return trace, Success(o, t);
        case FellThrough(last) =>
          if last.Some? {
            return trace, Success(last.value, t);
          }
      }
      t := t + 1;
    }
    end := PhaseErr(Exhausted);
  }
}
