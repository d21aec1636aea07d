/**
 The durable session checkpoint of a phase. Every update reads the file,
 changes the record and rewrites the file; each rewrite may fail.
 */
module PhaseSession {
  import opened Common
  import opened DurableWrite

  datatype CheckpointStatus = Pending | Running | Completed | Failed | Blocked

  /** Times are reduced to whether a completion time was set. */
  datatype Checkpoint = Checkpoint(
    provider: string,
    runId: string,
    providerSessionId: Option<string>,
    status: CheckpointStatus,
    completedAt: bool,
    blockedReason: Option<string>)

  function PendingCheckpoint(provider: string, runId: string): Checkpoint {
    Checkpoint(provider, runId, None, Pending, false, None)
  }

  function MarkRunning(c: Checkpoint): Checkpoint {
    c.(status := Running)
  }

  function MarkCompleted(c: Checkpoint): Checkpoint {
    c.(status := Completed, completedAt := true)
  }

  function MarkFailed(c: Checkpoint, reason: string): Checkpoint {
    c.(status := Failed, blockedReason := Some(reason), completedAt := true)
  }

  function WithSession(c: Checkpoint, session: string): Checkpoint {
    c.(providerSessionId := Some(session))
  }

  datatype Update = ToRunning | ToCompleted | ToFailed(reason: string) | ToSession(session: string)

  function Changed(u: Update, c: Checkpoint): Checkpoint {
    match u
    case ToRunning => MarkRunning(c)
    case ToCompleted => MarkCompleted(c)
    case ToFailed(reason) => MarkFailed(c, reason)
    case ToSession(session) => WithSession(c, session)
  }

  /** The file after an update: untouched when there is no checkpoint. */
  function Updated(file: Option<Checkpoint>, u: Update, fault: WriteFault): Option<Checkpoint> {
    match file
    case None => None
    case Some(c) => After(fault, file, Some(Changed(u, c)))
  }

  /** Does the update report success? */
  predicate UpdateOk(file: Option<Checkpoint>, fault: WriteFault) {
    file.Some? && fault.Clean?
  }

  /** The checkpoints a restarted daemon takes to be in flight. */
  predicate ShieldsRun(file: Option<Checkpoint>, runId: string) {
    file.Some? && file.value.status.Running? && file.value.runId == runId
  }

  predicate Over(file: Option<Checkpoint>) {
    file.Some? && (file.value.status.Completed? || file.value.status.Failed?)
  }

  class SessionFile {
    var file: Option<Checkpoint>

    constructor (file: Option<Checkpoint>)
      ensures this.file == file
    {
      this.file := file;
    }

    method WritePending(provider: string, runId: string, fault: WriteFault) returns (ok: bool)
      modifies this
      ensures ok == fault.Clean?
      ensures file == After(fault, old(file), Some(PendingCheckpoint(provider, runId)))
    {
      if Lands(fault) {
        file := Some(Checkpoint(provider, runId, None, Pending, false, None));
      }
      ok := fault.Clean?;
    }

    /** Read, change, rewrite. */
    method Mutate(u: Update, fault: WriteFault) returns (ok: bool)
      modifies this
      ensures ok == UpdateOk(old(file), fault)
      ensures file == Updated(old(file), u, fault)
    {
      match file
      case None => ok := false;
      case Some(c) =>
        var checkpoint := c;
        match u {
          case ToRunning => checkpoint := checkpoint.(status := Running);
          case ToCompleted => checkpoint := checkpoint.(status := Completed, completedAt := true);
          case ToFailed(reason) =>
            checkpoint := checkpoint.(status := Failed, blockedReason := Some(reason), completedAt := true);
          case ToSession(session) =>
            if checkpoint.providerSessionId != Some(session) {
              checkpoint := checkpoint.(providerSessionId := Some(session));
            }
        }
        if Lands(fault) { file := Some(checkpoint); }
        ok := fault.Clean?;
    }
  }
}
