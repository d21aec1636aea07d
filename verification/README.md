# Verified model of the Animus workflow runner

The runner executes the phases of a workflow, one provider session or command
after another, and is written so that crashes, disk faults and retries never run
a side-effecting phase twice or lose a decision. This project models that code in
Dafny and proves what it keeps. `dafny verify dfyconfig.toml` checks everything.

## What is modelled

- **The workflow loop and its crashes.** `CrashReplay` is a state machine over the
  loop's durable writes; a run is any sequence of actions, with a crash between any
  two. Every durable write may succeed, fail with the old content or fail with the
  new one (`DurableWrite`: temporary file, rename, directory sync). `CrashInvariants`
  holds what every action keeps, `CrashTheorems` the guarantees over whole runs,
  `CrashGate` the manual gate, `CrashRefinement` the simulation of crash-free
  executions, `CrashAlone` ad hoc runs of a single phase, `WorkflowSchedule` what the
  outside does to a process step by step, and `WorkflowExecute` the loop itself, as
  methods over fields, proved to be the one run of the machine that a schedule allows.
  `PhaseOutput` and `PhaseEvals` are the output files and the eval gate.
- **Dispatch, checkpoint and retry.** `PhaseSession` is the checkpoint file,
  `PhaseExecutor` one attempt, `PhaseRetry` the loops over targets, continuations and
  attempts as functions of an environment that answers each dispatch, `PhasePolicy` the
  flat policy they come to, `PhaseDispatch` the nested loops proved against these
  functions, `PhaseFailover` the retry decision and the bounded diagnostics.
- **Results in model output.** `JsonText` has documents with arbitrary layout and
  escapes (RFC 8259), `JsonScan` the brace scanner, `ResultSearch` the mutually
  recursive search of texts and values, `ResultOrder` which result it returns,
  `EventStream` the reading of a run's events and `EventOutcome` what it comes to.
- **The notification log.** `NotificationLog` has the text and the events that change
  it, `NotificationTail` the polling readers, `NotificationRotation` what rotations do
  to them, `NotificationLogFile` the open file.
- **Decisions and schemas.** `JsonSchema` is the validator for the keywords composed
  schemas use, `RuntimeContract` the composition, `DecisionNormalization` the filling
  of missing fields, `MechanicalFields` what the filling restores, `ComposedResponses`
  what it restores under the schemas the runner composes, and `ContractSchemas` what
  these schemas accept.
- **Smaller components.** `Reattach` (broadcast), `ConfigOverrides` (argument lists as
  maps), `PhaseTargets` (target planning), `PriorContext` (truncated context).

Code that computes is modelled by functions; code that updates variables or fields
by methods with loops, proved against those functions.

## Hypotheses

- The workflow hub is outside the runner. `HubOk` states what the runner relies on
  when it calls the hub on a workflow with a phase to run that is not settled: phase
  ids stay distinct, attempts never decrease, no phase disappears, completing a phase
  settles its attempt, and a phase that can run next is not settled. A call to the hub
  that fails ends the process, which is the crash action. `InOrderHubOk` shows that a
  hub which pauses by status alone meets this.
- `Faithful` and `NoEvals`, for the refinement only: no phase has checks, outcomes
  depend only on (phase, attempt) and are replayable, the hub treats a decision as it
  treats its persisted form, and its answers to a workflow that runs or is over leave it
  so. `VerdictHubsAreFaithful` shows that hubs which go by the verdict meet this, and
  `SchedulesAgreeIff` that under the hub that goes in order schedules agree exactly when
  completed outcomes are replayable.
- Crash theorems are about full-workflow runs where they say so. A single-phase run
  executes the present attempt whether it is marked or not, and overwrites
  `<phase>.json`; a command that fails in it writes the completion marker too. It keeps
  the invariant behind those theorems exactly when it is harmless
  (`SinglePhaseKeepsInvIff`, `SafeThroughoutIff`).
- Opening the log anew, as every dispatch does, is modelled as closing and reopening it.
- Run ids are fresh for every dispatch. The record codec of the log writes one line
  that reads back, for 64-bit sequence numbers. A JSON parser accepts only JSON texts
  and reads them right.
- Models, tools and suppression are given by a catalog of arbitrary functions.

## Claims that hold under a condition only

Where the code and its comments or constants suggest more than the code does, the
model follows the code; each of these is proved.

- A truncated context may be up to 8010 characters long, not 8000: the budget
  reserves 30 characters for a notice of 40 (`TruncationBounds`, `ExceedsLimitIff`).
- A failing command phase persists its output and marker before the eval gate, so the
  rule that nothing is persisted ahead of the gate, and that no attempt waiting for a
  human is marked, holds if and only if no command phase has checks that can miss
  (`GateSoundIff`, `PendingUnmarkedIff`).
- The verdict is derived from the outcome if and only if the explicit schema derives it
  and the phase has no output contract, because merging schemas drops `oneOf` and
  `anyOf` (`ComposedVerdict`, `ContractsDeriveNoVerdict`).
- A single-phase run must not leave a completion marker, but a failing command leaves
  one in it, and the next full run then skips a phase the loop never ran
  (`FailingCommandSkipsPhase`).
- A fallback target is given its own tool index if and only if every fallback
  configured before it is planned, because tools are counted by emitted targets
  (`FallbackToolIff`; for the tools themselves, `AllToolsLineUpIff`).
- A decision that omits fields is completed to a valid one if and only if no required
  field is unknown to the runner, and its own values of an omitted confidence, risk or
  reason are accepted by the decision contract's declarations and by the branches of the
  schema, if it has kept any (`ComposedResponsesAreRestored`); of branches that pin
  outcomes the one of the response decides (`PinnedBranchDecides`). The values come
  from the decision schema alone, so a branch that narrows the risk refuses a valid
  decision that omits it (`NarrowedRiskIsNotRestored`).
- A started session is shielded against a crash of the runner only from the Running
  write on; nothing shields it between its start and that write (`DeathShieldedIff`).
- Across rotations a polling reader gets every record once if and only if it polled
  everything before each rotation and no reopening of an empty file hands out numbers it
  has seen (`ExactlyOnceIff`).
- A retry or continuation never overwrites a checkpoint that is not over, but nothing
  stops a provider session: the next dispatch meets a live one exactly when that
  session outlives the event that ended its stream (`NoDispatchOverLiveSession`,
  `RetryMeetsSession`).

## Model

| member | source | states |
|---|---|---|
| `CrashTheorems.MarkedNeverRunsAgain` | src/workflow_execute.rs:485-530 | In every full-workflow continuation, whatever crashes, failed writes or outside changes occur, a (phase, attempt) whose completion marker is durable is never executed again and its marker stays. |
| `CrashTheorems.MarkedRunsOnlyAlone` | src/workflow_execute.rs:302-350 | In every continuation the loop never begins a marked attempt again; its further executions are exactly the single-phase runs that name its phase at that attempt, because these do not look at markers. |
| `CrashTheorems.BegunOncePerCall` | src/workflow_execute.rs:478-806 | In every run, one call of the loop begins each (phase, attempt) at most once, marked or not; once begun it is being executed or is over. |
| `CrashTheorems.ReworkIsTold` | src/workflow_execute.rs:540-803 | In every run a phase is begun with rework reason r if and only if the last decision reached by running a phase in the same call, with none begun since, asked for a rework with that reason. |
| `CrashTheorems.AppliedAtMostOnce` | src/workflow_execute.rs:479-806 | After any full-workflow run each attempt's decision reached the hub at most once, only after its marker was durable, and never for the attempt the loop may still enter. |
| `CrashTheorems.ReplayAppliesOwnAttempt` | src/workflow_execute.rs:485-527 | Wherever the loop finds a marker, the output file (keyed by phase only) holds what that same attempt wrote since it last began; replay is possible exactly for replayable outcomes and yields that attempt's verdict, and the loop blocks otherwise. |
| `CrashTheorems.EvalBudgetHolds` | src/workflow_execute.rs:581-643 | Within one call, eval-forced reworks of a phase never exceed its `max_reworks`, crashes and restarts included. |
| `CrashTheorems.MissReworksOrPauses` | src/workflow_execute.rs:596-639 | After every full-workflow run a gate miss pauses the phase exactly when the phase blocks on failure or this call's reworks have used up its budget, and otherwise becomes one more rework; nothing durable changes at the gate. |
| `CrashTheorems.ManualPendingNeverMarked` | src/workflow_execute.rs:666-692 | No reachable state has a completion marker for an attempt waiting at the manual gate, and every marker attests the output on disk, when no command phase has checks that can miss. |
| `CrashGate.PendingUnmarkedIff` | src/workflow_execute.rs:666-692 | Over all hubs and full-workflow runs, no attempt waiting at the manual gate ever has a marker if and only if no command phase declares checks that can miss. |
| `CrashTheorems.GateSoundIff` | src/phase_executor.rs:2689-2715 | Over all hubs and full-workflow runs, a marker always attests the outcome the eval gate let through if and only if no command phase declares checks that can miss. |
| `CrashTheorems.GatedCommandRun` | src/phase_executor.rs:2689-2715 | The runs that break it: every failing command that advances, with its decision and payload, persists its marker before the gate rejects it. |
| `CrashAlone.SinglePhaseKeepsInvIff` | src/workflow_execute.rs:302-370 | A single-phase run, whatever of its writes lands, keeps the invariant if and only if it writes an output under a marker of the phase's present attempt (one already there, or one that a failing command writes) only where the loop has written the same, and no marker for another phase or a later attempt. |
| `CrashAlone.SafeThroughoutIff` | src/workflow_execute.rs:302-921 | Over every run with single-phase runs in between, the invariant holds at every moment if and only if each of them was harmless in this sense when it was made. |
| `CrashAlone.FailingCommandSkipsPhase` | src/phase_executor.rs:2689-2715 | A command that fails when run alone leaves output and marker: the next full run never begins that attempt, and applies the command's verdict or, when it is `unknown`, fails the workflow. |
| `CrashAlone.SinglePhaseRunBreaksReplay` | src/workflow_execute.rs:1147-1198 | A single-phase run between a crash and a restart executes a marked attempt a second time and makes the restart find another outcome under its marker. |
| `CrashTheorems.InOrderHubOk` | src/workflow_execute.rs:485-527 | The hypotheses about the hub are met by a hub that walks the phases in order and pauses by status alone. |
| `CrashRefinement.InOrderFaithful` | src/workflow_execute.rs:485-527 | That hub also meets the hypotheses of the refinement, for every oracle whose completed outcomes are replayable. |
| `CrashRefinement.VerdictHubsAreFaithful` | src/workflow_execute.rs:485-527 | So does every hub that looks at nothing of a decision but its verdict. |
| `CrashGate.ReworkingFaithful` | src/workflow_execute.rs:485-527 | Among them a hub that gives a phase another attempt on a rework verdict. |
| `CrashInvariants.InvKept` | src/workflow_execute.rs:479-921 | Every action of the loop keeps the invariant that ties markers, output files, the durable record and the loop's variables together. |
| `CrashInvariants.InvHolds` | src/workflow_execute.rs:479-921 | The invariant holds after every full-workflow run. |
| `CrashRefinement.ReplayIsTransparent` | src/phase_output.rs:92-148 | Replaying a marker has the effect on the hub that applying the original outcome has, with the same verdict. |
| `CrashRefinement.StepSimulates` | src/workflow_execute.rs:479-806 | Each action is either invisible or exactly one step of the crash-free execution. |
| `CrashRefinement.CrashesFollowCrashFree` | src/workflow_execute.rs:479-806 | Under every schedule of crashes and restarts the durable workflow and the applied verdicts are those of a prefix of the crash-free execution, and of all of it once a call returns. |
| `CrashRefinement.SchedulesAgree` | src/workflow_execute.rs:479-806 | Any two schedules of crashes that finish end in the same workflow with the same sequence of applied verdicts. |
| `CrashRefinement.UnknownVerdictIsLost` | src/phase_output.rs:103-113 | For every phase and attempt: without a crash a completed outcome completes the workflow; with one after its marker the workflow completes if the outcome is replayable and fails if its verdict is `unknown`. |
| `CrashRefinement.SchedulesAgreeIff` | src/workflow_execute.rs:479-806 | Under the hub that goes in order, all finished schedules of crashes agree from every initial state if and only if every completed outcome can be replayed. |
| `WorkflowExecute.Runner.Execute` | src/workflow_execute.rs:478-921 | Nothing is done if and only if the workflow is not running or has no phases. Otherwise what is recorded is a call of the state machine that obeys the schedule of deaths, write faults and answers step by step, from the start until the process has returned or died; by `CallForced` there is only one. |
| `WorkflowSchedule.CallForced` | src/workflow_execute.rs:478-921 | A schedule leaves a live process no choice: two calls from the same state that obey it are the same, action by action. |
| `WorkflowSchedule.CallFinishes` | src/workflow_execute.rs:478-921 | A call that is undisturbed for eight steps per remaining phase, and ten more, returns with the workflow and the applied verdicts that end the crash-free execution. |
| `WorkflowSchedule.FirstCallFinishes` | src/workflow_execute.rs:478-921 | In particular the first call on a workflow runs it to the end. |
| `WorkflowExecute.Runner.RunCurrentPhase` | src/workflow_execute.rs:480-921 | Unless the process dies at once, a marked attempt is replayed when its decision can be read and blocked otherwise, and nothing else happens; an unmarked one is begun and goes through the stages of the state machine. |
| `WorkflowExecute.Runner.ReplayMarker` | src/workflow_execute.rs:485-527 | A marker is replayed, or fails the phase when its decision cannot be read. |
| `WorkflowExecute.Runner.PersistPhaseOutput` | src/phase_output.rs:159-233 | Output first, marker second; the first failed write ends it with neither applied to the hub. |
| `WorkflowExecute.Runner.PersistFailedCommand` | src/phase_executor.rs:2689-2715 | A failing command writes its output, then its marker, before it returns; a failed write makes the phase fail. |
| `WorkflowExecute.Runner.ApplyEvalGate` | src/workflow_execute.rs:581-643 | The gate's effect on outcome and rework counter is that of the state machine's gate step. |
| `WorkflowExecute.Runner.GatePhase` | src/workflow_execute.rs:594-640 | The checks that ran answer the declared ones, and the outcome let through is the gate's. |
| `WorkflowExecute.Runner.RunPhaseEvals` | src/phase_evals.rs:192-211 | One result per declared check, in order, each as the schedule answers it. |
| `PhaseOutput.PersistRoundTrip` | src/phase_output.rs:92-223 | Writing an outcome and reading its decision back succeeds exactly for replayable outcomes and keeps verdict, confidence, reason, evidence, violations and commit message; risk becomes low and the target phase is dropped. |
| `PhaseOutput.ParseVerdictName` | src/phase_output.rs:103-113 | Every verdict but `unknown` reads back as itself. |
| `PhaseOutput.PersistedKeeps` | src/phase_output.rs:159-223 | The record written keeps the phase, the commit message and the payload. |
| `PhaseEvals.ForcedReworkKeeps` | src/phase_evals.rs:140-175 | A forced rework keeps commit message and payload, and of a decision all but verdict, reason and target. |
| `PhaseEvals.GateRespectsBudget` | src/phase_evals.rs:113-137 | The gate passes exactly when the pass rate reaches the threshold, never reworks beyond the budget, and blocks a miss without budget. |
| `PhaseEvals.GateCanMissIff` | src/phase_evals.rs:56-137 | Some check results stop the phase exactly when the configuration asks for a positive pass rate. |
| `PhaseSession.SessionFile.WritePending` | src/phase_session.rs:58-91 | A pending write succeeds only when clean; a failed one leaves the old or the new checkpoint. |
| `PhaseSession.SessionFile.Mutate` | src/phase_session.rs:235-272 | An update rewrites the record read from disk with exactly the fields of that update changed, or leaves the file as it was; without a checkpoint it fails. |
| `PhaseExecutor.AttemptLeavesCheckpoint` | src/phase_executor.rs:635-946 | Whatever writes fail, a delivered outcome leaves this run's checkpoint Completed, a stream error leaves it Failed, a Running checkpoint implies the terminal checkpoint error, and a session is still at work exactly when it started and outlives its stream. |
| `PhaseExecutor.ResultIff` | src/phase_executor.rs:635-946 | The result is the stream's outcome or error unless a write or the start of the session fails, and which of these failed decides which of the two checkpoint errors it is. |
| `PhaseExecutor.RecordLeft` | src/phase_executor.rs:860-946 | The whole record left when the result is the stream's: this run's, over, with the last session id whose write landed and the reason of a failure. |
| `PhaseExecutor.RunningLeftIff` | src/phase_executor.rs:664-946 | Exactly which faults leave a Running checkpoint behind. |
| `PhaseExecutor.DeathShieldedIff` | src/phase_executor.rs:664-816 | When the process dies with its session started and not yet recorded as over, the checkpoint shields the run if and only if the Running write was made and landed; between the start of the session and that write nothing does. |
| `PhaseExecutor.AllWritesMade` | src/phase_executor.rs:664-946 | With all its writes made the file is the one the attempt leaves behind. |
| `PhaseExecutor.RunWorkflowPhaseAttempt` | src/phase_executor.rs:635-946 | The attempt's writes and polls compute the attempt specification on any fault pattern. |
| `PhaseRetry.CallIsPath` | src/phase_executor.rs:1750-2205 | For every plan and environment the dispatches form a path in which each next one is an allowed retry (after the doubled, capped pause), a continuation of an incomplete outcome, or a move to the next target after a failover-class error with nothing held; at most targets x (continuations + 1) x attempts of them; a success is the last outcome held for its target; a checkpoint error ends the call exactly when the last dispatch failed to write its checkpoint. |
| `PhasePolicy.CallFollowsPolicy` | src/phase_executor.rs:1750-2205 | For every plan and environment with attempts allowed: each dispatch is the one that a flat policy wants after those before, made on the checkpoint they left, and the call ends where and as the policy says. |
| `PhasePolicy.RetryIff` | src/phase_executor.rs:2046-2106 | At every position an error is followed by another attempt if and only if attempts are left, its class is not excluded, is listed or, without a list, transient, and the attempt can be prepared. |
| `PhasePolicy.FailoverIff` | src/phase_executor.rs:2108-2133 | At every position an error that is not retried, with nothing held for its target, is followed by the first dispatch on the next target if and only if its class is exhaustion or unavailability and there is a next target that resolves and is prepared; otherwise the call is over. |
| `PhasePolicy.ContinuationIff` | src/phase_executor.rs:2150-2190 | At every position an outcome that is held is followed by another continuation if and only if structure is asked for and it has none, continuations are left and the next is prepared; with none left, or when it says something, it is returned. |
| `PhaseRetry.NoDispatchOverLiveSession` | src/phase_executor.rs:2046-2140 | Between two consecutive dispatches of a call the checkpoint on disk is Completed or Failed and the result was no checkpoint error, after which nothing is dispatched; the earlier session is still at work if and only if it outlives its stream. |
| `PhaseRetry.RetryMeetsSession` | src/phase_executor.rs:2046-2106 | After an error the configuration retries, the second dispatch is made either way, so it meets a live session exactly when the first one outlives its stream. |
| `PhaseRetry.RetriesFollowConfiguration` | src/phase_executor.rs:2062-2106 | A retry only follows an error whose class is not in `no_retry_on`, is in `retry_on` when that is not empty and is transient when it is, after a pause of min(200 * 2^(k-1), 3000) milliseconds; checkpoint errors are never retried. |
| `PhaseRetry.TargetsLeftOnFailover` | src/phase_executor.rs:2108-2133 | A target is left for the next one only after a failover-class error with no outcome held for it. |
| `PhaseRetry.NoAttempts` | src/phase_executor.rs:1804-2205 | With no attempt allowed the call walks through its targets without a dispatch. |
| `PhaseRetry.PauseDoubles` | src/phase_executor.rs:1803 | Doubling with the cap makes the pause after attempt k equal to min(200 * 2^(k-1), 3000) milliseconds. |
| `PhaseRetry.AttemptsOk` | src/phase_executor.rs:1804-2149 | What the attempt loop leaves behind: an allowed path, the outcome held, and whether the next continuation or target may follow. |
| `PhaseDispatch.RunAttempts` | src/phase_executor.rs:1803-2149 | The attempt loop computes its specification. |
| `PhaseDispatch.RunContinuations` | src/phase_executor.rs:1789-2185 | The continuation loop computes its specification. |
| `PhaseDispatch.RunWorkflowPhaseWithAgent` | src/phase_executor.rs:1750-2205 | The three nested loops compute the phase call and leave its checkpoint file. |
| `JsonText.StringsShorter` | src/phase_executor.rs:1419-1446 | Every string inside a value is shorter than any text of that value. |
| `JsonScan.CloseIff` | src/phase_executor.rs:1389-1417 | The closing brace found is the one place where the scanner stands at depth one outside strings before a closing brace. |
| `JsonScan.BalancedObjectEnd` | src/phase_executor.rs:1389-1417 | The scanner loop finds that place and never underflows its depth. |
| `JsonScan.CollectBalancedJsonObjects` | src/phase_executor.rs:1366-1385 | The collecting loop returns the balanced spans that parse as objects, in order. |
| `JsonScan.RenderAfter` | src/phase_executor.rs:1389-1417 | The text of any document, with any layout, escapes and string contents, leaves the scanner in the state it was in. |
| `JsonScan.ScannerFindsPrintedObjects` | src/phase_executor.rs:1366-1417 | Printer and scanner agree: for printed objects separated by prose without an opening brace, the spans are exactly the objects' texts, in order. |
| `JsonScan.LaidOutObjectsAreFound` | src/phase_executor.rs:1366-1417 | In particular for objects printed compactly or indented. |
| `ResultSearch.ParsersShrink` | src/phase_executor.rs:1337-1359 | Any parser that accepts only JSON texts, and reads them right, gives values whose strings are shorter than the text; this is the measure by which the mutual search ends. |
| `ResultOrder.TextReturnsFirst` | src/phase_executor.rs:1337-1446 | The search of a text returns the end of the first way to a result in the source's order, and nothing exactly when there is no way: the last balanced object before lines in order, a value itself before its items and its keys `proposal`, `data`, `payload`, `result`, `output`, `item` in that order, and these before `text`, `message`, `content`, `output_text`, `delta`. |
| `ResultOrder.TextHasResultIff` | src/phase_executor.rs:1337-1359 | A text has a result if and only if some way through objects, lines, items and keys leads to an object of the expected kind. |
| `ResultOrder.ValueHasResultIff` | src/phase_executor.rs:1419-1446 | So has a value. |
| `ResultOrder.WrappedResultIsFound` | src/phase_executor.rs:1427-1434 | A result under one of the nested keys of an object that has no other key is returned. |
| `ResultSearch.LinePayloadIff` | src/ipc.rs:209-224 | A line gives a payload exactly when it is, trimmed, the text of an object or array. |
| `ResultSearch.TextResultHasKind` | src/phase_executor.rs:1337-1446 | Every result of the search, however deeply nested in values and texts, is an object of the expected kind, letter case aside. |
| `ResultSearch.LastPrintedResultWins` | src/phase_executor.rs:1337-1352 | In printed objects and brace-free prose the last object of the expected kind is the result when nothing after it holds one. |
| `ResultSearch.ParseResultPayloadFromText` | src/phase_executor.rs:1337-1359 | The loops over spans and over lines compute the search. |
| `NotificationLog.TruncationLosesNoLine` | src/notification_log.rs:28-41 | For every text, cutting it to its valid bytes keeps all its records, leaves only terminated lines and cuts off no complete line. |
| `NotificationLog.PrimaryIncreases` | src/notification_log.rs:28-84 | Over every sequence of appends, crashes leaving any prefix of the line being written, reopenings and rotations, the complete records of the primary file have strictly increasing sequence numbers. |
| `NotificationLog.OrderKept` | src/notification_log.rs:28-84 | Each such event keeps the order. |
| `NotificationLog.RotationKeepsTexts` | src/notification_log.rs:62-84 | Rotation never overwrites a rotated file and keeps every text. |
| `NotificationTail.TailExactlyOnce` | src/notification_log.rs:86-122 | Between rotations, what a polling reader received is always a first part of the complete records after its start, in order and without repetition, and one more poll makes it all of them. |
| `NotificationRotation.ExactlyOnceIff` | src/notification_log.rs:47-122 | Over every run of appends, torn lines, crashes, reopenings, rotations and polls, one more poll gives the reader every completed record once and in order if and only if it had polled everything at each rotation and each record completed later was numbered above what it had seen. |
| `NotificationRotation.LiveTailingIff` | src/notification_log.rs:47-122 | While the log is not reopened that is exactly polling everything before each rotation. |
| `NotificationRotation.ReopeningHidesRecordIff` | src/notification_log.rs:28-84 | When the log is reopened after a rotation it starts with number one again, and that record reaches a reader exactly when it had seen none. |
| `NotificationLogFile.ScanMaxSeqAndValidBytes` | src/notification_log.rs:152-183 | The scan finds the largest sequence number and the length of the terminated lines. |
| `NotificationLogFile.NotificationLogHandle.OpenLog` | src/notification_log.rs:28-41 | Opening truncates the torn tail and resumes after the largest number. |
| `NotificationLogFile.NotificationLogHandle.Append` | src/notification_log.rs:47-61 | An append writes one numbered line, or a prefix of it when the process dies. |
| `NotificationLogFile.NotificationLogHandle.RotateIfNeeded` | src/notification_log.rs:62-84 | A file that reached the threshold moves to a fresh index and an empty one takes its place. |
| `NotificationLogFile.NextRotationIndex` | src/notification_log.rs:132-150 | The index is one past the largest in use. |
| `NotificationLogFile.Tail` | src/notification_log.rs:86-122 | The tail loop returns the complete records after a number. |
| `MechanicalFields.RestoresDecision` | src/decision_normalization.rs:97-165 | Take a response valid under a schema of the composed shape, whatever its branches, and delete any fields of its decision: normalizing gives the decision back but for the fields of which the runner knows nothing and its own values of a deleted confidence, risk and reason; a deleted verdict comes back, as it was, exactly when the outcome determines one. |
| `MechanicalFields.MissingDecisionIsBuilt` | src/decision_normalization.rs:114-128 | A response without any decision is normalized as one whose decision lost every field when the verdict is derived and the summary gives a reason, and is left alone otherwise. |
| `MechanicalFields.RestoresMechanicalFields` | src/decision_normalization.rs:97-165 | For branches that go field by field, whether they pin outcomes or not: the normalized response is valid if and only if the decision schema requires no lost field and accepts the runner's own values, and exactly one `oneOf` branch and at least one `anyOf` branch accepts the rest of the response and takes the new decision. |
| `MechanicalFields.PinnedBranchDecides` | src/decision_normalization.rs:51-165 | When each branch pins an outcome and one alone pins that of the response, the normalized response is valid if and only if the decision schema and what that branch says of the decision require no lost field and accept the runner's own values. |
| `MechanicalFields.DerivedPinsAlone` | src/decision_normalization.rs:51-68 | Wherever a verdict is derived, one branch alone pins the outcome. |
| `MechanicalFields.PinnedAloneDerives` | src/decision_normalization.rs:51-68 | Where one branch alone pins the outcome, and each pins one, the verdict it pins is derived. |
| `MechanicalFields.SilentBranchesDecideNothing` | src/decision_normalization.rs:97-165 | Branches that say nothing of a lost or newly filled field leave the decision schema alone to decide. |
| `MechanicalFields.RefusedRisk` | src/decision_normalization.rs:70-85 | A deleted risk is not restored where the outcome's branch refuses the riskiest value of the decision schema. |
| `ComposedResponses.NarrowedRiskIsNotRestored` | src/decision_normalization.rs:70-85 | Such an input: a merged review whose branch requires low risk, with a decision contract that declares nothing, loses its risk, is filled with `high` and is no longer valid. |
| `ComposedResponses.ComposedDecisionsAreRestored` | src/decision_normalization.rs:97-165 | The decision is given back in this way under every schema the runner composes with an output contract or an explicit schema, whatever its branches. |
| `ComposedResponses.ComposedResponsesAreRestored` | src/decision_normalization.rs:97-165 | Under a composed schema the normalized response is valid if and only if the decision schema requires no lost field, what the decision contract declares of a deleted confidence, risk or reason accepts the runner's value, and so do the explicit schema's branches unless an output contract has dropped them. |
| `ComposedResponses.RangeAcceptsIff` | src/decision_normalization.rs:111-112 | A confidence range accepts its own minimum exactly when it is not empty, however high the minimum. |
| `ComposedResponses.ListAcceptsIff` | src/decision_normalization.rs:70-85 | A list of risks accepts the one filled in exactly when it names any. |
| `MechanicalFields.DerivedIsOriginal` | src/decision_normalization.rs:51-68 | A verdict derived from the branches of a valid response is the verdict it states. |
| `ComposedResponses.DecisionSchemaHasShape` | src/runtime_contract.rs:143-204 | A decision contract that leaves kind and phase_id to the runner composes without error to the schema shape this needs; its confidence, risk and reason can be filled exactly when the contract's own declarations of them, if any, allow it. |
| `ComposedResponses.ResponseSchemaHasShape` | src/runtime_contract.rs:206-235 | Adding the decision to an output schema succeeds exactly when it has a properties object, gives a response schema of that shape and keeps all branches as they are. |
| `ComposedResponses.ComposedHasShape` | src/runtime_contract.rs:113-235 | Every composed response schema has that shape around the decision contract's own schema, with the explicit schema's branches without an output contract and with none under one. |
| `ComposedResponses.ComposedVerdict` | src/runtime_contract.rs:113-235 | The verdict a composed schema derives is the explicit schema's when there is no output contract, and none when there is one, because merging keeps an explicit schema's properties and drops its branches. |
| `ComposedResponses.ContractsDeriveNoVerdict` | src/runtime_contract.rs:9-32 | Composition keeps an explicit schema's derivation if and only if there is no output contract or nothing to derive. |
| `ComposedResponses.ReviewVerdictIsLost` | src/runtime_contract.rs:113-141 | A schema and a payload whose verdict is derived, and is lost under every output contract. |
| `DecisionNormalization.NormalizingKeeps` | src/decision_normalization.rs:97-165 | Normalizing changes no field the decision has, no other top-level key, and nothing when the decision is not an object. |
| `DecisionNormalization.NormalizingIsIdempotent` | src/decision_normalization.rs:97-165 | Normalizing twice is normalizing once, and the second time reports nothing filled. |
| `DecisionNormalization.FilledNamesAre` | src/decision_normalization.rs:134-162 | The names reported are exactly those of the fields that were added. |
| `DecisionNormalization.ReasonIsTrimmed` | src/decision_normalization.rs:105-110 | The reason filled in is the summary without the white space around it; a blank summary gives none. |
| `DecisionNormalization.RiskiestNames` | src/decision_normalization.rs:70-85 | Of the three risks the highest listed is filled in. |
| `DecisionNormalization.VerdictIgnoresBranchOrder` | src/decision_normalization.rs:51-68 | The derived verdict is the same for every order of the schema's branches. |
| `DecisionNormalization.DeriveVerdictFromOutcome` | src/decision_normalization.rs:51-68 | The branch loop derives the verdict of the only branch pinning the outcome when every branch pins one, and none otherwise. |
| `DecisionNormalization.NormalizePhaseDecision` | src/decision_normalization.rs:97-165 | The field-by-field edits compute the normalized payload and the names filled. |
| `RuntimeContract.MergeSchemaInto` | src/runtime_contract.rs:9-32 | Merging edits properties and required names as specified, with both error cases. |
| `RuntimeContract.AddedExactly` | src/runtime_contract.rs:22-29 | The merged required names are exactly those of either side. |
| `ContractSchemas.MergeIs` | src/runtime_contract.rs:9-32 | Merging succeeds exactly when there is something to merge into; the overlay's properties win, the required names are those of either side, and no other keyword changes. |
| `ContractSchemas.FieldSchemaIff` | src/runtime_contract.rs:34-77 | A value is valid for a declared field if and only if it has the type, is one of the listed strings if any, and its items and fields are valid, the required ones present. |
| `ContractSchemas.DecisionRequiresIff` | src/runtime_contract.rs:155-160 | A decision must have the six fields, and evidence where the contract asks for it. |
| `ContractSchemas.RiskAllowedIff` | src/runtime_contract.rs:148-152 | A decision may state the three risks up to the contract's highest. |
| `ContractSchemas.ResponseRequiresIff` | src/runtime_contract.rs:211-231 | A response must have a decision exactly when the contract asks for it or the output schema does. |
| `RuntimeContract.ContractDropsBranches` | src/runtime_contract.rs:113-141 | A contract's output schema has only the contract's own four keywords. |
| `Reattach.StreamsAreContiguous` | src/reattach.rs:144-217 | For every interleaving of accepts, emits and stalls, a live reader received exactly the lines emitted since it attached, a dropped one a contiguous run of them and at most one partial line, after which it is never written to again. |
| `Reattach.EmitKeepsReaders` | src/reattach.rs:144-180 | A reader whose write goes through stays live and one that stalls is dropped. |
| `Reattach.NoReaderIsLost` | src/reattach.rs:144-217 | Over every interleaving each accepted connection is a live or a dropped reader. |
| `Reattach.ReattachListenerEmitter.BroadcastLine` | src/reattach.rs:144-180 | The draining loop delivers the line to every reader and keeps exactly those whose write went through. |
| `Reattach.ReattachListenerEmitter.Attach` | src/reattach.rs:213-216 | An accepted connection joins the readers with nothing received. |
| `Reattach.WriteLine` | src/reattach.rs:163-167 | Line, terminator and flush together let through a prefix of the terminated line. |
| `ConfigOverrides.OverridesRefineMap` | src/runtime_support.rs:94-110 | After any list of overrides the first-pair view of every key is the old view updated by the last-wins map of the list. |
| `ConfigOverrides.OverridesAreIdempotent` | src/runtime_support.rs:270-274 | Injecting the same overrides again changes nothing, repeated keys included. |
| `ConfigOverrides.EnsureKeepsOthers` | src/runtime_support.rs:94-110 | An override leaves every other key's value as it was, also when it inserts before `exec`. |
| `ConfigOverrides.InsertedBeforeExec` | src/runtime_support.rs:94-110 | Without a pair for the key a new one goes before the first `exec`, or first of all. |
| `ConfigOverrides.EntryRoundTrip` | src/runtime_support.rs:185-194 | An entry that was written is read back as its key and value. |
| `ConfigOverrides.OthersStayInOrder` | src/runtime_support.rs:97-109 | Everything but the one edited item or the one inserted pair stays, in order. |
| `ConfigOverrides.AllOthersStayInOrder` | src/runtime_support.rs:270-274 | Over a whole list of overrides everything but `-c` flags and entries of the overridden keys stays, in order, and what is added is one flag and one entry at a time. |
| `ConfigOverrides.EnsureCodexConfigOverride` | src/runtime_support.rs:94-110 | The index loop replaces the value of the first pair, or inserts a pair. |
| `ConfigOverrides.ParsedEntry` | src/runtime_support.rs:185-194 | A parsed entry's key holds no equals sign and neither part is empty. |
| `PhaseTargets.PlanKeepsOrder` | src/phase_targets.rs:68-89 | Unless every candidate is suppressed, the planned models are the candidates' first occurrences, letter case aside, in order and without the suppressed ones. |
| `PhaseTargets.PlanIsDuplicateFree` | src/phase_targets.rs:78-117 | The plan is never empty and names no model twice, letter case aside. |
| `PhaseTargets.KeptIff` | src/phase_targets.rs:82-89 | A first occurrence is planned exactly when it is not suppressed. |
| `PhaseTargets.PlannedTools` | src/phase_targets.rs:91-108 | The primary target comes first unless suppressed; the n-th target after it, a configured fallback or a routed model, runs on the n-th configured tool if that is not blank, and on the tool that belongs to its model otherwise. |
| `PhaseTargets.ModelToolIff` | src/phase_targets.rs:91-106 | Where the two differ, a target runs on its model's tool if and only if no tool is configured at its position. |
| `PhaseTargets.NothingKept` | src/phase_targets.rs:112-114 | With every candidate suppressed the primary target is planned all the same. |
| `PhaseTargets.FallbackToolIff` | src/phase_targets.rs:91-108 | A configured fallback that is planned gets the tool whose index counts the fallbacks planned before it; that is its own index if and only if every fallback configured before it is planned too, and a suppressed primary model does not matter. |
| `PhaseTargets.AllToolsLineUpIff` | src/phase_targets.rs:91-108 | When the configured tools are distinct, every planned fallback's target runs on the tool configured with it if and only if no fallback is planned after one that is not. |
| `PhaseTargets.FallbackToolsLineUp` | src/phase_targets.rs:91-108 | With no blank, repeated or suppressed fallback up to the i-th, the i-th has its own target with the tool configured for it if that is not blank. |
| `PhaseTargets.SuppressionShiftsTools` | src/phase_targets.rs:94-103 | Any unplanned fallback before a planned one moves it to the tool of an earlier position. |
| `PhaseTargets.ShiftedTool` | src/phase_targets.rs:94-103 | A request whose second fallback runs on the tool configured for the first. |
| `PhaseTargets.BuildPhaseExecutionTargets` | src/phase_targets.rs:78-117 | The candidate loop computes the plan. |
| `EventStream.ForeignEventsHaveNoEffect` | src/phase_executor.rs:1081-1334 | The outcome or error of a stream equals that of its own-run events cut at the first terminal one. |
| `EventStream.DiagnosticsAreTheLastLines` | src/phase_executor.rs:1324-1334 | A stream that ends without a terminal event is reported with exactly the last 24 non-empty normalized lines of the run's events. |
| `EventStream.FinishedReportsWholeOutput` | src/phase_executor.rs:1237-1325 | A run that finishes well reports the result its whole output holds, whatever its parts held. |
| `EventOutcome.ExitDecides` | src/phase_executor.rs:1293-1322 | A run that ends with an exit code succeeds if and only if the code is missing or zero. On success its commit message is the first found, or that of the first decision where it comes first, its decision is the first, and its payload the latest result or else the earliest decision payload; otherwise the error has the code, the last 24 diagnostic lines and the first exhaustion found. |
| `EventOutcome.ErrorIsReported` | src/phase_executor.rs:1280-1292 | A run that ends with an error reports it, with the first exhaustion found in its texts or else in the error. |
| `EventStream.ProcessPhaseEventStream` | src/phase_executor.rs:1040-1335 | The event loop computes the outcome. |
| `PhaseFailover.PushedIsLast` | src/phase_failover.rs:184-198 | Pushing onto the bounded list is appending to the full list and keeping the last 24 lines. |
| `PhaseFailover.Diagnostics.PushPhaseDiagnosticLine` | src/phase_failover.rs:184-198 | The list always holds the last 24 non-empty normalized lines of what was pushed. |
| `PriorContext.TruncationBounds` | src/phase_output.rs:311-331 | A truncated text carries the notice, keeps the longest suffix of sections that fits, never all of them, and is at most 8010 characters long. |
| `PriorContext.ExceedsLimitIff` | src/phase_output.rs:314-331 | For every list that is truncated, the text exceeds 8000 characters exactly when sections are kept and take more than 7939, the oldest one's trailing white space aside. |
| `PriorContext.LimitIsExceeded` | src/phase_output.rs:314-331 | Two outputs whose text is 8010 characters long, so the bound is met. |
| `PriorContext.TruncateSections` | src/phase_output.rs:314-328 | The greedy budget loop keeps exactly that suffix. |
| `PriorContext.FormatPriorPhaseOutputs` | src/phase_output.rs:271-331 | The text is empty without outputs, whole when it is short enough and truncated otherwise. |

## Left out

- WorkflowExecute.Runner.Execute: needs a schedule in which the process dies at some step, however late, because every loop must end; `CallFinishes` says when it returns before.
- Eval budget across calls: the rework counter lives in memory, so a restart begins with a full budget; the bound is stated for one call.
- Single-phase runs and gated failing commands: outside most crash theorems, with the exact conditions and the runs that break them proved instead.
- Single-phase runs under another spelling: the attempt is found in any letter case, as in the code, but a phase named in another case counts as another phase, with files of its own.
- The `workflow/run_phase` entry point (src/plugin.rs:434): runs any attempt its caller names, beside a running loop and without the guard by process id; a failing command there writes output and marker too.
- Changes of the workflow record by others while a call is running, such as a pause or cancel issued during a phase: the action for outside changes needs a runner that is down or done.
- Hub, configuration and protocol internals: only the hypotheses named above; routing and skills enter `PhaseTargets` as a resolved primary target and lists of models.
- Files: JSON serialization of records, times, temporary names and directory creation; an output file that another program damages is only read as missing, unreadable or malformed.
- Numbers: confidences, pass rates and thresholds are reals; the reading of digits is an arbitrary function.
- Text: characters stand for bytes; this is exact for ASCII, and for the brace scanner on any UTF-8 text, because it only looks at ASCII characters. Partial UTF-8 in torn lines is not modelled.
- Log: appends that fail in a living process (buffered remainders), concurrent appends, and sequence numbers after a 64-bit counter runs out.
- NotificationLog.PrimaryIncreases: does not cover a counter that wraps around; runs are required to stay below 2^64 records in a file.
- ResultSearch.LastPrintedResultWins: says nothing about prose with unbalanced opening braces, where the scanner may swallow a following object.
- Event stream: persistence of raw events, sidecar polling and logging have no effect on the outcome and are not modelled; parsers of commit messages and decisions are arbitrary functions.
- Failure classification: the patterns that turn a message into a failure class are a parameter of `PhaseRetry`.
- Attempt preparation: building requests, prompts, runtime contracts and capabilities is a flag that says whether it succeeded; sending to a provider is the environment's answer.
- Reattach: socket set-up, permissions and the acceptor thread's own errors; accepts and emits are atomic because both hold the readers' lock, and WriteAll's deadline is a nondeterministic result.
- MechanicalFields.RestoresMechanicalFields: says nothing of an explicit schema or branch with a `const` or `enum` on the response or decision as a whole, or of branches nested in branches; `RestoresDecision` covers these.
- ComposedResponses.DecisionSchemaHasShape: leaves out decision contracts that declare kind or phase_id themselves, for which the runner's fixed values need not fit.
- JsonSchema: keywords the composed schemas do not use, and annotations, are ignored; an `additionalProperties` other than true is not modelled.
- Manual approval, resuming of interrupted agents, post-success actions, git and GitHub commands, the JSON-RPC loop, flag parsing, prompt assembly, MCP injection, binary discovery and process spawning.
