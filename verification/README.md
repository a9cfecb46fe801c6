# A verified model of subagent-broker

subagent-broker supervises parallel agent workers for the length of one run. It dispatches tasks in
waves, keeps every change in append-only journals, routes questions and permissions between workers
and the lead, audits which files each worker changed, and restarts from its journals after a crash.
This project models the parts of it that have to agree with each other and proves that they do.

| module | models |
|---|---|
| `Jsonl` | newline-terminated journals, torn tails, quarantine and repair |
| `EventStream` | the event queue of an adapter session with its single owner goroutine |
| `Resolutions`, `Journal`, `Router` | decisions and their encodings, the lifecycle replay insists on, the outbox that writes the journal before its index |
| `Decisions` | one question or permission request from enqueue to wake-up, with concurrent resolvers, expirers and crashes |
| `Attempts`, `Reducer`, `Commit`, `Completion` | worker attempts, the event reducer, checkpoints and the commit protocol, and what recovery makes of each kind of commit that was cut off |
| `Text`, `Paths`, `Glob`, `Scope` | path cleaning, the glob language, its regular expressions and the overlap test |
| `Preflight`, `ScopeExpansion`, `Audit` | admission of a wave, scope growth while it runs, attribution of changed files |
| `Plan`, `WaveLoop`, `Barrier` | plan validation, the re-entrant wave loop, the verdict on a wave |
| `Termination`, `Recovery` | killing a process tree, the exit matrix, recovery classes and the start gate |

How the model is built:

* Protocols between goroutines are state machines whose steps are the code's critical sections and
  channel operations; theorems are about every sequence of steps. Where the code updates an object
  in place (stream, journal file, router, commit, process controller, a task's attempt history) a
  class with the same fields performs the steps, and each method is proved to be the step or the
  function the theorems are about.
* Failures of the disk, of adapters and of the process manager, the clock, random ids and the outcome
  of checks are parameters or arbitrary functions, so every theorem holds for all of them.
* No proof rests on automatic induction: every lemma Dafny would try it on carries `{:induction false}`.
* Some specifications take a check as a function value (`Checks`, `OverlapTest`, `WaveCheck`, `Facts`,
  `Wording`). The theorems hold for any such check; the code's own is plugged in by name.

Findings. In each case one lemma shows a failing input or run, and one gives the condition:

* The router checks less than replay does. `AcceptedIffAcceptable` is the exact condition a caller can test,
  `UnacceptableCallCorrupts` and `StaleAttemptDiverges` show what happens otherwise, and
  `ResumeToUnsupportedRejected` is a call the supervisor makes.
* A parked request is stranded when the commit of a terminal projection fails, although the comment on
  notifyDecisionWaiter calls a missed notification harmless. Every fresh message somebody waits for has such
  a run (`FailedCommitReachable`, `FailedExpiryReachable`), only cancelling or a restart ends it
  (`StrandedStays`), and no other step loses a wake-up (`WakeupLostIff`).
* A worker may ask for a permission whose payload names a native permission. Its message has no attempt
  number, so the binding refuses every delivery of a decision, and once one is frozen expiry refuses it too: nothing
  fails, and the request stays parked (`NativeHoldReachable`, `HeldStays`). `ParkedRequestCanEndIff` says that these
  are exactly the parked requests that cannot end by themselves.
* Replaying onto a checkpoint of 0 tolerates a log of another run, which later checkpoints do not:
  `ForeignLogReplaysOnce` is such a log, and `CheckpointIndependence` says exactly when the checkpoint matters.
* Normalising a scope pattern twice is not the same as once (`RenormalizeExactly`), and the second pass can
  refuse it (`RenormalizeCanFail`; `RenormalizesBySegments` says exactly when). A policy is normalised when it is frozen,
  when it is loaded and when it is used, so one that the first pass accepts can be refused by a later one
  (`FrozenPolicyCanFail`; `PatternUsableIff` says exactly which).
* Accepting and rejecting barrier warnings check and commit in separate steps. A rejection that commits after
  the executor has passed the accepted wave starts a later wave behind a failed one (`LateRejectionBreaksOrder`,
  `LateRejectionReachable`); `RejectionKeepsOrderIff` says that this is exactly when it does harm.
* A commit that is cut off between its event and its snapshot is finished by replay only as far as the reducer
  goes. `CompletedIff` and the lemmas behind it say for each commit what that is: run and task status, ends of attempts and
  heartbeats are completed; a wave's status is, but not its times; a selection of the next wave is lost, and so are
  the session and pid of a spawned worker (`InterruptedWaveStatus`, `InterruptedSelection`, `InterruptedSpawn`).
* Ending an attempt with the outcome "running" breaks the attempt history, any other outcome keeps it
  (`FinishKeepsHistoryIff`); so does an update that clears the session of a resumed attempt, and no other
  update (`UpdateKeepsHistoryIff`).

## Model

| member | source | states |
|---|---|---|
| `Jsonl.Reassemble` | internal/storage/jsonl.go:40-117 | every file is exactly its complete records followed by a newline-free tail |
| `Jsonl.Recover` | internal/storage/jsonl.go:40-117 | any newline-free records followed by any newline-free tail are read back exactly |
| `Jsonl.LinesGrow` | internal/storage/jsonl.go:55-92 | reading further never takes back a record |
| `Jsonl.NextNewline` | internal/storage/jsonl.go:55-70 | finds the first newline at or behind an offset, or the end |
| `Jsonl.Scan` | internal/storage/jsonl.go:52-92 | the byte scan consumes exactly the accepted leading records, stops at their last byte, and reports a refused record exactly when there is one |
| `Jsonl.JournalFile.Replay` | internal/storage/jsonl.go:40-117 | records consumed, offset, tail flag, errors, truncated contents and quarantined bytes, for every combination of validator, repair option and failing file operation |
| `Jsonl.JournalFile.Append` | internal/storage/jsonl.go:119-176 | a non-empty record without trailing newline is written behind no torn tail, as many bytes of it and its newline as the disk takes; success means all of them, synced; anything else is refused and changes nothing |
| `Jsonl.Perform` | internal/storage/jsonl.go:40-176 | the file's methods do to its bytes what an append, a torn append or a repair does in the run theorem |
| `Jsonl.AppendAllowedIffNoTail` | internal/storage/jsonl.go:152-176 | looking at the last byte decides exactly whether there is a torn tail |
| `Jsonl.RecoverTornAppend` | internal/storage/jsonl.go:40-176 | after any cut of one more append: exactly the complete records are consumed, truncated file and quarantine are the original bytes, a second replay finds no tail, append is refused before repair and accepted after it |
| `Jsonl.AppendThenLoad` | internal/storage/jsonl.go:40-150 | an accepted append is read back behind the earlier records, a refused one leaves no trace |
| `Jsonl.RunKeepsCommitted` | internal/storage/jsonl.go:40-176 | over any sequence of appends, torn appends and repairs no completed record is lost or changed |
| `EventStream.NextKeepsInv` | internal/adapter/protocol/stream.go:104-237 | every step of producers, closers, aborters and owner keeps order, accounting, flags and the pending wake-up |
| `EventStream.EveryRunConserves` | internal/adapter/protocol/stream.go:104-237 | in every interleaving sent, in-flight and queued events are the accepted sequence in order; calls are accepted plus dropped plus rejected; the progress count equals the non-critical queued events and stays within the limit |
| `EventStream.CriticalNeverDropped` | internal/adapter/protocol/emit.go:15-39 | a critical event published before close or abort is accepted however full the queue is |
| `EventStream.PublishByKind` | internal/adapter/protocol/emit.go:15-39 | in every reachable state, by kind of event: on an open stream control events and protocol events other than thinking are accepted however full the queue is, all others exactly while fewer than the limit (256 unless given) are queued; a closed stream rejects |
| `EventStream.GracefulCloseDrains` | internal/adapter/protocol/stream.go:128-237 | after a graceful close the owner takes exactly the number of steps the queue and its position ask for, then everything accepted was sent and the channel was closed once |
| `EventStream.DrainingNeverStuck` | internal/adapter/protocol/stream.go:167-228 | while a close is requested and the owner has not left, some step moves the owner or a wake-up for it |
| `EventStream.AbortEndsQuickly` | internal/adapter/protocol/stream.go:139-237 | after an abort the owner leaves within five of its own steps and sends at most the event in its hand |
| `EventStream.AbortUnblocksOwner` | internal/adapter/protocol/stream.go:185-237 | a closed abort channel frees an owner blocked on a full consumer or asleep |
| `EventStream.Stream.PublishLocked` | internal/adapter/protocol/stream.go:104-126 | performs the publish step and returns its outcome |
| `EventStream.Stream.CloseLocked` | internal/adapter/protocol/stream.go:128-137 | performs the close step |
| `EventStream.Stream.AbortLocked` | internal/adapter/protocol/stream.go:139-148 | performs the abort step |
| `EventStream.Stream.SignalOwner` | internal/adapter/protocol/stream.go:167-172 | leaves one token at most |
| `EventStream.Stream.OwnerTurn` | internal/adapter/protocol/stream.go:185-228 | performs the owner's critical section; the clamp of a negative count is never needed |
| `EventStream.Stream.Forward` | internal/adapter/protocol/stream.go:230-237 | sends, or gives up only on abort |
| `EventStream.Stream.Wait` | internal/adapter/protocol/stream.go:216-227 | wakes on a token or on abort |
| `EventStream.Stream.FinishStep` | internal/adapter/protocol/stream.go:174-183 | performs the three actions of finish in order |
| `Journal.TerminalIsFinal` | internal/message/message.go:66-98 | the terminal statuses are exactly those the table never leaves |
| `Journal.TransitionLaw` | internal/message/message.go:66-98 | the table as a law of stages: until it has ended a message may fail, take the next stage, or be answered or expire once it is queued, and nothing else |
| `Journal.ReplayRecords` | internal/message/store.go:108-158 | replay accepts the longest acceptable prefix and its index is the last record of each message |
| `Journal.FirstRecordIff` | internal/message/store.go:163-256 | with which records a journal may begin, exactly |
| `Journal.HistoryIsStable` | internal/message/store.go:163-256 | in an accepted journal any later record of a message keeps identity, content, set worker, attempt, mode and resolution, has no smaller counters, never goes back a stage, and never leaves a terminal status |
| `Journal.ReplayWellKept` | internal/message/store.go:108-158 | the replayed index holds complete, lawful records under their own ids |
| `Router.AcceptedIffAcceptable` | internal/message/router.go:201-440 | a record written by freeze, reclassify, delivery attempt or transition passes the replay checks exactly when a condition on call and message holds |
| `Router.RecheckFiresIffStale` | internal/message/router.go:264-440 | with the entry unchanged since it was read, the re-check before installing fails only for a delivery attempt without a new status on a terminal message |
| `Router.NextKeepsInv` | internal/message/router.go:82-440 | each read, append, install, failed append or crash keeps the journal equal to the index overlaid with the records of calls between append and install |
| `Router.JournalLeadsByOne` | internal/message/router.go:72-440 | in every run whose writing calls are acceptable the journal replays; it equals the index except for one record per locked message, and exactly when no call is between append and install |
| `Router.RechecksNeverFire` | internal/message/router.go:325-440 | in every lawful run a pending record is always installed |
| `Router.InstructionLife` | internal/message/router.go:82-440 | behind every lawful run a new instruction is queued, delivered, acknowledged and answered by four calls, and after each index and replayed journal show it |
| `Router.UnacceptableCallCorrupts` | internal/message/store.go:163-256 | a call that writes without meeting the condition leaves a journal that cannot be replayed |
| `Router.StaleAttemptDiverges` | internal/message/router.go:340-380 | a delivery attempt without new status on a terminal message leaves the journal ahead of the index for good |
| `Router.ResumeToUnsupportedRejected` | internal/supervisor/messages.go:1385-1395 | failing a queued resume instruction as unsupported writes a record replay refuses |
| `Router.PerformIsThreeSteps` | internal/message/router.go:201-440 | a whole call is its read, append and install steps |
| `Router.PerformKeepsAgreement` | internal/message/router.go:201-440 | a lawful call keeps the journal replaying to the index |
| `Router.Router.EnqueueInstruction` | internal/message/router.go:82-127 | appends and indexes one queued message; the journal still replays to the index exactly for a known or empty mode |
| `Router.Router.EnqueueDecision` | internal/message/router.go:142-183 | appends and indexes one queued message and keeps the agreement |
| `Router.Router.CompareStored` | internal/message/router.go:219-256 | identical means equal by meaning |
| `Router.Router.FreezeResolution` | internal/message/router.go:201-276 | freezes, recognises or refuses exactly as specified, and changes nothing otherwise |
| `Router.Router.ReclassifyDelivery` | internal/message/router.go:293-334 | only next_turn to resume on a queued instruction |
| `Router.Router.RecordDeliveryAttempt` | internal/message/router.go:340-380 | counts the attempt; succeeds exactly for a known message, a working disk and an allowed new status or, without one, a message that has not ended; the index changes exactly then |
| `Router.Router.Transition` | internal/message/router.go:384-440 | performs the specified change, or none |
| `Router.Router.ExpireTask` | internal/message/router.go:523-550 | expires a sorted part of the pending messages of one task, each with its own time and its own write; succeeds exactly when every one can be expired and written, and then none is left; nothing else changes, and the agreement is kept |
| `Decisions.NextKeepsInv` | internal/supervisor/messages.go:43-309 | every step of any call on the message keeps what the lock holder knows, one frozen resolution, authorised side effects and the waiter's bookkeeping |
| `Decisions.FreezeEffect` | internal/message/router.go:201-276 | freezing a valid resolution either records its canonical form or finds the same meaning frozen |
| `Decisions.OneResolution` | internal/supervisor/messages.go:192-309 | in every interleaving with retries, expiries, failures and crashes: at most one frozen resolution, an answer carries exactly it, a frozen message is never expired, scope grows only under a frozen allowance, all native responses carry the same decision |
| `Decisions.AnswerWasCarriedOut` | internal/supervisor/messages.go:240-283 | in every run, an answered scope request whose resolution allows has all its patterns in the scope, and an answered native permission was accepted by its adapter with the frozen decision |
| `Decisions.EveryRequestCanBeAnswered` | internal/supervisor/messages.go:43-309 | when nothing fails, every awaited message that is no native permission and every valid resolution: the message is answered with it, published queued and then answered, granted exactly when it is an allowed scope request, and the request returns |
| `Decisions.EveryPermissionReachesItsAdapter` | internal/supervisor/permission.go:273-429 | when nothing fails, a permission of an adapter's attempt is put to the adapter with the decision submitted; accepted it is answered, refused it stays queued with one more try |
| `Decisions.FailureChangesNothing` | internal/supervisor/messages.go:192-309 | at every stage a failing write, commit or grant leaves message, scope, projections and adapter as they are; the lock comes free, and a request being set up returns |
| `Decisions.UnpublishedQuestion` | internal/supervisor/messages.go:100-130 | when the question cannot be published a request fails its message if that can be written, the bridge leaves it pending, and both return |
| `Decisions.RetryDoesNotWidenAgain` | internal/supervisor/messages.go:1191-1232 | a retry after a granted request adds nothing to the scope |
| `Decisions.QueuedNeverAfterAnswered` | internal/supervisor/messages.go:63-90 | a queued projection is never committed behind the answered one |
| `Decisions.WakeupLostIff` | internal/supervisor/messages.go:160-190 | a step loses the wake-up of a parked request exactly when it is a failing commit of a terminal projection |
| `Decisions.NoLostWakeup` | internal/supervisor/messages.go:160-190 | for every message, in every run in which no such commit fails, a parked request whose message is terminal has its token or a lock holder about to notify |
| `Decisions.AskedNativeNeverAnswered` | internal/supervisor/permission.go:433-444 | a native permission a worker asks for itself is never answered in any run, and no adapter is told of a decision on it |
| `Decisions.WakeMeansDecided` | internal/supervisor/runtime.go:271-286 | a token is only ever sent for a terminal message |
| `Decisions.FailedCommitStrands` | internal/supervisor/messages.go:278-283 | one failed commit of a terminal projection strands the parked request |
| `Decisions.FailedCommitReachable` | internal/supervisor/messages.go:43-283 | for every fresh message somebody waits for that is no native permission and every valid resolution, a whole run from the request on that strands it |
| `Decisions.FailedExpiryReachable` | internal/supervisor/messages.go:831-863 | for every fresh message somebody waits for, a whole run that strands the request by a failing commit of its expiry |
| `Decisions.NativeHoldReachable` | internal/supervisor/permission.go:273-334 | for every native permission a worker asks for and every valid decision, a whole run without any failure after which the request is held |
| `Decisions.HeldStays` | internal/supervisor/permission.go:309-334 | a held request stays parked on a queued message whatever is submitted, retried or expired, unless it is cancelled or the supervisor goes down |
| `Decisions.ParkedRequestCanEndIff` | internal/supervisor/messages.go:839-850 | in every run without a failing terminal commit, with the lock free: a parked request can end without cancelling or a crash, except exactly when its message is a queued native permission with a frozen resolution |
| `Decisions.StrandedStays` | internal/supervisor/messages.go:160-232 | whatever steps follow, a stranded request stays parked on its decided message without a token, unless it is cancelled or the supervisor goes down |
| `Decisions.CallsAreLawful` | internal/supervisor/permission.go:300-410 | every router call made for a decision message meets the router's precondition, so its journal always replays |
| `Attempts.NextNumber` | internal/worker/attempt.go:42-50 | larger than every number in the history |
| `Attempts.FindActive` | internal/worker/attempt.go:132-145 | none, the one, or an error for several running attempts |
| `Attempts.Begin` | internal/worker/attempt.go:54-107 | succeeds exactly when nothing runs, the mode fits the history and the worker belongs to the task; the new attempt has the next number and, when resuming, the latest known session |
| `Attempts.Finish` | internal/worker/attempt.go:111-128 | finishes only a running attempt with a terminal outcome, keeping number, mode and worker |
| `Attempts.TaskCell.MigrateAttempts` | internal/supervisor/recovery.go:372-401 | turns a single recorded worker into a history of one |
| `Attempts.TaskCell.FinishActiveAttempt` | internal/supervisor/recovery.go:346-369 | ends the attempt named active and clears the name |
| `Attempts.TaskCell.StartAttempt` | internal/supervisor/execute_task.go:88-137 | appends the new attempt, makes it active and the report stale, or changes nothing |
| `Attempts.StartKeepsHistory` | internal/worker/attempt.go:54-107 | starting keeps numbers increasing, fresh only first, one running attempt which is last and active, and sessions known |
| `Attempts.FinishKeepsHistoryIff` | internal/supervisor/recovery.go:346-369 | ending keeps the history in order exactly when the outcome is not "running" or nothing was active |
| `Attempts.UpdateKeepsHistoryIff` | internal/supervisor/execute_task.go:821-831 | updating the active worker keeps the history in order exactly when it does not clear the session of an attempt that resumes a history with a known one |
| `Attempts.RunKeepsHistory` | internal/worker/attempt.go:42-145 | every history built by starting, ending, updating and loading is in order |
| `Attempts.RunKeepsSessionKnown` | internal/supervisor/messages.go:1365-1380 | over every life, with updates between attempts that leave the worker without a session or give it the latest one, the session of the task's worker is the latest the history knows |
| `Attempts.ResumeTakesLatestSession` | internal/supervisor/execute_task.go:88-100 | after any such life a resumed attempt gets the latest session id known to the history |
| `Reducer.ReplayEvents` | internal/supervisor/reducer.go:420-451 | the loop computes the replay function, legacy mode included |
| `Reducer.WaveEventReaches` | internal/supervisor/reducer.go:65-131 | a wave event gives the first wave of its id, and the current wave when it is that one or none, the status, failure reason and barrier result it carries; a selection of an unlisted wave becomes current; nothing else changes |
| `Reducer.WaveEventRefusedIff` | internal/supervisor/reducer.go:65-131 | it is refused exactly when it names no wave, says nothing, or without a reason finds a wave in another status than it says |
| `Reducer.TouchSets` | internal/supervisor/reducer.go:278-399 | process, protocol, progress and stall events of a known task set what they are about in the task's and its worker's dimensions; a progress event is refused exactly for a change its table does not allow |
| `Reducer.BareVerdicts` | internal/supervisor/reducer.go:133-178 | an event of the verifier without a target status means the status its type names |
| `Reducer.ForeignEventSkippedIff` | internal/supervisor/reducer.go:440-464 | an event of another run is skipped from checkpoint 0 exactly when its type carries no state |
| `Reducer.TaskEntries` | internal/state/state.go:131-182 | for each status of a task, exactly the statuses it can be entered from |
| `Reducer.VerifiedWasReported` | internal/state/state.go:131-182 | in every history of allowed changes from planned on, a task that was verified, in whole, in part or without success, ran or was blocked, then reported complete, then was being verified |
| `Reducer.EndIsFinal` | internal/state/state.go:131-182 | success, failure and cancellation are never left |
| `Reducer.ProgressEntries` | internal/state/state.go:123-172 | for each progress state, exactly the states it can be entered from |
| `Reducer.ReplayStands` | internal/supervisor/reducer.go:17-37 | after a contiguous log of one run the checkpoint stands at its last event and the run id is kept |
| `Reducer.CheckpointIndependence` | internal/supervisor/reducer.go:420-451 | replaying the whole log onto the checkpoint of a prefix gives the full replay, except exactly when log and checkpoint name different runs, the checkpoint is 0 and the prefix is proper and not empty |
| `Reducer.ClashBreaksIndependence` | internal/supervisor/reducer.go:437-447 | in that case the second replay fails |
| `Reducer.ForeignLogReplaysOnce` | internal/supervisor/reducer.go:437-447 | a log of run "b" that replays onto run "a" from checkpoint 0 but not from the checkpoint its first event leaves |
| `Reducer.EffectKeepsScopes` | internal/supervisor/reducer.go:242-269 | no event shortens a task's write scope or changes the tasks' identities |
| `Reducer.ReplayKeepsScopes` | internal/supervisor/reducer.go:242-269 | along any replay no task's write scope gets shorter |
| `Commit.Service.AppendEvent` | internal/event/event.go:53-81 | numbers events without gaps; a failed append uses up no number |
| `Commit.Service.PersistSnapshot` | internal/supervisor/runtime.go:2355-2391 | state.json is written first, then run, tasks, waves, status and summary in order; when one fails, exactly those before it are new |
| `Commit.RunFilesHold` | internal/supervisor/runtime.go:2359-2391 | a whole projection leaves the run, status and summary files of that snapshot |
| `Commit.TaskFilesHold` | internal/supervisor/runtime.go:2370-2378 | and the file of every task, by the last task of its id |
| `Commit.WaveFilesHold` | internal/supervisor/runtime.go:2379-2387 | and of every wave |
| `Commit.Service.Commit` | internal/supervisor/commit.go:61-123 | event, then snapshot, then memory; any failure closes the supervisor and leaves memory alone |
| `Commit.CommitIsItsSteps` | internal/supervisor/commit.go:101-120 | a whole commit is the machine's append step and persist step |
| `Commit.NextKeepsInv` | internal/supervisor/commit.go:61-123 | each step of commits, telemetry, saves, crashes and recoveries keeps log and checkpoints in order |
| `Commit.CheckpointsNeverAhead` | internal/supervisor/state_commit.go:298-315 | at every crash point of every interleaving: contiguous numbers, memory checkpoint no later than disk's, disk's no later than the log, at most one commit event past it |
| `Commit.FailureCloses` | internal/supervisor/commit.go:61-123 | a failed append, of a commit or of telemetry, and a failed snapshot close the supervisor, and no later commit begins |
| `Commit.RecoveryRestarts` | internal/supervisor/runtime.go:552-575 | in every run, a restart behind a crash brings the supervisor back with the replayed snapshot in memory and on disk, or leaves everything as it was if an event does not reduce |
| `Commit.RecoveryNeverSeesGap` | internal/supervisor/runtime.go:552-575 | recovery never meets "ahead of event log" or a gap; if it fails, an event's payload does not reduce |
| `Commit.RunStatusMutation` | internal/supervisor/state_commit.go:75-99 | the committed run status is the one the reducer would produce at that time |
| `Commit.RunStatusSurvivesCrash` | internal/supervisor/state_commit.go:75-99 | cut off after its event, setRunStatus is completed by replay exactly when the recorded old status is the checkpoint's or that is empty |
| `Commit.TaskTransitionSurvivesCrash` | internal/supervisor/state_commit.go:145-189 | likewise for transitionTask, exactly when the recorded old status is the task's |
| `Commit.FinishSurvivesCrash` | internal/supervisor/execute_task.go:833-850 | likewise for finishAttempt, always |
| `Commit.InterruptedCommitIsCompleted` | internal/supervisor/commit.go:101-120 | when the reducer gives a commit's event the effect its mutation had, a crash between event and snapshot is repaired: replaying the whole log onto the old checkpoint installs what the commit would have |
| `Commit.RunsAreSettled` | internal/supervisor/commit.go:61-123 | in every run with inert telemetry, between commits disk and memory agree and only inert events lie behind their checkpoint, which is what the next three ask for |
| `Commit.InterruptedRunStatus` | internal/supervisor/state_commit.go:75-99 | that is so for setRunStatus with the status it read |
| `Commit.InterruptedTransition` | internal/supervisor/state_commit.go:145-189 | and for transitionTask |
| `Commit.InterruptedFinish` | internal/supervisor/execute_task.go:833-850 | and for finishAttempt |
| `Completion.CompletedIff` | internal/supervisor/runtime.go:552-575 | for every kind of event: a commit cut off behind its event is completed by recovery exactly when the reducer gives the event the effect of the mutation |
| `Completion.InterruptedWaveStatus` | internal/supervisor/state_commit.go:101-142 | for setWaveStatus recovery installs the status the commit would have, in the current wave and in the list, but neither start nor end time; completed exactly when there was none to set and a reason comes with a failure |
| `Completion.InterruptedSelection` | internal/supervisor/runtime.go:1961-1975 | a cut-off selection of a listed wave is completed exactly when the wave was selected already, of an unlisted one exactly when there is a current wave |
| `Completion.InterruptedStart` | internal/supervisor/execute_task.go:106-137 | recovery opens the attempt the commit would have, dated by the worker's start, and keeps the last progress; completed exactly when those agree |
| `Completion.InterruptedSave` | internal/supervisor/state_commit.go:193-230 | completed exactly when no pending decision had to keep the task blocked and the saved scope is the snapshot's or shorter |
| `Completion.InterruptedHeartbeat` | internal/supervisor/runtime.go:2445-2484 | both kinds of heartbeat are always completed |
| `Completion.InterruptedOrphan` | internal/supervisor/runtime.go:1026-1055 | process state and evidence of an unconfirmed cancellation are restored, the run's last error is not |
| `Completion.InterruptedSpawn` | internal/supervisor/execute_task.go:260-288 | a cut-off spawn leaves an alive worker without the session and identity it was given; completed exactly when it had them |
| `Completion.InterruptedExit` | internal/supervisor/execute_task.go:744-785 | a cut-off exit keeps process state and evidence and loses the worker's end and exit code |
| `Paths.CleanIdempotent` | internal/scope/scope.go:46-57 | cleaning a path twice is cleaning it once |
| `Paths.NormalizedShape` | internal/scope/scope.go:37-51 | a normalised pattern is a clean, relative, backslash-free path of real segments that matching leaves as it is |
| `Paths.RenormalizeExactly` | internal/scope/scope.go:37-51 | normalising again changes nothing exactly when the result has no outer white space and no drive prefix |
| `Paths.RenormalizesBySegments` | internal/scope/scope.go:37-51 | a normal form normalises again exactly when its first segment, trimmed on the left, is neither empty nor "..", no drive comes to the front, and at least one segment is left once the last one is trimmed on the right |
| `Paths.RenormalizeCanFail` | internal/scope/scope.go:37-51 | an accepted pattern whose normal form is refused |
| `Glob.GlobRegex` | internal/scope/scope.go:161-193 | the loop emits the expression the theorems are about |
| `Glob.EmittedRegexCompiles` | internal/scope/scope.go:161-193 | every emitted expression parses, to one item per glob token |
| `Glob.RegexMatchIsGlobMatch` | internal/scope/scope.go:161-193 | what the emitted expression accepts is the token-by-token reading of the glob |
| `Glob.GlobReadsBySegments` | internal/scope/scope.go:161-193 | on clean relative paths without newlines, with `**` only as a whole segment, it is the segment-by-segment reading: `**/` takes any number of segments, a final `**` at least one, `*` and `?` never cross a slash |
| `Glob.LiteralGlob` | internal/scope/scope.go:161-193 | a glob without wildcards matches itself only |
| `Scope.StaticPrefix` | internal/scope/scope.go:149-159 | the longest run of leading segments without a wildcard |
| `Scope.CompileIffNormalize` | internal/scope/scope.go:19-35 | a pattern compiles exactly when it normalises |
| `Scope.Match` | internal/scope/scope.go:59-65 | fails exactly on patterns that do not compile |
| `Scope.MayOverlapSymmetric` | internal/scope/scope.go:67-97 | the overlap test does not depend on the order of its arguments |
| `Scope.NoFalseNegatives` | internal/scope/scope.go:67-97 | on any path matched by both patterns the test answers true, for every pair that compiles |
| `Scope.LiteralOverlapExact` | internal/scope/scope.go:75-85 | with one pattern free of wildcards the test is exact |
| `Scope.WildcardOverlapExact` | internal/scope/scope.go:75-97 | with wildcards in both the test answers true exactly when some path lies below the static segments of both |
| `Scope.DirectoriesApart` | internal/scope/scope.go:67-97 | leases under two directories, neither inside the other, are apart whatever wildcards they use |
| `Scope.FindOverlaps` | internal/scope/scope.go:106-129 | finds nothing without error exactly when all owners' patterns are apart, and reports only real overlaps |
| `Scope.CoveringOwners` | internal/scope/scope.go:131-147 | the sorted set of owners with a matching pattern |
| `Scope.ApartOwnersNeverShare` | internal/scope/scope.go:106-147 | owners whose patterns are apart never cover the same file |
| `Preflight.ValidateContract` | internal/task/contract.go:12-48 | reports a problem exactly when the contract does not hold |
| `Preflight.CollectTasks` | internal/wave/preflight.go:100-116 | the ids, the scopes with later tasks replacing earlier ones, and contract, duplicate and nested findings exactly when they apply |
| `Preflight.CheckParallelResponsibilities` | internal/wave/preflight.go:235-287 | a missing-duty finding exactly when some task has no duty towards another of the wave, an invalid-duty finding exactly when a declared duty is a placeholder, towards the task itself or towards an outsider |
| `Preflight.ReadConflicts` | internal/wave/preflight.go:132-148 | no finding exactly when no read dependency may overlap another task's writes |
| `Preflight.OwnersPotentiallyClaiming` | internal/wave/preflight.go:417-430 | the sorted set of owners that may claim a file |
| `Preflight.HighRiskIssues` | internal/wave/preflight.go:161-166 | no finding exactly when no high-risk file may have two claimants |
| `Preflight.Preflight` | internal/wave/preflight.go:99-167 | admits exactly the admissible waves, and its findings are of exactly the kinds that apply |
| `ScopeExpansion.CheckRequested` | internal/supervisor/messages.go:1198-1219 | passes exactly when every requested pattern compiles and is apart from the forbidden scope |
| `ScopeExpansion.FindTaskIndex` | internal/supervisor/state_commit.go:16-23 | the first task of the id, or none |
| `ScopeExpansion.SameWaveIsWave` | internal/supervisor/messages.go:1233-1242 | the list that was re-checked is the wave itself |
| `ScopeExpansion.Service.ApproveScope` | internal/supervisor/messages.go:1167-1259 | succeeds exactly on approvable requests unless a file cannot be written, and changes state only on success |
| `ScopeExpansion.GrantKeepsAdmitted` | internal/supervisor/messages.go:1191-1258 | a grant keeps every wave admitted |
| `ScopeExpansion.RunKeepsAdmitted` | internal/supervisor/messages.go:1191-1258 | so does any sequence of grants and refusals |
| `ScopeExpansion.RetryChangesNothing` | internal/supervisor/messages.go:1203-1223 | granting the same request again succeeds and changes nothing |
| `ScopeExpansion.GrantOnlyWidens` | internal/supervisor/messages.go:1227-1232 | a grant lengthens one lease, by patterns that passed the forbidden-scope check |
| `ScopeExpansion.GrantedNeverForbidden` | internal/supervisor/messages.go:1211-1216 | no file matched by a granted pattern is matched by a forbidden one |
| `Audit.NormalizeAuditPolicy` | internal/verify/audit.go:35-51 | the sorted distinct normal forms, refused exactly when a pattern does not compile |
| `Audit.MatchingEphemeralPattern` | internal/verify/audit.go:113-126 | the most specific matching pattern, or none |
| `Audit.AuditScopes` | internal/verify/audit.go:76-111 | lists exactly the files of each class in order with complete owners; with compiling leases it succeeds exactly when every pattern of the policy is usable in that sense |
| `Audit.FrozenPolicyCanFail` | internal/verify/audit.go:76-90 | a policy one pass accepts and the next refuses |
| `Audit.PatternUsableIff` | internal/verify/audit.go:76-90 | a pattern passes both passes exactly when it normalises and the outer segments of its normal form meet that condition |
| `Audit.EachFileInOneClass` | internal/verify/audit.go:91-111 | each distinct non-empty file is in exactly one class, once, and nothing else is in any |
| `Audit.ApartLeavesNoUncertain` | internal/verify/audit.go:98-108 | with leases apart the owner-uncertain class is empty |
| `Audit.AuditAfterRun` | internal/supervisor/barrier_collect.go:51-66 | from a wave that passed preflight, through any scope decisions, any changed-file list is audited with nothing owner-uncertain |
| `Plan.ValidatePlan` | internal/run/plan.go:47-92 | accepts exactly the plans with distinct non-blank wave ids, globally distinct task ids, non-empty admissible waves and dependencies in earlier waves only |
| `Plan.DependencyIsEarlier` | internal/run/plan.go:77-90 | a dependency lies in a strictly earlier wave |
| `Plan.PlanIsAcyclic` | internal/run/plan.go:77-90 | no chain of dependencies leads back to its start |
| `WaveLoop.RejectionKeepsOrderIff` | internal/supervisor/runtime.go:1648-1702 | a rejection that commits leaves every wave the executor has passed complete exactly when it is for none of them |
| `WaveLoop.StartsInOrder` | internal/supervisor/runtime.go:1055-1183 | over any number of entries a wave starts only when all earlier ones are verified or accepted, if no rejection commits for a wave the executor has passed on that entry |
| `WaveLoop.StartsAfterDependencies` | internal/supervisor/runtime.go:1063-1075 | with an accepted plan no wave starts before the waves of its dependencies are complete |
| `WaveLoop.FinalMeansDone` | internal/supervisor/runtime.go:1063-1075 | under the same condition final verification is entered only with every wave verified or accepted |
| `WaveLoop.RecheckMeansSettled` | internal/supervisor/runtime.go:1173-1181 | with no condition, a run goes on to complete only if a last look finds every wave verified and its warnings accepted |
| `WaveLoop.CompletedMeansSettled` | internal/supervisor/runtime.go:1173-1182 | under the condition, that is still so when the run is recorded as completed |
| `WaveLoop.EveryPlanCanComplete` | internal/supervisor/runtime.go:1055-1183 | for every number of waves and every choice of those that pass with warnings, when these and the final ones are accepted there is a run that starts the waves in order, each once, and completes with all of them settled |
| `WaveLoop.BadVerdictEndsRun` | internal/supervisor/runtime.go:1120-1160 | a verdict of failed, cancelled or none ends the run with the wave failed or cancelled, and no later steps start anything unless the terminal status is lost in a crash |
| `WaveLoop.HeldWaveIsTakenUpAgain` | internal/supervisor/runtime.go:1055-1160 | a blocked or warned wave leaves the executor outside, and the next entry comes back to it |
| `WaveLoop.PassedOverIff` | internal/supervisor/runtime.go:1063-1075 | the executor goes past a wave exactly when it is verified or its warnings are accepted |
| `WaveLoop.DecisionNeedsWarning` | internal/supervisor/runtime.go:1584-1702 | accepting and rejecting get past their check exactly for a wave that waits with warnings nobody has accepted |
| `WaveLoop.FinalWarningsAreSeenAgain` | internal/supervisor/runtime.go:1152-1172 | final warnings wait outside and are looked at again on the next entry |
| `WaveLoop.UnsettledEndsRun` | internal/supervisor/runtime.go:1152-1181 | a failed final verification or an unsettled wave at the last look ends the run without completing it |
| `WaveLoop.CancelEndsRun` | internal/supervisor/runtime.go:1055-1120 | cancelling ends a run inside its loop with the current wave cancelled, and nothing starts any more |
| `WaveLoop.LateRejectionBreaksOrder` | internal/supervisor/runtime.go:1648-1702 | a rejection for a passed wave, with the executor at or in front of another that is not complete, starts that one behind a failed wave |
| `WaveLoop.LateRejectionReachable` | internal/supervisor/runtime.go:1584-1702 | a whole run from the start of a plan of two waves in which the second starts behind a failed first |
| `Barrier.AssessReports` | internal/wave/evaluator.go:83-131 | collects every report's errors and warnings and whether one blocks |
| `Barrier.EvaluateBarrier` | internal/wave/evaluator.go:65-192 | sorted distinct lists of all errors, warnings and pending ids, and the highest verdict that applies |
| `Barrier.BarrierIsMonotone` | internal/wave/evaluator.go:65-192 | adding any input never moves the verdict down |
| `Barrier.OrderDoesNotMatter` | internal/wave/evaluator.go:168-212 | verdict and the three lists do not depend on the order of the inputs |
| `Barrier.PassedIffSpotless` | internal/wave/evaluator.go:178-191 | passed exactly when every report is present, valid, identified and of a task that ended well, every check passed, and nothing is pending, unauthorised, uncertain, ephemeral or high-risk |
| `Barrier.VerdictIff` | internal/wave/evaluator.go:178-191 | all five verdicts from the inputs: cancelled exactly for a cancelled wave; else failed exactly for a given error, a faulty report, an unauthorised file, an error-grade risk or a failed check; else blocked exactly for a pending decision or a blocked report; else warnings unless spotless |
| `Barrier.ErrorsAreTrueNotes` | internal/wave/evaluator.go:83-176 | the error list holds the given errors, the reports' own, and the wording of exactly the errors that are true of the inputs |
| `Barrier.WarningsAreTrueNotes` | internal/wave/evaluator.go:83-176 | likewise the warnings |
| `Termination.ExitedIff` | internal/process/controller.go:234-268 | an inspection says gone exactly for a missing root with no members or no listing, or the same root with no members, reused exactly for a root of another identity, and present exactly with the members listed for a missing or the same root, all under a live context |
| `Termination.Controller.Inspect` | internal/process/controller.go:234-268 | one inspection: the finding is what the manager's answers at that moment amount to |
| `Termination.Controller.WaitTreeGone` | internal/process/controller.go:152-206 | only looks, and returns what its last look found; an error is the inspection's or the context's; giving up without one takes all the rounds before the deadline |
| `Termination.Controller.WaitStage` | internal/process/controller.go:208-232 | likewise, with one more look behind a passed deadline; it fails only on an unclear look or a cancelled context |
| `Termination.Controller.TerminateTree` | internal/process/controller.go:48-148 | for every behaviour of the manager: tree exited is reported only if the last thing done was a look on which the manager's answers meant gone or another process, and never with orphan risk; that is reported only after all three signals, with the processes last seen; interrupt, term, kill in order, each directly behind a look that found the tree standing or unclear; a signal is reported sent exactly when it went out |
| `Recovery.SecondAttemptNeedsExit` | internal/supervisor/execute_task.go:24-52 | behind an earlier attempt only a resumption is opened, and only from an exited process |
| `Recovery.SecondAttemptIsBacked` | internal/supervisor/execute_task.go:24-52 | over whole lives, a second attempt starts only from an exited state backed by such an inspection or a typed not-found |
| `Recovery.SessionEndIsTold` | internal/supervisor/execute_task.go:634-714 | the end of a session: survivors give orphaned, a confirmed tree exited, anything else unknown, in the task and its worker |
| `Recovery.OpensIff` | internal/supervisor/execute_task.go:24-98 | an attempt is opened exactly when the task has not ended, its process is neither orphaned nor unknown, the seed is the task's, and either nothing was attempted before or nothing runs, the process has exited and the worker has a session |
| `Recovery.RecoveryByProbe` | internal/supervisor/recovery.go:77-345 | for a task with a recorded, complete identity, by what inspecting found: the same process gives orphaned and keeps the status; another gives unknown, ends the attempt as reused and fails the task where its status allows; none gives exited and fails it exactly without a session or a resuming harness; an error gives unknown and keeps the status; and which worker record is left |
| `Recovery.RecoveryWithoutIdentity` | internal/supervisor/recovery.go:71-76 | without a complete identity the process is unknown, the attempt ends as orphaned and the status is kept |
| `Recovery.RecoveryWithoutWorker` | internal/supervisor/recovery.go:48-70 | without any record of a worker the task fails, unless it is planned with no sign of a start; one that has ended is left as it is |
| `Text.UniqueSorted` | internal/verify/audit.go:128-143 | the distinct non-empty values in strictly ascending order |

## Left out

- Command-line front end, IPC, rendering of Markdown and summaries: they keep no state that the parts modelled here would have to agree with.
- Adapters for the single harnesses, sockets, leases on the supervisor process and operating-system calls: they are the arbitrary environment of the models.
- JSON encoding: payloads are values; a raw resolution is a value with a spelling, so white space and unknown fields stay distinguishable but are not parsed.
- regexp: expressions are a small syntax tree with a parser for what the glob compiler emits; characters are code points, and invalid UTF-8 is not modelled.
- Time is an integer that does not run backwards; the reducer's use of the wall clock for events without a timestamp does not arise because the event store always stamps events.
- Concurrent starts of the same task by the resume path: attempt histories are claimed for starts that follow one another.
- Run status as a state machine: setRunStatus has no table, so nothing is claimed about terminal run states being final.
- Harness probes of the environment preflight: they add findings but do not bear on the static verdict.
- Workspace walking and failure evidence files: the changed-file list is an input.
- Decisions, WaveLoop and the interleaved parts of Router and Commit are values changed by step functions rather than objects, because their theorems are about interleavings of several callers.
- Mutations whose events the reducer treats as inert (barrier results, acceptance of warnings, waiting recomputation, scope expansion) or takes for less than they did (statuses from a result envelope, which also set a block kind and an error): no claim about a crash right after their event.
- Completion.InterruptedExit: the run's last error, which the commit sets for an unconfirmed exit, is not part of it; Completion.InterruptedOrphan shows that replay does not restore it.
- Barrier.EvaluateBarrier: the wording of the lines is a parameter, and the copies of reports and high-risk changes it sorts for display are not modelled.
- Preflight.Preflight: the findings are not sorted for display and carry no detail text; which tasks a finding names is not stated.
- Attempts.ResumeTakesLatestSession: is about lives in which an update between attempts sets no session other than the latest one, because it changes the task's worker without the history.
- Decisions.NoLostWakeup: is about runs in which no commit of a terminal projection fails, because exactly those steps lose a wake-up (Decisions.WakeupLostIff).
- WaveLoop.StartsInOrder: assumes that no rejection commits for a wave the executor has passed on that entry, because otherwise it is false (WaveLoop.RejectionKeepsOrderIff).
- Jsonl.JournalFile.Append: a record that is complete but not synced is on disk although the append failed; the router and commit models take a failed append as leaving no complete record.
- The validation, decoding and comparison of resolutions are short tables in the source; the lemmas that read them back (`ValidAnswers`, `ValidDecisions`, `LegacyAcceptedIff`, `EqualIffSameMeaning`) are helpers without a row, and so are those on single characters (`SpaceLaw`, `LowerCases`, `ByteLengthLaw`).
- Commit: loading a run also turns single workers into attempt histories after the replay; the recovery step leaves that out, because it touches no checkpoint.
- WaveLoop: commits of wave and run states do not fail, because a failure stops the executor before any further start.
