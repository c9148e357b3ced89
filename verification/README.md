# Lya: a verified model of its jobs and of the protocols around them

Lya drives a coding job autonomously: a supervisor model reviews the repository, an executor model changes it, and an
accepted change is published through Git. A job may be paused, stopped, instructed, killed at any moment and resumed
by another process. This project models that machinery in Dafny and proves what it keeps. `dafny verify dfyconfig.toml`
checks everything.

## The job

A job's life is a *history*: the sequence of everything it makes visible. An action is a durable write of `state.json`
(with the reason it is made), a provider call and its answer, a Git capture, an event written or refused, a command
handled, a safe point that found the flags up or down, or the start of another process. `Protocol` says which action
is permitted after which history. It is a write-ahead protocol: what a step owes is recorded before the step is taken,
what it achieved before anything can interrupt it, and the events that belong to a write follow it before anything
else may happen. A crash may fall after any action; what survives it is the record and the history.

* `Orchestrator.dfy` is `AutonomousOrchestrator`, step by step, with its loops, early returns and error paths. Every
  save, call, capture and event goes through `World`, whose methods demand that the action is permitted, so verifying
  the orchestrator shows that each of its runs follows the protocol. The world answers arbitrarily: a save may fail, a
  sink may refuse an event, a provider or a publisher may say anything.
* `Recovery.dfy` closes the loop: a first process, then any number of deaths at any action and of resumptions, with any
  commands, still produces only lawful histories.
* `Persisted`, `Accounting`, `Provenance`, `Instructions`, `Processes` and `Announcements` prove, for every lawful
  history and therefore for every life of a job, what the records, runs, snapshots, sessions, instructions and events
  satisfy. `Chain.dfy` does the same for sequences of jobs.
* `LateInstructions`, `StaleInstructions`, `LostSession` and `RewrittenOutcome` are concrete lawful histories, built on
  the common first steps in `Scenarios`, in which something one would expect does not hold.

## Around the job

* `Control.dfy`: senders that raise a flag and enqueue a command in two steps, against the job's safe point.
* `Cancellation.dfy`: a flag and a `Notify`, with any number of cancellers and waiters.
* `EventLog.dfy`: the event log as a file whose appends can end in six ways, and when it and the broadcast agree.
  `LogBytes.dfy` derives from the bytes when such a file can be read at all.
* `Attach.dfy` and `Replay.dfy`: a viewer that subscribes, reads the event log and follows the broadcast through a
  bounded duplicate guard, while the daemon keeps appending and broadcasting.
* `Framing.dfy` and `Utf8.dfy`: one message per line over a stream that arrives in arbitrary chunks.
* `QwenToolCalls.dfy` and `Agent.dfy`: textual tool calls, and the transcript of the agent loop.

## Where the code does not do what one would expect

* **An instruction can miss an executor run.** `docs/autonomous-jobs.md:189-194` promises applied instructions in the
  relevant review and executor prompts. The executor request is built (`src/orchestrator/job.rs:571-580`) before the
  last safe point (`src/orchestrator/job.rs:581`), so an instruction accepted there is announced as applied and is
  absent from that run: `LateInstructions.LateInstructionMissesTheRun`.
* **An instruction can wait through any number of model turns.** The same passage promises that a queued instruction is
  applied at the next safe model turn. Only handling a command applies waiting instructions
  (`src/orchestrator/job.rs:991`). If a process dies between queuing an instruction and applying it, its successor
  sends every review and run without it until some command arrives (`StaleInstructions.StaleInstructionMissesTheReview`),
  and a `/send` that is refused does not help, since it returns early (`src/orchestrator/job.rs:946-955`;
  `StaleInstructions.RefusedSendAppliesNothing`). `Instructions.ReviewIsToldEverything` and
  `Instructions.RunIsToldWhatWasAccepted` say exactly when a provider is told everything, and
  `Instructions.CaughtUpSince` what a process must have met or done for it.
* **Not every resumable record can be continued.** If no run has ever returned a session and a correction was directed,
  the job is parked for a human (`LostSession.CorrectionWithoutSessionIsParked`). `Persisted.ResumableRecordsContinue`
  shows that this is the only case.
* **A long overlap is shown late, not only twice.** If more than 500 events fall between a viewer's subscription and
  its log read, those before the replayed tail are shown once but out of order, and the guard's 256 places mean that
  `min(overlap, 500) - 256` events are shown twice (`Replay.ShownTimes`, and 600 events in
  `Replay.LongOverlapIsShownLate`).
* **A terminal record can be rewritten.** A terminal status is meant never to be rewritten
  (`src/orchestrator/job.rs:313-316`). Resuming such a job first announces it, and an event the sink refuses turns any
  record into FAILED (`src/orchestrator/job.rs:1081-1087`): `RewrittenOutcome.RefusedEventRewritesAnOutcome`.
  `Processes.OutcomeIsFinal` shows that nothing else can, and `Announcements.RefusedEventFailsTheJob` that FAILED is then
  the next thing to be written.
* **The log and what is broadcast can part.** An append never looks at how the log ends, and one that fails has written
  all, some or nothing of its line (`src/orchestrator/events.rs:270-279`).
  * An event appended to a torn line is broadcast and cannot be read back (`EventLogs.TornLineSwallowsTheNextEvent`).
  * One whose line was written but not synced is logged and never broadcast, and a job survives that when it is the
    publisher that reported it (`src/orchestrator/job.rs:1278-1300`; `EventLogs.UnsyncedEventIsNeverBroadcast`).
  * One that lacks only its newline can be read until the next append destroys both
    (`EventLogs.UnterminatedEventVanishes`).
  * A write or a process that stops inside a character of more than one byte makes the file something other than UTF-8,
    and the reader takes the whole file or nothing (`src/daemon/attach.rs:179`): no event of that job is ever replayed
    again (`EventLogs.CutCharacterHidesTheHistory`), although `docs/daemon.md:214-216` promises that a line cut off by a
    crash is skipped. `LogBytes.DecodesAsBytes` shows that this happens exactly then.

  `EventLogs.InStepThroughout` gives the exact condition on the file and on how each append ended; what a viewer is
  shown is stated for a log that meets it.

## Model

| member | source | states |
|---|---|---|
| JobStates.InstructionBudgetRefusal | src/orchestrator/job.rs:1177-1190 | an instruction is refused exactly when, with it, the active ones would exceed 16 in number or 8 KiB in bytes |
| Protocol.Append | src/orchestrator/job.rs:886-890 | a lawful history followed by a permitted action is lawful, and the monitor moves by that action alone |
| Protocol.PrefixLawful | src/orchestrator/job.rs:614-617 | a process may die after any action: every prefix of a lawful history is lawful |
| Protocol.SameJob | src/orchestrator/job.rs:248-257 | once there is a record it stays, and it is always that job's, with the chain position of its first write |
| Persisted.WriteSound | src/orchestrator/job.rs:412-428 | each kind of write keeps every persisted-state invariant, and the work in progress agrees with what is owed |
| Persisted.CarriedWriteSound | src/orchestrator/job.rs:957-1001 | writes that keep the pending operation keep the invariants and both instruction budgets |
| Persisted.HistorySound | src/orchestrator/job.rs:285-397 | the invariants hold after every lawful history, crashes and resumptions included |
| Persisted.EverySavedRecord | src/orchestrator/job.rs:684-688 | every record ever saved: an owed publication has its phase, ACCEPT decision and snapshot, an owed run its Claude decision, an owed review an iteration; PUBLISHING owes publication; ACCEPTED and PUBLISHED owe nothing; a quota status names exactly the owed operation; the iteration limit and budgets hold |
| Persisted.ResumableRecordsContinue | src/orchestrator/resume.rs:40-149 | a resumable record left by the code is continued, as its pending operation says, unless it owes a correction and no run has ever returned a session; then, and only then, it is refused, and for that reason |
| Persisted.GuardsNeverFire | src/orchestrator/job.rs:549-680 | the guards for a missing Claude decision, accepted snapshot or ACCEPT decision never fire: a job parks itself only while booting or after its publisher gave up, and no record misses a piece |
| LostSession.CorrectionWithoutSessionIsParked | src/orchestrator/resume.rs:73-100 | a lawful history whose record is resumable by its status and refused by the plan, for want of a session |
| Accounting.RunsMatchIterations | src/orchestrator/job.rs:412-428 | in every record, whatever its status, one run fewer was recorded than iterations were counted while an operation is owed; in a resumable one that owes nothing the two are equal, and an accepted or published job ended in an iteration without a run; never more than the limit |
| Accounting.NthRunIsNthIteration | src/orchestrator/job.rs:614-635 | the n-th run ever recorded is that of iteration n: a recorded execution is never replayed |
| Accounting.ReviewsPerProcess | src/orchestrator/job.rs:407-428 | one process requests at most as many reviews as iterations it had left, plus one if it took over a counted, unanswered review |
| Provenance.PublishedSnapshotWasAccepted | src/orchestrator/job.rs:661-722 | every publish or recover call carries the snapshot and title of the latest review, which answered ACCEPT, and that snapshot is the last one recorded |
| Provenance.SessionContinuity | src/orchestrator/job.rs:554-570 | once a report is recorded no run starts a new session; every run resumes the latest non-blank session ever recorded |
| Provenance.HistoryProgress | src/orchestrator/job.rs:1294-1306 | a recorded publication stage or commit is never cleared again |
| Provenance.RecoveredExactlyWhenBegun | src/orchestrator/job.rs:696-722 | a publication is entered through recover exactly when some earlier record of it carried a stage or a commit |
| Instructions.InstructionsConserved | src/orchestrator/job.rs:946-1001 | in every saved record, applied followed by pending is exactly the accepted instructions in order, within both budgets |
| Instructions.CaughtUpSince | src/orchestrator/job.rs:946-991 | a process has had every waiting instruction applied exactly when it started the job, took over a record without any, or has handled a command that was not a refused `/send` |
| Instructions.ReviewIsToldEverything | src/orchestrator/job.rs:430-440 | a review carries all instructions accepted so far, in order, if and only if its process has caught up, which is the same as none waiting in the record |
| Instructions.StillPrepared | src/orchestrator/job.rs:571-595 | the request sent is the one built before the safe point |
| Instructions.RunIsToldWhatWasAccepted | src/orchestrator/job.rs:571-595 | a run carries a prefix of what was accepted when its request was built; by the time it is sent that is everything accepted if and only if its process had caught up and nothing was accepted at the safe point in between |
| LateInstructions.LateInstructionMissesTheRun | src/orchestrator/job.rs:571-583 | a lawful history in which an accepted, applied and announced instruction is missing from the run that follows |
| StaleInstructions.StaleInstructionMissesTheReview | src/orchestrator/job.rs:957-1002 | a lawful history in which a process dies after queuing an instruction and its successor, given no command, asks for a review without it |
| StaleInstructions.RefusedSendAppliesNothing | src/orchestrator/job.rs:946-955 | the same with a refused `/send` handled before the review |
| Processes.StopIsFinal | src/orchestrator/job.rs:896-899 | after a safe point saw the stop flag the process starts no call or publication and writes only STOPPED or FAILED |
| Processes.OutcomeIsFinal | src/orchestrator/job.rs:310-328 | a decided outcome is never undone: nothing starts any more, in this process or a later one, and an outcome other than FAILED is overwritten by FAILED alone, right after an event was refused |
| RewrittenOutcome.RefusedEventRewritesAnOutcome | src/orchestrator/job.rs:300-328 | a lawful history in which an accepted job is resumed, the announcement is refused, and the record becomes FAILED |
| Processes.SavedMeansStartedClean | src/orchestrator/job.rs:218-257 | a job that has a record got its first one from the latest capture, which was clean |
| Processes.RealityIsComparedFirst | src/orchestrator/job.rs:283-284 | a resumed process calls nobody and publishes nothing before it proved the record continuable and, unless publishing, the repository unchanged |
| Announcements.NothingOvertakesAnEvent | src/orchestrator/job.rs:1069-1089 | while a write or command still owes events, the next thing to happen is the next of them, its refusal, or the end of the process |
| Announcements.TakenInstructionIsQueuedNext | src/orchestrator/job.rs:957-960 | an accepted instruction is durable before anything else happens |
| Announcements.RefusedEventFailsTheJob | src/orchestrator/job.rs:1081-1087 | after a refused event only FAILED can be written |
| Worlds.World.Acquire | src/orchestrator/job.rs:873-880 | nothing can be saved for a job before its own lock is held |
| Worlds.World.Boot | src/orchestrator/job.rs:285-297 | a later process knows the stored record and nothing else |
| Worlds.World.Save | src/orchestrator/job.rs:886-890 | a save stores the whole record or leaves the old one, and is only made when the protocol permits it |
| Worlds.World.Emit | src/orchestrator/job.rs:1069-1089 | an event is written or refused, and only when it is due or reports what has happened |
| Worlds.World.Decide | src/orchestrator/job.rs:447-448 | a review is requested only as recorded and announced; its answer is an arbitrary well-formed decision or an error |
| Worlds.World.Answer | src/orchestrator/supervisor.rs:201-249 | a decision has its required texts, none of them blank |
| Worlds.World.Execute | src/orchestrator/job.rs:594-595 | a run is requested only as prepared, passed and announced; its result is arbitrary |
| Worlds.ControlReceiver.Drain | src/orchestrator/control.rs:142-149 | takes everything queued by now, in order |
| Worlds.ControlReceiver.Take | src/orchestrator/control.rs:151-153 | takes the next command, or nothing once no more can come |
| Orchestration.AutonomousOrchestrator.Persist | src/orchestrator/job.rs:886-890 | a permitted write is stored, or the failure is reported as a store failure and nothing changed |
| Orchestration.AutonomousOrchestrator.Emit | src/orchestrator/job.rs:1069-1089 | an event that cannot be written leaves the record FAILED unless the store fails too |
| Orchestration.AutonomousOrchestrator.Fail | src/orchestrator/job.rs:1107-1112 | the record says FAILED before the failure event is written |
| Orchestration.AutonomousOrchestrator.ApplyQueuedInstructions | src/orchestrator/job.rs:993-1002 | the waiting instructions become applied, in order, and nothing else changes |
| Orchestration.AutonomousOrchestrator.ReceiveInstruction | src/orchestrator/job.rs:946-960 | an instruction over budget changes nothing but is reported; any other is queued durably |
| Orchestration.AutonomousOrchestrator.PerformCommand | src/orchestrator/job.rs:933-989 | each command's own effect and events, before waiting instructions are applied |
| Orchestration.AutonomousOrchestrator.HandleControlCommand | src/orchestrator/job.rs:933-991 | a refused instruction changes nothing; after any other command none is waiting and the active ones grew by exactly what was accepted |
| Orchestration.AutonomousOrchestrator.CaptureLast | src/orchestrator/job.rs:1008-1019 | a stopping job keeps the repository state if it can be captured, and its old one otherwise |
| Orchestration.AutonomousOrchestrator.Stop | src/orchestrator/job.rs:1004-1041 | the record says STOPPED with everything else kept, and the log ends with it |
| Orchestration.AutonomousOrchestrator.LeavePausedForALaterProcess | src/orchestrator/job.rs:1045-1067 | without input left a paused job stays PAUSED and resumable |
| Orchestration.AutonomousOrchestrator.HandleQueuedCommands | src/orchestrator/job.rs:893-895 | every drained command is handled, in order, and nothing else about the job changes |
| Orchestration.AutonomousOrchestrator.SafePoint | src/orchestrator/job.rs:892-931 | goes on only with both flags read as down, and ends only as STOPPED under the stop flag or PAUSED when no input is left; everything queued on entry is handled, in order, and the job is otherwise the same |
| Orchestration.AutonomousOrchestrator.PauseHere | src/orchestrator/job.rs:904-912 | PAUSED is durable and announced before the job waits |
| Orchestration.AutonomousOrchestrator.AwaitResumption | src/orchestrator/job.rs:913-930 | ends for every finite input: resumed, stopped, or left paused at its end |
| Orchestration.AutonomousOrchestrator.PausedTurn | src/orchestrator/job.rs:918-929 | after each command the stop flag decides before the pause flag |
| Orchestration.AutonomousOrchestrator.Unpause | src/orchestrator/job.rs:923-929 | RUNNING is durable and announced before the job goes on |
| Orchestration.AutonomousOrchestrator.WaitForHuman | src/orchestrator/job.rs:1114-1136 | parks the job durably, for one of the reasons that allow it, and changes nothing but the status |
| Orchestration.AutonomousOrchestrator.WaitForQuota | src/orchestrator/job.rs:1138-1174 | the quota record names the provider, source and reason met and exactly the operation to retry |
| Orchestration.AutonomousOrchestrator.RecordStage | src/orchestrator/job.rs:1295-1300 | a reported stage is remembered and, unless that fails, durable and announced |
| Orchestration.AutonomousOrchestrator.RecordCommit | src/orchestrator/job.rs:1302-1306 | a reported commit is remembered and, unless that fails, durable |
| Orchestration.AutonomousOrchestrator.CallPublisher | src/orchestrator/job.rs:697-722 | whatever a publisher reports and answers, only the recorded stage and result may change |
| Orchestration.AutonomousOrchestrator.PublishJob | src/orchestrator/job.rs:661-722 | whatever the publisher reports and answers, the job ends PUBLISHED with nothing owed and a clean tree, stopped or paused by the flags, parked for a human, or FAILED |
| Orchestration.AutonomousOrchestrator.FinishPublication | src/orchestrator/job.rs:724-779 | a delivered publication ends stopped or paused by the flags, PUBLISHED with what was delivered, nothing owed and a clean tree, or FAILED |
| Orchestration.AutonomousOrchestrator.ClosePublication | src/orchestrator/job.rs:729-778 | PUBLISHED records the working tree captured after the commit, which was clean; a dirty or unreadable one fails the job |
| Orchestration.AutonomousOrchestrator.AbandonPublication | src/orchestrator/job.rs:781-793 | unless the flags end the job first, an ambiguous recovery is parked and any other failure is FAILED, with a rejected push's result kept |
| Orchestration.AutonomousOrchestrator.SuperviseTurn | src/orchestrator/job.rs:411-548 | a review is counted, if new, and recorded as owed before it is requested; the limit fails the job |
| Orchestration.AutonomousOrchestrator.AskSupervisor | src/orchestrator/job.rs:430-474 | asking, obeying the flags and following the answer ends concluded, FAILED, or at a stage that has what it needs, with the record changed by some decision and by instructions alone |
| Orchestration.AutonomousOrchestrator.ActOnReview | src/orchestrator/job.rs:449-547 | after a safe point the decision heard, and the snapshot reviewed, are what the record goes on with |
| Orchestration.AutonomousOrchestrator.ReviewFailed | src/orchestrator/job.rs:449-470 | an exhausted quota becomes a durable wait, any other failure FAILED |
| Orchestration.AutonomousOrchestrator.FollowDecision | src/orchestrator/job.rs:475-547 | each of the four decisions leads exactly where it should, ACCEPT depending on whether publishing is enabled; a decision that goes on changes the record by itself, its phase and what it owes alone |
| Orchestration.AutonomousOrchestrator.CloseJob | src/orchestrator/job.rs:494-546 | a decision that ends the job leaves nothing owed, in the record before the log |
| Orchestration.AutonomousOrchestrator.ExecuteTurn | src/orchestrator/job.rs:549-655 | a run needs a Claude decision and, after a report, a session; without them the job fails |
| Orchestration.AutonomousOrchestrator.CallExecutor | src/orchestrator/job.rs:581-613 | obeying the flags, running and recording ends concluded, FAILED, or at the next review with the record changed by some run and by instructions alone |
| Orchestration.AutonomousOrchestrator.RunFailed | src/orchestrator/job.rs:596-613 | after a safe point, an exhausted quota waits and any other failure fails |
| Orchestration.AutonomousOrchestrator.RecordRun | src/orchestrator/job.rs:614-635 | a finished run is recorded with its report, its session unless blank, and the repository captured after it, and nothing else changes but instructions |
| Orchestration.AutonomousOrchestrator.CaptureAfterRun | src/orchestrator/job.rs:637-655 | the next review starts from the repository captured after the run and recorded, past a safe point; a failed capture fails the job |
| Orchestration.AutonomousOrchestrator.Drive | src/orchestrator/job.rs:399-659 | ends for all finite input; on success the record is the returned job, its status an outcome and the log ends with it, on any error but a store failure the record says FAILED; the missing-decision error cannot occur |
| Orchestration.AutonomousOrchestrator.TakeTurn | src/orchestrator/job.rs:407-655 | each turn counts an iteration or moves to a lower stage |
| Orchestration.AutonomousOrchestrator.ValidateRequest | src/orchestrator/job.rs:186-213 | refuses exactly the unacceptable requests, each with the first reason that applies, in the order task, id, context, iterations, jobs |
| Orchestration.AutonomousOrchestrator.Inspect | src/orchestrator/job.rs:218-246 | a run starts exactly from a readable, clean tree; otherwise nothing is saved, whether or not the event can be written |
| Orchestration.AutonomousOrchestrator.Run | src/orchestrator/job.rs:215-281 | an invalid request changes nothing; anything saved was saved for a clean tree; ends concluded or FAILED, or with nothing saved |
| Orchestration.AutonomousOrchestrator.ResumeJob | src/orchestrator/job.rs:285-397 | continues from the record alone; a terminal record, an unreadable repository or an empty context changes nothing, an uncontinuable record is parked |
| Orchestration.AutonomousOrchestrator.ContinueFrom | src/orchestrator/job.rs:368-397 | a continuation the plan allows, from the repository just captured, ends concluded or FAILED |
| Recovery.DieAndResume | src/orchestrator/job.rs:285-297 | a process may die after any of its actions; its successor, from the record alone, only adds to the history |
| Recovery.LiveThrough | src/orchestrator/job.rs:215-659 | whole lives with any number of deaths: the history is lawful and every record in it satisfies the invariants |
| Chains.ChainPositions | src/orchestrator/job.rs:840-870 | the i-th job of a chain has the first one's position plus i and the chain's configuration |
| Chains.ChainWithinBudget | src/orchestrator/job.rs:820-823 | a chain, counted from its original start, never exceeds max_jobs, also when its first job was resumed |
| Chains.SequentialRunner.RunChild | src/orchestrator/job.rs:863-882 | a child is what its parent asked for, claimed under its own lock before anything is saved for it |
| Chains.SequentialRunner.ContinueSequentially | src/orchestrator/job.rs:829-884 | the jobs form a chain from the first; max_jobs_reached exactly when nobody stopped and the last job asks for a successor the budget forbids |
| Chains.SequentialRunner.RunSequential | src/orchestrator/job.rs:797-805 | refuses a zero budget, otherwise runs the chain of a new job |
| Chains.SequentialRunner.ResumeSequential | src/orchestrator/job.rs:808-827 | a resumed job keeps the chain position it was saved with |
| Control.NoLostWakeUp | src/orchestrator/job.rs:913-929 | a job blocked on an empty queue, with no sender between its two steps, is paused and not stopped |
| Control.EndingsAreHonest | src/orchestrator/job.rs:1043-1048 | a job is left paused only when all senders are gone and nobody asked to stop, and stopped only when somebody did |
| Control.HandledInOrder | src/orchestrator/control.rs:142-153 | commands are handled in the order they were enqueued, and a waiting job has handled them all |
| Control.NoWorkAfterStop | src/orchestrator/job.rs:896-899 | the stop flag is never lowered; once raised, only a safe point already past its stop check may still let the job go on, once |
| Control.StoppedJobStaysOut | src/orchestrator/job.rs:896-899 | once the stop flag is raised outside its work a job never works again, whatever the senders do |
| Control.StoppedJobEnds | src/orchestrator/job.rs:892-931 | such a job, taking its steps alone, ends as stopped after as many as it has left, and waits at most for a command already on its way |
| Control.StoppedJobSteps | src/orchestrator/job.rs:892-931 | whatever the senders do, it takes exactly the steps it had left and two more for every command enqueued while it drains, or fewer if it fails; then it has ended |
| Cancellation.NoLostCancellation | src/process.rs:49-63 | once a cancel has completed no waiter is blocked, whenever it registered; while nobody cancels, a waiter past its check is |
| Cancellation.CancelledWaiterMoves | src/process.rs:58-63 | after a completed cancel every step left to a waiter is enabled and its check or wake-up returns |
| Cancellation.NoSpuriousReturn | src/process.rs:58-63 | a waiter returns only if somebody has begun to cancel |
| Cancellation.CancelledForGood | src/process.rs:49-56 | the flag is never reset |
| Replay.ReplayGuard.Record | src/daemon/attach.rs:155-160 | remembers exactly the latest 256 recorded events |
| Replay.ReplayGuard.AlreadyShown | src/daemon/attach.rs:163-170 | recognises an event exactly when it is remembered, and forgets one copy of it |
| Replay.RecordedEvents | src/daemon/attach.rs:177-190 | exactly the latest 500 events that parse, or all if there are fewer, or none for an unreadable log |
| Replay.ExactJoin | src/daemon/server.rs:906-957 | with at most 256 events between subscription and log read, a viewer is shown one contiguous run of the log if and only if no later event equals an older one the guard still holds |
| Replay.EarlyDetach | src/daemon/server.rs:906-922 | a viewer that leaves before it has caught up was shown exactly the replayed tail if and only if the guard remembers all it took in live, and always with at most 256 events in between |
| Replay.DistinctJoin | src/daemon/attach.rs:142-170 | for distinct events, any overlap and wherever the viewer leaves: the tail, then the overlap the guard has forgotten, then what follows |
| Replay.ShownTimes | src/daemon/attach.rs:142-170 | for distinct events, wherever the viewer leaves, none from the tail or the subscription on is lost, and exactly those replayed, followed and already forgotten are shown twice |
| Replay.LongOverlapIsShownLate | src/daemon/attach.rs:142-170 | a join after 600 events in between: one event is shown late and one twice |
| EventLogs.AppendKeepsStep | src/orchestrator/events.rs:257-279 | an append, successful or not, leaves log and channel in step if and only if it is clean, as decided by the file before it and how far the append came |
| EventLogs.InStepThroughout | src/orchestrator/events.rs:226-279 | over any number of appends the log is, at every moment, what it was plus everything broadcast if and only if every append was clean |
| EventLogs.TornLineSwallowsTheNextEvent | src/orchestrator/events.rs:270-276 | an event appended to a torn line is broadcast and never read back |
| EventLogs.UnsyncedEventIsNeverBroadcast | src/orchestrator/events.rs:275-279 | an event written but not synced is in the log, a later one in both |
| EventLogs.UnterminatedEventVanishes | src/orchestrator/events.rs:270-276 | an event without its newline is read back until the next append, which loses both |
| EventLogs.CutCharacterHidesTheHistory | src/daemon/attach.rs:177-184 | after an append that stopped inside a character no event is read back, neither earlier nor later ones |
| LogBytes.ReadableUnlessCut | src/daemon/attach.rs:177-184 | the bytes of a log are UTF-8 exactly when none of its appends stopped inside a character, whatever was appended since |
| LogBytes.DecodesAsBytes | src/orchestrator/events.rs:270-279 | at every moment the file of the model decodes exactly when the bytes written do |
| Attachments.Receiver.Receive | src/daemon/server.rs:942-975 | delivers the next event, or says that it fell behind or that the stream is over |
| Attachments.JobEventBroadcaster.Subscribe | src/daemon/attach.rs:75-77 | a subscription starts after everything sent so far, also before a job has emitted anything |
| Attachments.JobEventBroadcaster.Send | src/daemon/attach.rs:106-113 | an event is appended to one job's channel and to no other |
| Attachments.JobEventBroadcaster.Release | src/daemon/attach.rs:80-85 | the job's channel is forgotten and closed, without losing what it held |
| Attachments.BroadcastEventSink.Emit | src/daemon/attach.rs:126-139 | an event reaches its chain's channel and, once, that of its own job |
| Attachments.DrivenJob.Append | src/orchestrator/events.rs:257-279 | the file changes as the outcome says, only a success is broadcast next, and log and channel stay in step exactly when the append is clean |
| Attachments.DrivenJob.Broadcast | src/orchestrator/events.rs:226-233 | what was appended is broadcast next, so the channel never runs ahead of an intact log |
| Attachments.DrivenJob.Release | src/daemon/runner.rs:78-83 | the end of a chain leaves every event of its channel in an intact log |
| Attachments.StreamEvents | src/daemon/server.rs:892-980 | whatever the daemon does meanwhile, a viewer is shown exactly the replay and live part of a log whose appends were clean; asked for and readable, the replay is of the log as it was after the subscription, with everything broadcast before in it |
| Attachments.ServeHistory | src/daemon/server.rs:906-922 | the tail of the log as it is when read, exactly if a replay is asked for and the file can be read; the guard holds its end |
| Attachments.ReplayTerminalJob | src/daemon/server.rs:989-1021 | a finished job's tail, or as much of it as the client takes |
| Attachments.LiveOnly | src/daemon/server.rs:906-922 | without a replay a viewer is shown exactly what is emitted after it subscribed |
| Framing.DaemonReader.FillBuf | src/daemon/transport.rs:178-190 | hands out what is buffered or the next chunk, and nothing only at the end |
| Framing.DaemonReader.ReadFrame | src/daemon/transport.rs:168-206 | the result depends on the byte stream alone, not on its chunks; exactly the frame is consumed; never more than the limit plus one chunk is held |
| Framing.DaemonReader.ReadAll | src/daemon/server.rs:925-931 | frame after frame, a reader gets exactly the frames of the byte stream and the error or end after them |
| Framing.FirstFrame | src/daemon/protocol.rs:495-508 | a written frame is the first frame read |
| Framing.FramesComeBack | src/daemon/transport.rs:212-221 | written frames come back in order, whatever their number, losing only trailing carriage returns |
| Framing.RoundTrip | src/daemon/transport.rs:200-204 | the round trip is exact if and only if no frame ends in a carriage return |
| Utf8.DecodeEncode | src/daemon/transport.rs:201-203 | encoded text decodes to itself |
| Utf8.EncodeDecode | src/daemon/transport.rs:201-203 | a frame that decodes is the one encoding of its text |
| Utf8.EncodedLength | src/orchestrator/job.rs:1183 | the bytes an instruction is charged are its length in UTF-8 |
| Utf8.CutDecodes | src/daemon/attach.rs:179 | a text cut off anywhere decodes exactly when it was cut between two characters |
| Utf8.DecodeAppend | src/daemon/attach.rs:179 | what begins with an ASCII byte neither repairs nor breaks the bytes before it |
| QwenToolCalls.ParseParameters | src/llm/ollama.rs:139-187 | the line loop finds exactly the bindings the body means, and none if there are none or one is unnamed |
| QwenToolCalls.LastBindingWins | src/llm/ollama.rs:148-153 | of several parameters of one name the last one counts |
| QwenToolCalls.CollectedTrims | src/llm/ollama.rs:173-178 | ignoring leading blank lines while collecting changes no trimmed value |
| QwenToolCalls.TidyValue | src/llm/ollama.rs:173-178 | a value without blank text around it or its lines is kept exactly, blank lines inside included |
| QwenToolCalls.ParametersComeBack | src/llm/ollama.rs:139-187 | any non-empty list of written parameters is read back, closed or not, whatever follows the function |
| QwenToolCalls.MapComesBack | src/llm/ollama.rs:139-187 | rendering a map of plain values in any order and parsing it gives the same map |
| QwenToolCalls.SplitCallIsExact | src/llm/ollama.rs:96-129 | exactly the texts made of fitting pieces hold a call, and no text is lost |
| QwenToolCalls.ParseToolCall | src/llm/ollama.rs:96-137 | the first call of a text, with the text around it, or none without a name or parameters |
| QwenToolCalls.NormalizeToolCall | src/llm/ollama.rs:81-94 | the message with its textual call, if any, made structured |
| QwenToolCalls.NormalizedExactly | src/llm/ollama.rs:81-137 | a message is changed exactly when its text holds a named call with parameters; it then carries that call and all the other text |
| QwenToolCalls.NormalizedOtherwise | src/llm/ollama.rs:81-94 | any other message stays as it is, and normalising twice is normalising once |
| Agents.Agent.Run | src/agent.rs:30-72 | every request continues the one before, the model is called at most max_iterations times, and the result is what the last answer says |
| Agents.Agent.AnswerCalls | src/agent.rs:57-64 | one result per tool call, in order, under its id |
| Agents.Agent.ExecuteToolCall | src/agent.rs:74-92 | a tool runs, once, exactly when its arguments parse and its name is known, and it is the first of that name |
| Agents.ConversationIsWellFormed | src/agent.rs:36-71 | every request's transcript is the prompt and then rounds of one assistant message with exactly one result per call |
| Agents.RequestsGrow | src/agent.rs:36-71 | each request's messages are a proper prefix of the next one's |

## Left out

- Timestamps: `touch`, event times and detection times are not part of any record or event; event distinctness is a
  hypothesis where it matters.
- The text of requests and events: private context, project name and path, the phase label and the rendered diff of a
  review are not in `ReviewRequest`; the snapshot it was rendered from is. Reasons and messages in events are dropped.
- Repository capture and Git: a capture is an arbitrary value or a failure; clean means a blank short status.
- Damage to a log other than by an append that came to an early end. What continues an unfinished line is taken never
  to parse: every event is a JSON object, so the line then holds an object, whole or not, followed by a brace.
- Whether the system lets the daemon read a log is a parameter of `StreamEvents`.
- How command line and daemon choose publisher and configuration: a publisher is enabled, and has its Git configuration,
  exactly when the run configuration asks for publication (`src/orchestrator/job.rs:176-184`, `src/main.rs:353-361`,
  `src/daemon/runner.rs:140-150`).
- The publisher's inside (`GitPublisher`): any progress reports in any order, then any answer. Its use of the stop flag
  is not modelled.
- Providers, their failure classification and timeouts: any answer; the quota classification is a given.
- Serialization: a record, event, request or tool argument is a value; JSON and its errors do not appear. Parsing and
  serializing tool arguments and results succeed or fail arbitrarily, and a serialized result is an arbitrary text.
- Locks of the operating system: `claimed` stands for holding a job's lock; that two processes never hold it at once is
  assumed, and so is that a save replaces the file atomically.
- The scheduler, batches, the QUEUED placeholder record it may leave, and repository claims: a job here starts with no
  record.
- In-place update of records passed by mutable reference (`&mut JobState`, `&mut ChatMessage`): methods return the new
  value; aliasing does not arise.
- `sequential_index + 1` at the largest 32-bit index, which would overflow before it is compared.
- Memory ordering: flag stores and loads are sequentially consistent steps.
- Several tasks of one daemon writing one log at the same time: a chain's events are appended and broadcast one after
  the other.
- `parse_control_command`, rendering, command-line parsing, the daemon's request tables and claims: each is settled by
  reading one branch.
- Orchestration.AutonomousOrchestrator.CallPublisher: does not promise that a publisher reports truthfully; what it
  reports is what is recorded.
- Orchestration.AutonomousOrchestrator.Fail: does not carry the failure text, which only the event shows.
- Replay.ExactJoin: says nothing about a viewer that fell more than 1024 events behind; its stream just ends.
- Framing.DaemonReader.ReadFrame: after a frame that is too long what has been consumed depends on the chunks and is
  not stated.
- Orchestration.AutonomousOrchestrator.AskSupervisor: does not repeat which request is sent; `Worlds.World.Decide` and
  `Provenance` demand it of every call.
- Orchestration.AutonomousOrchestrator.CallExecutor: likewise, for `Worlds.World.Execute`.
- Orchestration.AutonomousOrchestrator.ContinueFrom: does not name the stage at which the loop is entered, which is
  seen only in what the loop does.
