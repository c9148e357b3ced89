/**
 The write-ahead protocol of one autonomous job.

 A job's life is the sequence of its visible actions: what was saved, which provider was called with what, what
 came back, which events were written, what the repository looked like, and where a process died and another
 began. `After` follows a history: the monitor holds what `state.json` says (`store`) and the little a running
 process knows beyond it, and `Booted` forgets the latter, which is exactly what a crash does. A history is `Lawful`
 when each of its actions was permitted where it happened.

 Each durable write names why it is made; `MayWrite` says when it may be made and what it may change, and `EventsOf`
 which events must follow it before anything else may happen.
 */
module Protocol {
  import opened Wrappers
  import opened JobStates

  // ---- What crosses the boundary ----------------------------------------------------------------

  /** `snapshot` is the repository state the rendered request text was made from. */
  datatype ReviewRequest = ReviewRequest(task: string, iteration: U32, report: Option<string>,
                                         snapshot: RepositoryState, instructions: seq<string>)

  datatype ExecutorSession = NewSession | ResumeSession(id: string)

  datatype ExecutorRequest = ExecutorRequest(prompt: string, session: ExecutorSession, browser: bool,
                                             instructions: seq<string>)

  datatype ExecutorResult = ExecutorResult(sessionId: Option<string>, finalResponse: string)

  datatype PublishCall =
    | PublishFresh(snapshot: RepositoryState, commitTitle: string)
    | Recover(snapshot: RepositoryState, commitTitle: string,
              recordedStage: Option<PublishStage>, recordedResult: Option<PublishResult>)

  datatype ProviderError = QuotaExceeded(source: QuotaSource, detail: string) | OtherProviderError(detail: string)

  datatype PublishError =
    | RecoveryAmbiguous(detail: string) | PushRejected(result: PublishResult) | ProgressPersistence
    | OtherPublishError(detail: string)

  datatype ControlCommand = Pause | Resume | StopCommand | Status | Diff | Send(instruction: string)

  datatype JobEventKind =
    | JobStarted(task: string)
    | JobFinished(status: JobStatus)
    | SupervisorStarted(request: ReviewRequest)
    | SupervisorFinished(decision: SupervisorDecision)
    | ExecutorStarted(prompt: string, session: ExecutorSession)
    | ExecutorFinished(result: ExecutorResult)
    | RepositoryCaptured(state: RepositoryState)
    | PauseRequested
    | PausedEvent
    | ResumedEvent
    | StopRequested
    | Stopped(recorded: Option<PublishResult>)
    | FailedEvent
    | ResumeStarted(status: JobStatus, owed: Option<PendingOperation>)
    | ResumeRejected
    | ResumeValidated(continuation: ResumeContinuation)
    | QuotaRetryStarted(operation: PendingOperation)
    | WaitingForHuman
    | WaitingForQuota(provider: string)
    | PublishStarted(commitTitle: string)
    | PublishStageChanged(stage: PublishStage)
    | Published(publication: PublishResult)
    | UserInstructionQueued(instruction: string)
    | UserInstructionApplied(instruction: string)
    | UserInstructionRejected(instruction: string, refusal: BudgetRefusal)
    | StatusReported(status: JobStatus)
    | DiffReported(state: RepositoryState)
    | ControlMessage

  /** Why a durable write is made. */
  datatype Write =
    | JobCreated | ResumeAccepted
    | ReviewBegun | RunDirected | DecisionClosed
    | RunRecorded | SnapshotTaken
    | PublicationOwed | StageRecorded | CommitRecorded | PublicationDone
    | InstructionQueued | InstructionApplied
    | PausedWrite | UnpausedWrite | StoppedWrite | FailedWrite | HumanWrite | QuotaWrite

  datatype Action =
    | Booted
    | Saved(why: Write, job: JobState)
    | ReviewCalled(review: ReviewRequest)
    | ReviewAnswered(decision: Result<SupervisorDecision, ProviderError>)
    | RunPrepared(run: ExecutorRequest)
    | RunCalled(run: ExecutorRequest)
    | RunReturned(result: Result<ExecutorResult, ProviderError>)
    | PublishCalled(call: PublishCall)
    | StageReported(stage: PublishStage)
    | CommitReported(commit: PublishResult)
    | PublishReturned(outcome: Result<PublishResult, PublishError>)
    | Captured(state: RepositoryState)
    | CaptureFailed
    | Handled(command: ControlCommand)
    | StopSeen                                          // a safe point found the stop flag raised
    | PauseSeen                                         // ... or the pause flag
    | Cleared                                           // ... or neither
    | Emitted(kind: JobEventKind)
    | Refused(kind: JobEventKind)                       // the event sink could not write

  // ---- The monitor ------------------------------------------------------------------------------

  /** What the running process is in the middle of. */
  datatype Work =
    | Booting                                           // nothing compared against reality yet
    | Idle                                              // the stored record says what is owed
    | ReviewOwed
    | InReview(review: ReviewRequest)
    | Heard(review: ReviewRequest, decision: SupervisorDecision)
    | Prepared(run: ExecutorRequest)
    | InRun(run: ExecutorRequest)
    | Ran(result: ExecutorResult)
    | Recorded                                          // the run is durable, its repository not yet captured
    | PublishOwed
    | InPublish
    | Delivered(published: PublishResult)
    | Undelivered(refusal: PublishError)
    | Down(operation: PendingOperation, error: ProviderError)

  /** The events a process still has to write before it may do anything else, in order. */
  datatype Due = AllTold | Tell(kind: JobEventKind, rest: Due)

  /** What the process observed most recently. */
  datatype Observed = Observed(
    seen: Option<RepositoryState>,            // the latest Git capture
    blind: bool,                              // a capture failed since
    handled: seq<ControlCommand>,             // every command handled, in order
    sent: Option<string>,                     // the accepted `/send` still to be queued
    due: Due,                                 // the events that still belong to the latest write or command
    announced: Option<JobEventKind>,          // the latest event written
    refused: bool,                            // an event was refused, other than by the publisher's progress
    cleared: bool,                            // a safe point was passed since the latest step
    pausing: bool)                            // a safe point is holding the job

  const NOTHING_YET := Observed(None, false, [], None, AllTold, None, false, false, false)

  datatype Monitor = Monitor(
    store: Option<JobState>,
    work: Work,
    told: Progress,                           // the latest progress the publisher reported
    halted: bool,                             // a safe point has observed the stop flag
    tidy: bool)                               // nothing waited when this process took over, or a command since
                                              // has had what waited applied

  datatype Progress = Progress(stage: Option<PublishStage>, result: Option<PublishResult>)

  const NO_PROGRESS := Progress(None, None)

  /** The monitor, and what its process has observed. */
  datatype Track = Track(m: Monitor, o: Observed)

  const INITIAL := Monitor(None, Booting, NO_PROGRESS, false, true)

  predicate Live(m: Monitor) {
    m.store.Some? && m.store.value.status.IsResumable()
  }

  /** The record a process would write from what it knows, leaving status, quota and instructions aside. */
  predicate Carries(work: Work, told: Progress, s: JobState, j: JobState) {
    && j.identity == s.identity && j.iteration == s.iteration && j.phase == s.phase
    && j.claudeSessionId == s.claudeSessionId && j.lastExecutorReport == s.lastExecutorReport
    && j.pendingOperation == s.pendingOperation
    && CarriesDecision(work, s, j)
    && (j.publishStage == s.publishStage || (told.stage.Some? && j.publishStage == told.stage))
    && (j.publishResult == s.publishResult
        || (told.result.Some? && j.publishResult == told.result)
        || (work.Undelivered? && work.refusal.PushRejected? && j.publishResult == Some(work.refusal.result)))
  }

  predicate CarriesDecision(work: Work, s: JobState, j: JobState) {
    || (j.lastSupervisorDecision == s.lastSupervisorDecision
        && j.acceptedRepositoryState == s.acceptedRepositoryState)
    || (&& work.Heard?
        && j.lastSupervisorDecision == Some(work.decision)
        && (|| j.acceptedRepositoryState == s.acceptedRepositoryState
            || (work.decision.Accept? && j.acceptedRepositoryState == Some(work.review.snapshot))))
  }

  predicate SameInstructions(s: JobState, j: JobState) {
    j.pendingUserInstructions == s.pendingUserInstructions && j.appliedUserInstructions == s.appliedUserInstructions
  }

  /** A write that changes nothing but the status, from whatever the process carries. */
  predicate Restatus(work: Work, told: Progress, s: JobState, j: JobState) {
    Carries(work, told, s, j) && SameInstructions(s, j) && j.quotaWait == s.quotaWait
    && j.lastRepositoryState == s.lastRepositoryState
  }

  /** A status write made while giving up may also carry the last capture. */
  predicate Abandon(work: Work, told: Progress, seen: Option<RepositoryState>, s: JobState, j: JobState) {
    Carries(work, told, s, j) && SameInstructions(s, j) && j.quotaWait == s.quotaWait
    && (j.lastRepositoryState == s.lastRepositoryState || (seen.Some? && j.lastRepositoryState == seen))
  }

  predicate Working(m: Monitor) {
    !m.work.Booting? && !m.work.Recorded?
  }

  function FreshJob(identity: JobIdentity, repository: RepositoryState): JobState {
    JobState(identity, Running, 0, SupervisorPhase, None, None, None, None, None, None, [], [], None, None,
             Some(repository))
  }

  predicate NewJob(m: Monitor, o: Observed, j: JobState) {
    && m.store.None?
    && o.seen.Some? && o.seen.value.IsClean()
    && !Text.Blank(j.identity.jobId) && !Text.Blank(j.identity.task)
    && j.identity.run.maxIterations > 0 && j.identity.run.maxJobs > 0 && j.identity.run.Coherent()
    && j == FreshJob(j.identity, o.seen.value)
  }

  /** Reality was compared with the record: only publication may continue over a changed repository. */
  predicate RealityMatches(m: Monitor, o: Observed, s: JobState) {
    PlanFor(s).Success?
    && (PlanFor(s).value == ResumePublication || (o.seen.Some? && o.seen == s.lastRepositoryState))
  }

  predicate MayBeginReview(m: Monitor, o: Observed, s: JobState, j: JobState) {
    && m.work.Idle? && s.status.Running? && o.cleared
    && (|| (s.pendingOperation == None && s.iteration < s.identity.run.maxIterations && j.iteration == s.iteration + 1)
        || (s.pendingOperation == Some(SupervisorReview) && j.iteration == s.iteration))
    && j == s.(phase := SupervisorPhase, pendingOperation := Some(SupervisorReview), iteration := j.iteration)
  }

  /** A decision is acted on only after a safe point, and only once the log says it was heard. */
  predicate HeardAloud(m: Monitor, o: Observed)
    requires m.work.Heard?
  {
    o.cleared && o.announced == Some(SupervisorFinished(m.work.decision))
  }

  predicate MayClose(m: Monitor, o: Observed, s: JobState, j: JobState) {
    && m.work.Heard? && s.status.Running? && HeardAloud(m, o)
    && match m.work.decision
       case Accept(_, _, _) =>
         && !s.identity.run.Publishes()
         && j == s.(lastSupervisorDecision := Some(m.work.decision), pendingOperation := None, status := Accepted,
                    acceptedRepositoryState := Some(m.work.review.snapshot))
       case Human(_) =>
         j == s.(lastSupervisorDecision := Some(m.work.decision), pendingOperation := None, status := WaitingHuman)
       case Stop(_) =>
         j == s.(lastSupervisorDecision := Some(m.work.decision), pendingOperation := None,
                 status := JobStatus.Stopped)
       case Claude(_, _) => false
  }

  predicate MayOwePublication(m: Monitor, o: Observed, s: JobState, j: JobState) {
    o.cleared && s.identity.run.Publishes() &&
    (|| (&& m.work.Heard? && m.work.decision.Accept? && s.status.Running?
        && j == s.(lastSupervisorDecision := Some(m.work.decision),
                   acceptedRepositoryState := Some(m.work.review.snapshot),
                   status := Publishing, phase := PublisherPhase, pendingOperation := Some(Publication)))
    || (&& m.work.Idle? && s.status.Running? && s.pendingOperation == Some(Publication)
        && j == s.(status := Publishing, phase := PublisherPhase)))
  }

  /** A blank session id never replaces a known one. */
  function SessionAfter(known: Option<string>, result: ExecutorResult): Option<string> {
    if NoSession(result.sessionId) then known else result.sessionId
  }

  predicate MayQueue(m: Monitor, o: Observed, s: JobState, j: JobState) {
    && Carries(m.work, m.told, s, j) && j.status == s.status && j.quotaWait == s.quotaWait
    && j.lastRepositoryState == s.lastRepositoryState
    && o.sent.Some? && InstructionBudgetRefusal(s, o.sent.value).None?
    && j.appliedUserInstructions == s.appliedUserInstructions
    && j.pendingUserInstructions == s.pendingUserInstructions + [o.sent.value]
  }

  predicate MayApply(m: Monitor, s: JobState, j: JobState) {
    && Carries(m.work, m.told, s, j) && j.status == s.status && j.quotaWait == s.quotaWait
    && j.lastRepositoryState == s.lastRepositoryState
    && m.tidy && s.pendingUserInstructions != []
    && j.pendingUserInstructions == s.pendingUserInstructions[1..]
    && j.appliedUserInstructions == s.appliedUserInstructions + [s.pendingUserInstructions[0]]
  }

  function ProviderOf(operation: PendingOperation): string {
    if operation.ExecutorRun? then "Claude" else "OpenAI"
  }

  predicate MayWaitForQuota(m: Monitor, o: Observed, s: JobState, j: JobState) {
    && m.work.Down? && m.work.error.QuotaExceeded? && s.status.Running? && o.cleared
    && s.pendingOperation == Some(m.work.operation) && !m.work.operation.Publication?
    && j == s.(quotaWait := Some(QuotaWait(ProviderOf(m.work.operation), m.work.operation, m.work.error.source,
                                           m.work.error.detail)),
               status := if m.work.operation.ExecutorRun? then WaitingClaudeQuota else WaitingOpenAiQuota)
  }

  /** What may make a job FAILED. Only a refused event can still do so once the job has ended. */
  predicate MayFail(m: Monitor, o: Observed, s: JobState) {
    o.refused || (Live(m) && GivesUp(m, o, s))
  }

  predicate GivesUp(m: Monitor, o: Observed, s: JobState) {
    || (m.work.Down? && o.cleared && !m.work.error.QuotaExceeded?)
    || (m.work.Undelivered? && o.cleared && !m.work.refusal.RecoveryAmbiguous?)
    || ((m.work.Recorded? || (m.work.Delivered? && o.cleared)) && o.blind)
    || (m.work.Delivered? && o.cleared && o.seen.Some? && !o.seen.value.IsClean())
    || (m.work.Idle? && o.cleared && s.pendingOperation.None? && s.iteration >= s.identity.run.maxIterations)
    || (m.work.Idle? && o.cleared && s.pendingOperation == Some(ExecutorRun)
        && (SessionFor(s).None? || !(s.lastSupervisorDecision.Some? && s.lastSupervisorDecision.value.Claude?)))
  }

  /** What may park a job for a human. */
  predicate MayPark(m: Monitor, o: Observed, s: JobState, j: JobState) {
    || (m.work.Booting? && PlanFor(s).Failure? && !PlanFor(s).error.NotResumable?)
    || (m.work.Booting? && PlanFor(s).Success? && PlanFor(s).value != ResumePublication
        && o.seen.Some? && o.seen != s.lastRepositoryState)
    || (m.work.Undelivered? && o.cleared && m.work.refusal.RecoveryAmbiguous?)
    || (s.pendingOperation == Some(Publication)
        && (j.acceptedRepositoryState.None?
            || !(j.lastSupervisorDecision.Some? && j.lastSupervisorDecision.value.Accept?)))
  }

  predicate MayWrite(m: Monitor, o: Observed, why: Write, j: JobState) {
    if m.store.None? then why.JobCreated? && NewJob(m, o, j)
    else
      var s := m.store.value;
      && (m.halted ==> why.StoppedWrite? || why.FailedWrite?)
      && (Live(m) || why.FailedWrite?)
      && match why
         case JobCreated => false
         case ResumeAccepted =>
           && m.work.Booting? && RealityMatches(m, o, s)
           && o.announced == Some(if s.quotaWait.Some? then QuotaRetryStarted(s.quotaWait.value.operation)
                                      else ResumeValidated(PlanFor(s).value))
           && j == s.(status := Running, quotaWait := None)
         case ReviewBegun => MayBeginReview(m, o, s, j)
         case RunDirected =>
           m.work.Heard? && m.work.decision.Claude? && s.status.Running? && HeardAloud(m, o)
           && j == s.(lastSupervisorDecision := Some(m.work.decision), phase := ExecutorPhase,
                      pendingOperation := Some(ExecutorRun))
         case DecisionClosed => MayClose(m, o, s, j)
         case RunRecorded =>
           m.work.Ran? && s.status.Running?
           && j == s.(claudeSessionId := SessionAfter(s.claudeSessionId, m.work.result),
                      lastExecutorReport := Some(m.work.result.finalResponse), phase := SupervisorPhase,
                      pendingOperation := None)
         case SnapshotTaken =>
           m.work.Recorded? && o.seen.Some? && !o.blind
           && j == s.(lastRepositoryState := o.seen)
         case PublicationOwed => MayOwePublication(m, o, s, j)
         case StageRecorded =>
           m.work.InPublish? && m.told.stage.Some? && j.publishStage == m.told.stage
           && Restatus(m.work, m.told, s, j) && j.status == s.status
         case CommitRecorded =>
           m.work.InPublish? && m.told.result.Some? && j.publishResult == m.told.result
           && Restatus(m.work, m.told, s, j) && j.status == s.status
         case PublicationDone =>
           m.work.Delivered? && o.cleared && j.publishResult == Some(m.work.published)
           && o.seen.Some? && !o.blind && o.seen.value.IsClean() && j.lastRepositoryState == o.seen
           && j.status == JobStatus.Published && j.pendingOperation == None
           && Restatus(m.work, m.told, s, j.(lastRepositoryState := s.lastRepositoryState,
                                pendingOperation := s.pendingOperation))
         case InstructionQueued => Working(m) && MayQueue(m, o, s, j)
         case InstructionApplied => Working(m) && MayApply(m, s, j)
         case PausedWrite =>
           Working(m) && Restatus(m.work, m.told, s, j) && o.pausing && s.quotaWait.None? && j.status.Paused?
         case UnpausedWrite =>
           Working(m) && Restatus(m.work, m.told, s, j) && o.cleared && s.status.Paused? && j.status.Running?
         case StoppedWrite =>
           Working(m) && m.halted && Abandon(m.work, m.told, o.seen, s, j) && j.status == JobStatus.Stopped
         case FailedWrite => MayFail(m, o, s) && Abandon(m.work, m.told, o.seen, s, j) && j.status.Failed?
         case HumanWrite => MayPark(m, o, s, j) && Restatus(m.work, m.told, s, j) && j.status.WaitingHuman?
         case QuotaWrite => MayWaitForQuota(m, o, s, j)
  }

  function WorkAfter(work: Work, why: Write): Work {
    match why
    case JobCreated => Idle
    case ResumeAccepted => Idle
    case ReviewBegun => ReviewOwed
    case RunDirected => Idle
    case DecisionClosed => Idle
    case RunRecorded => Recorded
    case SnapshotTaken => Idle
    case PublicationOwed => PublishOwed
    case PublicationDone => Idle
    case _ => work
  }

  // ---- Provider calls ---------------------------------------------------------------------------

  predicate MayReview(m: Monitor, review: ReviewRequest) {
    && Live(m) && !m.halted && m.work.ReviewOwed?
    && var s := m.store.value;
    && s.pendingOperation == Some(SupervisorReview) && s.status.Running?
    && (m.tidy ==> s.pendingUserInstructions == [])
    && review.task == s.identity.task && review.iteration == s.iteration && review.report == s.lastExecutorReport
    && s.lastRepositoryState == Some(review.snapshot)
    && review.instructions == s.appliedUserInstructions
  }

  /** The log names every provider call and every publication before it starts. */
  predicate Announced(o: Observed, kind: JobEventKind) {
    o.announced == Some(kind)
  }

  /** The session an executor request must carry; `None` when the job may not call at all. */
  function SessionFor(s: JobState): Option<ExecutorSession> {
    if !NoSession(s.claudeSessionId) then Some(ResumeSession(s.claudeSessionId.value))
    else if s.lastExecutorReport.Some? then None
    else Some(NewSession)
  }

  predicate MayPrepare(m: Monitor, o: Observed, run: ExecutorRequest) {
    && Live(m) && m.work.Idle? && o.cleared
    && var s := m.store.value;
    && s.pendingOperation == Some(ExecutorRun)
    && (m.tidy ==> s.pendingUserInstructions == [])
    && s.lastSupervisorDecision.Some? && s.lastSupervisorDecision.value.Claude?
    && run.prompt == s.lastSupervisorDecision.value.prompt
    && SessionFor(s) == Some(run.session)
    && run.browser == s.identity.run.browser
    && run.instructions == s.appliedUserInstructions
  }

  predicate MayRun(m: Monitor, o: Observed, run: ExecutorRequest) {
    && Live(m) && !m.halted && m.work == Prepared(run) && m.store.value.status.Running? && o.cleared
    && (m.tidy ==> m.store.value.pendingUserInstructions == [])
  }

  predicate MayPublish(m: Monitor, call: PublishCall) {
    && Live(m) && !m.halted && m.work.PublishOwed?
    && var s := m.store.value;
    && s.pendingOperation == Some(Publication) && s.status.Publishing?
    && s.lastSupervisorDecision.Some? && s.lastSupervisorDecision.value.Accept?
    && s.acceptedRepositoryState == Some(call.snapshot)
    && call.commitTitle == s.lastSupervisorDecision.value.commitTitle
    && match call
       case PublishFresh(_, _) => s.publishStage.None? && s.publishResult.None?
       case Recover(_, _, stage, result) =>
         stage == s.publishStage && result == s.publishResult && (stage.Some? || result.Some?)
  }

  // ---- Events -----------------------------------------------------------------------------------

  /** The review a record with an owed supervisor review asks for. */
  function ReviewFor(s: JobState): Option<ReviewRequest> {
    match s.lastRepositoryState
    case None => None
    case Some(snapshot) =>
      Some(ReviewRequest(s.identity.task, s.iteration, s.lastExecutorReport, snapshot, s.appliedUserInstructions))
  }

  function Latest(instructions: seq<string>): string {
    if instructions == [] then "" else instructions[|instructions| - 1]
  }

  function Announcing(kind: JobEventKind, status: JobStatus): Due {
    Tell(kind, Tell(JobFinished(status), AllTold))
  }

  function Once(kind: JobEventKind): Due {
    Tell(kind, AllTold)
  }

  function CaptureEvent(j: JobState, rest: Due): Due {
    if j.lastRepositoryState.Some? then Tell(RepositoryCaptured(j.lastRepositoryState.value), rest) else rest
  }

  /** The events a durable write is followed by. A write that only records a refused event has none. */
  function EventsOf(m: Monitor, o: Observed, why: Write, j: JobState): Due {
    match why
    case JobCreated => Tell(JobStarted(j.identity.task), CaptureEvent(j, AllTold))
    case ResumeAccepted => AllTold
    case ReviewBegun => if ReviewFor(j).Some? then Once(SupervisorStarted(ReviewFor(j).value)) else AllTold
    case RunDirected => AllTold
    case DecisionClosed =>
      if j.status.WaitingHuman? then Announcing(WaitingForHuman, j.status)
      else if j.status == JobStatus.Stopped then Announcing(JobEventKind.Stopped(None), j.status)
      else Once(JobFinished(j.status))
    case RunRecorded => if m.work.Ran? then Once(ExecutorFinished(m.work.result)) else AllTold
    case SnapshotTaken => CaptureEvent(j, AllTold)
    case PublicationOwed =>
      if j.lastSupervisorDecision.Some? && j.lastSupervisorDecision.value.Accept?
      then Once(PublishStarted(j.lastSupervisorDecision.value.commitTitle)) else AllTold
    case StageRecorded => if j.publishStage.Some? then Once(PublishStageChanged(j.publishStage.value)) else AllTold
    case CommitRecorded => AllTold
    case PublicationDone =>
      if j.publishResult.Some? then CaptureEvent(j, Announcing(JobEventKind.Published(j.publishResult.value), j.status))
      else AllTold
    case InstructionQueued => Once(UserInstructionQueued(Latest(j.pendingUserInstructions)))
    case InstructionApplied => Once(UserInstructionApplied(Latest(j.appliedUserInstructions)))
    case PausedWrite =>
      if m.store.Some? && m.store.value.status.Paused? then Announcing(ControlMessage, j.status) else Once(PausedEvent)
    case UnpausedWrite => Once(ResumedEvent)
    case StoppedWrite => Announcing(JobEventKind.Stopped(j.publishResult), j.status)
    case FailedWrite => if o.refused then AllTold else Once(FailedEvent)
    case HumanWrite => Tell(ResumeRejected, Announcing(WaitingForHuman, j.status))
    case QuotaWrite =>
      if j.quotaWait.Some? then Announcing(WaitingForQuota(j.quotaWait.value.provider), j.status) else AllTold
  }

  /** The events a command is answered with, apart from those of the writes it causes. */
  function EventsOfCommand(m: Monitor, command: ControlCommand): Due {
    if m.store.None? then AllTold
    else
      var s := m.store.value;
      match command
      case Pause => if s.status.Paused? then AllTold else Once(PauseRequested)
      case StopCommand => Once(StopRequested)
      case Status => Once(StatusReported(s.status))
      case Send(x) =>
        var refusal := InstructionBudgetRefusal(s, x);
        if refusal.Some? then Once(UserInstructionRejected(x, refusal.value)) else AllTold
      case _ => AllTold
  }

  /** The instruction a command adds to the job. */
  function Taken(m: Monitor, command: ControlCommand): Option<string> {
    if m.store.Some? && command.Send? && InstructionBudgetRefusal(m.store.value, command.instruction).None?
    then Some(command.instruction) else None
  }

  /** Whether handling a command ends with the waiting instructions applied: every command but a refused `/send`. */
  predicate Applies(m: Monitor, command: ControlCommand) {
    command.Send? ==> Taken(m, command).Some?
  }

  /** The events that belong to no write; none of them runs ahead of what it reports. */
  predicate FreeEvent(m: Monitor, o: Observed, kind: JobEventKind) {
    match kind
    case SupervisorFinished(decision) => m.work.Heard? && m.work.decision == decision
    case ExecutorStarted(prompt, session) =>
      m.work.Prepared? && m.work.run.prompt == prompt && m.work.run.session == session
    case RepositoryCaptured(state) => o.seen == Some(state) && !o.blind
    case DiffReported(state) => o.seen == Some(state) && !o.blind
    case ControlMessage => o.blind
    case FailedEvent => m.store.None?
    case ResumeRejected => m.work.Booting?
    case ResumeValidated(continuation) =>
      m.store.Some? && RealityMatches(m, o, m.store.value) && PlanFor(m.store.value) == Success(continuation)
    case QuotaRetryStarted(operation) =>
      m.store.Some? && RealityMatches(m, o, m.store.value) && m.store.value.quotaWait.Some?
      && m.store.value.quotaWait.value.operation == operation
    case _ => false
  }

  predicate MayEmit(m: Monitor, o: Observed, kind: JobEventKind) {
    !o.refused && if o.due.Tell? then kind == o.due.kind else o.sent.None? && FreeEvent(m, o, kind)
  }

  /** Nothing is left to announce, no accepted instruction is left to queue, and no event was refused. */
  predicate Quiet(o: Observed) {
    o.due.AllTold? && o.sent.None? && !o.refused
  }

  /** After a refused event only FAILED may be written; an accepted instruction is queued before anything else. */
  predicate MayWriteNow(o: Observed, why: Write) {
    o.due.AllTold? && (o.sent.None? || why.InstructionQueued?) && (o.refused ==> why.FailedWrite?)
  }

  // ---- One action -------------------------------------------------------------------------------

  predicate Permitted(t: Track, a: Action) {
    Allowed(t.m, t.o, a)
  }

  predicate Allowed(m: Monitor, o: Observed, a: Action) {
    match a
    case Booted => m.store.Some?
    case Emitted(kind) => MayEmit(m, o, kind)
    case Refused(kind) => MayEmit(m, o, kind)
    case Saved(why, job) => MayWriteNow(o, why) && MayWrite(m, o, why, job)
    case _ => Quiet(o) && MayAct(m, o, a)
  }

  /** Actions that are neither writes nor events. */
  predicate MayAct(m: Monitor, o: Observed, a: Action) {
    match a
    case ReviewCalled(review) => MayReview(m, review) && Announced(o, SupervisorStarted(review))
    case ReviewAnswered(decision) => m.work.InReview? && (decision.Success? ==> WellFormed(decision.value))
    case RunPrepared(run) => MayPrepare(m, o, run)
    case RunCalled(run) => MayRun(m, o, run) && Announced(o, ExecutorStarted(run.prompt, run.session))
    case RunReturned(_) => m.work.InRun?
    case PublishCalled(call) => MayPublish(m, call) && Announced(o, PublishStarted(call.commitTitle))
    case StageReported(_) => m.work.InPublish?
    case CommitReported(_) => m.work.InPublish?
    case PublishReturned(_) => m.work.InPublish?
    case Captured(_) => true
    case CaptureFailed => true
    case Handled(_) => m.store.Some?
    case StopSeen => m.store.Some?
    case PauseSeen => m.store.Some?
    case Cleared => m.store.Some? && !m.halted
    case _ => false
  }

  /** After these the process must pass a safe point again before it takes the next step. */
  predicate Unclears(why: Write) {
    why.JobCreated? || why.ResumeAccepted? || why.RunDirected? || why.SnapshotTaken?
  }

  function Next(t: Track, a: Action): Track {
    Track(Moved(t.m, a), Noticed(t.m, t.o, a))
  }

  function Moved(m: Monitor, a: Action): Monitor {
    match a
    case Booted =>
      Monitor(m.store, Booting, NO_PROGRESS, false, m.store.Some? && m.store.value.pendingUserInstructions == [])
    case Saved(why, job) => m.(store := Some(job), work := WorkAfter(m.work, why))
    case ReviewCalled(review) => m.(work := InReview(review))
    case ReviewAnswered(decision) =>
      if m.work.InReview? then
        m.(work := if decision.Success? then Heard(m.work.review, decision.value)
                   else Down(SupervisorReview, decision.error))
      else m
    case RunPrepared(run) => m.(work := Prepared(run))
    case RunCalled(run) => m.(work := InRun(run))
    case RunReturned(result) =>
      m.(work := if result.Success? then Ran(result.value) else Down(ExecutorRun, result.error))
    case PublishCalled(_) => m.(work := InPublish, told := NO_PROGRESS)
    case StageReported(stage) => m.(told := m.told.(stage := Some(stage)))
    case CommitReported(commit) => m.(told := m.told.(result := Some(commit)))
    case PublishReturned(outcome) =>
      m.(work := if outcome.Success? then Delivered(outcome.value) else Undelivered(outcome.error),
         told := if outcome.Success? then m.told.(result := Some(outcome.value)) else m.told)
    case StopSeen => m.(halted := true)
    case Handled(command) => m.(tidy := m.tidy || Applies(m, command))
    case _ => m
  }

  /** A process that takes over a record first says which. */
  function Awakened(m: Monitor): Observed {
    match m.store
    case None => NOTHING_YET
    case Some(s) => NOTHING_YET.(due := Once(ResumeStarted(s.status, s.pendingOperation)))
  }

  function Left(due: Due): Due {
    if due.Tell? then due.rest else AllTold
  }

  function Noticed(m: Monitor, o: Observed, a: Action): Observed {
    match a
    case Booted => Awakened(m)
    case Saved(why, job) =>
      o.(sent := if why.InstructionQueued? then None else o.sent, cleared := o.cleared && !Unclears(why),
         due := EventsOf(m, o, why, job))
    case ReviewAnswered(_) => o.(cleared := false)
    case RunPrepared(_) => o.(cleared := false)
    case RunReturned(_) => o.(cleared := false)
    case PublishReturned(_) => o.(cleared := false)
    case Captured(state) => o.(seen := Some(state), blind := false)
    case CaptureFailed => o.(blind := true)
    case Handled(command) =>
      o.(handled := o.handled + [command], sent := Taken(m, command), due := EventsOfCommand(m, command))
    case PauseSeen => o.(pausing := true, cleared := false)
    case Cleared => o.(cleared := true, pausing := false)
    case Emitted(kind) => o.(announced := Some(kind), due := Left(o.due))
    case Refused(_) => o.(refused := !m.work.InPublish?, due := AllTold)
    case _ => o
  }

  /** Where a history leaves the monitor. */
  function After(h: seq<Action>): Track {
    if h == [] then Track(INITIAL, NOTHING_YET) else Next(After(h[..|h| - 1]), h[|h| - 1])
  }

  ghost predicate StepPermitted(h: seq<Action>, i: nat)
    requires i < |h|
  {
    Permitted(After(h[..i]), h[i])
  }

  /** Every action of the history was permitted where it happened. */
  ghost predicate Lawful(h: seq<Action>) {
    forall i :: 0 <= i < |h| ==> StepPermitted(h, i)
  }

  /** What `state.json` holds after a history. */
  function Stored(h: seq<Action>): Option<JobState> {
    After(h).m.store
  }

  lemma Append(h: seq<Action>, a: Action)
    requires Lawful(h) && Permitted(After(h), a)
    ensures Lawful(h + [a]) && After(h + [a]) == Next(After(h), a)
  {
    assert (h + [a])[..|h|] == h;
    forall i | 0 <= i < |h + [a]|
      ensures StepPermitted(h + [a], i)
    {
      if i < |h| {
        assert (h + [a])[..i] == h[..i];
        assert StepPermitted(h, i);
      }
    }
  }

  /** A process can die after any action: every prefix of a lawful history is lawful. */
  lemma PrefixLawful(h: seq<Action>, n: nat)
    requires Lawful(h) && n <= |h|
    ensures Lawful(h[..n])
  {
    forall i | 0 <= i < n
      ensures StepPermitted(h[..n], i)
    {
      assert h[..n][..i] == h[..i];
      assert StepPermitted(h, i);
    }
  }

  /** No write ever changes who a job is. */
  lemma WriteKeepsIdentity(m: Monitor, o: Observed, why: Write, j: JobState)
    requires m.store.Some? && MayWrite(m, o, why, j)
    ensures j.identity == m.store.value.identity
  {
  }

  /** A record, once there, never becomes another job's record. */
  lemma {:induction false} SameJob(h: seq<Action>, n: nat)
    requires Lawful(h) && n <= |h|
    ensures Stored(h[..n]).Some? ==>
            Stored(h).Some? && Stored(h).value.identity == Stored(h[..n]).value.identity
    decreases |h|
  {
    if n == |h| {
      assert h[..n] == h;
    } else {
      var past := h[..|h| - 1];
      var a := h[|h| - 1];
      PrefixLawful(h, |h| - 1);
      SameJob(past, n);
      assert past[..n] == h[..n];
      if a.Saved? && Stored(past).Some? {
        assert StepPermitted(h, |h| - 1);
        WriteKeepsIdentity(After(past).m, After(past).o, a.why, a.job);
      }
    }
  }
}
