/**
 The authoritative job record, and the decision a later process takes from it alone.

 Timestamps are not part of the record here.
 */
module JobStates {
  import opened Wrappers
  import opened Text

  const MAX_ACTIVE_USER_INSTRUCTIONS: nat := 16
  const MAX_ACTIVE_USER_INSTRUCTION_BYTES: nat := 8 * 1024

  /** Counters are 32 bits wide: every addition below is proved not to wrap. */
  type U32 = n: nat | n < 0x1_0000_0000

  datatype JobStatus =
    | Queued | Running | Paused | WaitingClaudeQuota | WaitingOpenAiQuota | WaitingHuman
    | Accepted | Publishing | Published | Failed | Stopped
  {
    predicate IsResumable() {
      Running? || Paused? || Publishing? || WaitingClaudeQuota? || WaitingOpenAiQuota?
    }
  }

  datatype JobPhase = SupervisorPhase | ExecutorPhase | PublisherPhase

  datatype PendingOperation = SupervisorReview | ExecutorRun | Publication

  datatype SupervisorDecision =
    | Claude(prompt: string, reason: Option<string>)
    | Accept(commitTitle: string, nextPrompt: Option<string>, reason: Option<string>)
    | Human(explanation: string)
    | Stop(explanation: string)

  predicate Filled(text: Option<string>) {
    text.Some? ==> !Blank(text.value)
  }

  /** What `into_decision` lets through: no field of a decision is blank. */
  predicate WellFormed(decision: SupervisorDecision) {
    match decision
    case Claude(prompt, reason) => !Blank(prompt) && Filled(reason)
    case Accept(commitTitle, nextPrompt, reason) => !Blank(commitTitle) && Filled(nextPrompt) && Filled(reason)
    case Human(explanation) => !Blank(explanation)
    case Stop(explanation) => !Blank(explanation)
  }

  datatype QuotaSource = ProviderStructured | ProviderMessageHeuristic

  datatype QuotaWait = QuotaWait(provider: string, operation: PendingOperation, source: QuotaSource, reason: string)

  /** What one Git capture saw. `details` stands for the diff, stat and file lists. */
  datatype RepositoryState = RepositoryState(head: string, statusShort: string, details: string) {
    predicate IsClean() {
      Blank(statusShort)
    }
  }

  datatype PublishStage = Verifying | Staging | Staged | Committing | Committed | Pushing | StagePushed

  datatype PushStatus = PushPending | Pushed | PushRefused

  datatype PublishResult = PublishResult(commitSha: string, commitTitle: string, remote: string, branch: string,
                                         pushStatus: PushStatus)

  datatype GitPublishConfig = GitPublishConfig(name: string, email: string, remote: string, branch: string)

  datatype RunConfiguration = RunConfiguration(maxIterations: U32, maxJobs: U32, browser: bool, publish: bool,
                                               git: Option<GitPublishConfig>)
  {
    /** Publication has everything it needs. A process has a publisher exactly for such a configuration. */
    predicate Publishes() {
      publish && git.Some?
    }

    /** Publication is never asked for without the identity, remote and branch it needs. */
    predicate Coherent() {
      publish ==> git.Some?
    }
  }

  /** The fields no step of a job ever changes. */
  datatype JobIdentity = JobIdentity(jobId: string, projectName: string, projectPath: string, task: string,
                                     run: RunConfiguration, sequentialIndex: U32)

  datatype JobState = JobState(
    identity: JobIdentity,
    status: JobStatus,
    iteration: U32,
    phase: JobPhase,
    claudeSessionId: Option<string>,
    lastExecutorReport: Option<string>,
    lastSupervisorDecision: Option<SupervisorDecision>,
    acceptedRepositoryState: Option<RepositoryState>,
    publishResult: Option<PublishResult>,
    publishStage: Option<PublishStage>,
    pendingUserInstructions: seq<string>,
    appliedUserInstructions: seq<string>,
    pendingOperation: Option<PendingOperation>,
    quotaWait: Option<QuotaWait>,
    lastRepositoryState: Option<RepositoryState>)
  {
    /** Every instruction that still constrains the job, oldest first. */
    function Active(): seq<string> {
      appliedUserInstructions + pendingUserInstructions
    }
  }

  function TotalBytes(instructions: seq<string>): nat {
    if instructions == [] then 0
    else TotalBytes(instructions[..|instructions| - 1]) + ByteLength(instructions[|instructions| - 1])
  }

  predicate WithinBudget(instructions: seq<string>) {
    |instructions| <= MAX_ACTIVE_USER_INSTRUCTIONS && TotalBytes(instructions) <= MAX_ACTIVE_USER_INSTRUCTION_BYTES
  }

  /** `instruction_budget_refusal`: the two refusals, count first. */
  datatype BudgetRefusal = TooMany | TooLarge(total: nat)

  function InstructionBudgetRefusal(job: JobState, instruction: string): (refusal: Option<BudgetRefusal>)
    ensures refusal.None? <==> WithinBudget(job.Active() + [instruction])
  {
    assert (job.Active() + [instruction])[..|job.Active()|] == job.Active();
    if |job.Active()| >= MAX_ACTIVE_USER_INSTRUCTIONS then Some(TooMany)
    else
      var total := TotalBytes(job.Active()) + ByteLength(instruction);
      if total > MAX_ACTIVE_USER_INSTRUCTION_BYTES then Some(TooLarge(total)) else None
  }

  // ---- ResumePlan -----------------------------------------------------------------------------

  datatype ResumeContinuation = Fresh | Supervisor | Executor | ResumePublication

  datatype InvalidReason =
    | MissingIdentifierOrTask | ZeroLimit | ReviewWithoutIteration | RunWithoutPrompt | CorrectionWithoutSession
    | PublicationNotEnabled | NoAcceptedSnapshot | NoAcceptDecision | QuotaMismatch | ClaudeQuotaNotExecutor
    | OpenAiQuotaNotReview | PublishingWithoutPublication

  datatype ResumeRejection =
    | NotResumable(status: JobStatus)
    | MissingPublicationConfiguration
    | Invalid(reason: InvalidReason)

  predicate NoSession(session: Option<string>) {
    session.None? || Blank(session.value)
  }

  /** The continuation the pending operation names, before the quota and status checks. */
  function ContinuationOf(job: JobState): Result<ResumeContinuation, ResumeRejection> {
    match job.pendingOperation
    case None => Success(Fresh)
    case Some(SupervisorReview) =>
      if job.iteration == 0 then Failure(Invalid(ReviewWithoutIteration)) else Success(Supervisor)
    case Some(ExecutorRun) =>
      if !(job.lastSupervisorDecision.Some? && job.lastSupervisorDecision.value.Claude?
           && !Blank(job.lastSupervisorDecision.value.prompt))
      then Failure(Invalid(RunWithoutPrompt))
      else if job.lastExecutorReport.Some? && NoSession(job.claudeSessionId)
      then Failure(Invalid(CorrectionWithoutSession))
      else Success(Executor)
    case Some(Publication) =>
      if !job.identity.run.publish then Failure(Invalid(PublicationNotEnabled))
      else if job.identity.run.git.None? then Failure(MissingPublicationConfiguration)
      else if job.acceptedRepositoryState.None? then Failure(Invalid(NoAcceptedSnapshot))
      else if !(job.lastSupervisorDecision.Some? && job.lastSupervisorDecision.value.Accept?)
      then Failure(Invalid(NoAcceptDecision))
      else Success(ResumePublication)
  }

  function PlanFor(job: JobState): Result<ResumeContinuation, ResumeRejection> {
    if Blank(job.identity.jobId) || Blank(job.identity.task) then Failure(Invalid(MissingIdentifierOrTask))
    else if !job.status.IsResumable() then Failure(NotResumable(job.status))
    else if job.identity.run.maxIterations == 0 || job.identity.run.maxJobs == 0 then Failure(Invalid(ZeroLimit))
    else
      var continuation :- ContinuationOf(job);
      if job.quotaWait.Some? && Some(job.quotaWait.value.operation) != job.pendingOperation
      then Failure(Invalid(QuotaMismatch))
      else match job.status
        case WaitingClaudeQuota =>
          if continuation == Executor then Success(continuation) else Failure(Invalid(ClaudeQuotaNotExecutor))
        case WaitingOpenAiQuota =>
          if continuation == Supervisor then Success(continuation) else Failure(Invalid(OpenAiQuotaNotReview))
        case Publishing =>
          if continuation == ResumePublication then Success(continuation)
          else Failure(Invalid(PublishingWithoutPublication))
        case _ => Success(continuation)
  }
}
