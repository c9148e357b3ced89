/** `AutonomousOrchestrator`: the job loop, step by step, against the write-ahead protocol. */
module Orchestration {
  import opened Wrappers
  import opened JobStates
  import opened Protocol
  import opened Worlds
  import opened Persisted
  import opened Processes
  import opened Text

  datatype OrchestrationError =
    | Event
    | Supervisor(supervisor: ProviderError)
    | Executor(executor: ProviderError)
    | Repository(detail: string)
    | RepositoryDirty
    | PostCommitWorkingTreeDirty
    | Publish(publish: PublishError)
    | ResumeRefused(rejection: ResumeRejection)
    | State
    | Lock
    | IterationLimit(limit: U32)
    | InvalidTransition(transition: InvalidTransitionReason)

  datatype InvalidTransitionReason =
    | EmptyTask | EmptyJobId | EmptyContext | ZeroIterations | ZeroJobs | NoClaudeDecision | NoResumableSession

  type Outcome<T> = Result<T, OrchestrationError>

  datatype Stage = SuperviseStage(anew: bool) | ExecuteStage | PublicationStage

  /** What one stage of the loop decides: stop driving, or continue at a stage. */
  datatype Turn = Finished | Continue(stage: Stage)

  function StageFor(continuation: ResumeContinuation): Stage {
    match continuation
    case Fresh => SuperviseStage(true)
    case Supervisor => SuperviseStage(false)
    case Executor => ExecuteStage
    case ResumePublication => PublicationStage
  }

  datatype PauseVerdict = StayPaused | GoOn | EndHere

  predicate IsOutcome(status: JobStatus) {
    status.Accepted? || status == JobStatus.Published || status == JobStatus.Stopped || status.Paused?
    || status.WaitingHuman? || status.WaitingClaudeQuota? || status.WaitingOpenAiQuota?
  }

  /** Whether a command adds an instruction to the job. */
  predicate Accepts(job: JobState, command: ControlCommand) {
    command.Send? && InstructionBudgetRefusal(job, command.instruction).None?
  }

  predicate Refuses(job: JobState, command: ControlCommand) {
    command.Send? && !Accepts(job, command)
  }

  /** The error is the one expected, unless the record or the log could not be written. */
  predicate Blames(error: OrchestrationError, expected: OrchestrationError) {
    error == expected || error.State? || error.Event?
  }

  /** Nothing but instructions changed. */
  predicate Instructed(before: JobState, after: JobState) {
    after == before.(appliedUserInstructions := after.appliedUserInstructions,
                     pendingUserInstructions := after.pendingUserInstructions)
  }

  /** The record after a run: its report, its session unless blank, and the repository captured after it. */
  predicate RunTakenIn(before: JobState, after: JobState, repository: RepositoryState, result: ExecutorResult) {
    Instructed(before.(claudeSessionId := SessionAfter(before.claudeSessionId, result), phase := SupervisorPhase,
                       lastExecutorReport := Some(result.finalResponse), pendingOperation := None,
                       lastRepositoryState := Some(repository)), after)
  }

  lemma InstructedBeforeRun(before: JobState, instructed: JobState, after: JobState, repository: RepositoryState,
                            result: ExecutorResult)
    requires Instructed(before, instructed) && RunTakenIn(instructed, after, repository, result)
    ensures RunTakenIn(before, after, repository, result)
  {
  }

  /** The record after a decision that goes on, apart from instructions handled since the review was requested. */
  predicate DecisionFollowed(before: JobState, after: JobState, reviewed: RepositoryState,
                             decision: SupervisorDecision) {
    match decision
    case Claude(_, _) =>
      Instructed(before.(lastSupervisorDecision := Some(decision), phase := ExecutorPhase,
                         pendingOperation := Some(ExecutorRun)), after)
    case Accept(_, _, _) =>
      Instructed(before.(lastSupervisorDecision := Some(decision), acceptedRepositoryState := Some(reviewed)), after)
    case _ => false
  }

  lemma InstructedBeforeDecision(before: JobState, instructed: JobState, after: JobState, reviewed: RepositoryState,
                                 decision: SupervisorDecision)
    requires Instructed(before, instructed) && DecisionFollowed(instructed, after, reviewed, decision)
    ensures DecisionFollowed(before, after, reviewed, decision)
  {
  }

  class AutonomousOrchestrator {
    const world: World
    const control: ControlReceiver

    constructor (world: World, control: ControlReceiver)
      ensures this.world == world && this.control == control
    {
      this.world := world;
      this.control := control;
    }

    /**
     A process is given a publisher exactly when the job's own configuration asks for one: a new job records the
     configuration its process was given, and a resumed one is given the configuration it recorded.
     */
    predicate PublisherEnabled() {
      world.identity.run.Publishes()
    }

    /** `job` is what this process would write now: the record, plus what it has learnt since. */
    ghost predicate Holds(job: JobState)
      reads world
    {
      Carrying(job) && CaughtUpWith(job)
    }

    /** As `Holds`, with instructions possibly still to be applied. */
    ghost predicate Carrying(job: JobState)
      reads world
    {
      Knows(job) && Quiet(world.o) && !world.m.work.InPublish?
    }

    /** As `Holds`, while the publisher reports its progress. */
    ghost predicate Reporting(job: JobState)
      reads world
    {
      Knows(job) && Quiet(world.o) && world.m.work.InPublish? && CaughtUpWith(job)
    }

    /** A process that has caught up leaves no instruction waiting. */
    ghost predicate CaughtUpWith(job: JobState)
      reads world
    {
      world.m.tidy ==> job.pendingUserInstructions == []
    }

    /** As `Holds`, whatever is still to be announced. */
    ghost predicate Knows(job: JobState)
      reads world
    {
      && world.Valid() && Live(world.m) && Working(world.m) && !world.m.halted
      && Restatus(world.m.work, world.m.told, world.m.store.value, job) && job.status == world.m.store.value.status
      && job.quotaWait.None?
    }

    /** After an error other than a store failure the record says FAILED. */
    ghost predicate FailedDurably(error: OrchestrationError)
      reads world
    {
      && world.Valid() && !error.RepositoryDirty? && !error.ResumeRefused?
      && (error.State? || (world.m.store.Some? && world.m.store.value.status.Failed?))
      && (error.State? || error.Event? || world.o.announced == Some(FailedEvent))
    }

    ghost predicate Faulted(error: OrchestrationError)
      reads world
    {
      FailedDurably(error) && !error.InvalidTransition?
    }

    /** The record could not be written; or an event could not, and then the record says FAILED. */
    ghost predicate Unwritten(error: OrchestrationError)
      reads world
    {
      world.Valid() && (error.State? || (error.Event? && world.m.store.Some? && world.m.store.value.status.Failed?))
    }

    /** Either something was written and the record equals `job`, or nothing changed at all. */
    ghost predicate Kept(store: Option<JobState>, before: JobState, job: JobState)
      reads world
    {
      world.m.store == Some(job) || (world.m.store == store && job == before)
    }

    /** The job is over for this process: the record says so, and so does the last event of the log. */
    ghost predicate Concluded(job: JobState)
      reads world
    {
      && world.Valid() && world.m.store == Some(job) && IsOutcome(job.status)
      && world.o.announced == Some(JobFinished(job.status)) && Quiet(world.o)
    }

    /** Only the record, what was observed and what was caught up with moved on. */
    ghost predicate Steady(m0: Monitor, o0: Observed)
      reads world
    {
      && world.m == m0.(store := world.m.store, tidy := world.m.tidy)
      && world.o.cleared == o0.cleared && world.o.pausing == o0.pausing
    }

    /** As `Steady`, after a safe point found the flags clear. */
    ghost predicate Passed(m0: Monitor)
      reads world
    {
      world.m == m0.(store := world.m.store, tidy := world.m.tidy) && world.o.cleared
    }

    method Persist(why: Write, job: JobState) returns (r: Outcome<()>)
      requires world.Valid() && MayWrite(world.m, world.o, why, job)
      requires MayWriteNow(world.o, why)
      requires world.m.store.None? ==> job.identity == world.identity
      modifies world
      ensures world.inherited == old(world.inherited)
      ensures r.Success? ==>
        && world.Valid()
        && world.m == old(world.m).(store := Some(job), work := WorkAfter(old(world.m).work, why))
        && world.o == Noticed(old(world.m), old(world.o), Saved(why, job))
      ensures r.Failure? ==> r.error.State? && world.Valid() && world.m == old(world.m) && world.o == old(world.o)
    {
      var saved := world.Save(why, job);
      r := if saved then Success(()) else Failure(State);
    }

    /** An event that cannot be written fails the job durably. */
    method Emit(job: JobState, kind: JobEventKind) returns (r: Outcome<()>)
      requires world.Valid() && MayEmit(world.m, world.o, kind) && world.o.sent.None? && !world.m.work.InPublish?
      requires world.m.store.Some? && Abandon(world.m.work, world.m.told, world.o.seen, world.m.store.value, job)
      modifies world
      ensures world.inherited == old(world.inherited)
      ensures r.Success? ==> world.Valid() && world.m == old(world.m)
                             && world.o == old(world.o).(announced := Some(kind), due := Left(old(world.o).due))
      ensures r.Failure? ==> Unwritten(r.error)
    {
      var written := world.Emit(kind);
      if written {
        return Success(());
      }
      var failed := job.(status := Failed);
      var _ :- Persist(FailedWrite, failed);
      r := Failure(Event);
    }

    method Fail(job0: JobState) returns (r: Outcome<()>, job: JobState)
      requires world.Valid() && world.m.store.Some?
      requires Abandon(world.m.work, world.m.told, world.o.seen, world.m.store.value, job0)
      requires MayFail(world.m, world.o, world.m.store.value) && Quiet(world.o)
      modifies world
      ensures world.inherited == old(world.inherited)
      ensures r.Success? ==> world.Valid() && world.m.store == Some(job) && job == job0.(status := Failed)
                             && world.o.announced == Some(FailedEvent)
      ensures r.Failure? ==> Unwritten(r.error)
    {
      job := job0.(status := Failed);
      var _ :- Persist(FailedWrite, job);
      r := AnnounceFailure(job);
    }

    method AnnounceFailure(job: JobState) returns (r: Outcome<()>)
      requires world.Valid() && world.m.store == Some(job) && job.status.Failed? && !world.m.work.InPublish?
      requires world.o.due == Once(FailedEvent) && world.o.sent.None? && !world.o.refused
      modifies world
      ensures world.inherited == old(world.inherited)
      ensures r.Success? ==> world.Valid() && world.m == old(world.m) && world.o.announced == Some(FailedEvent)
      ensures r.Failure? ==> Unwritten(r.error)
    {
      r := Emit(job, FailedEvent);
    }

    /** How the job ended, and then the last event of its log. */
    method Conclude(job: JobState, kind: JobEventKind) returns (r: Outcome<()>)
      requires world.Valid() && world.m.store == Some(job) && IsOutcome(job.status) && !world.m.work.InPublish?
      requires world.o.due == Announcing(kind, job.status) && world.o.sent.None? && !world.o.refused
      modifies world
      ensures world.inherited == old(world.inherited)
      ensures r.Success? ==> Concluded(job) && world.m == old(world.m) && world.o.handled == old(world.o.handled)
      ensures r.Failure? ==> Unwritten(r.error)
    {
      var _ :- Emit(job, kind);
      r := Emit(job, JobFinished(job.status));
    }

    method ApplyQueuedInstructions(job0: JobState) returns (r: Outcome<()>, job: JobState)
      requires Carrying(job0) && world.m.tidy
      modifies world
      ensures world.inherited == old(world.inherited)
      ensures r.Failure? ==> Unwritten(r.error)
      ensures r.Success? ==>
        && Holds(job) && Steady(old(world.m), old(world.o)) && world.m.tidy && Kept(old(world.m.store), job0, job)
        && job == job0.(appliedUserInstructions := job0.Active(), pendingUserInstructions := [])
        && world.o.handled == old(world.o.handled)
    {
      job := job0;
      while job.pendingUserInstructions != []
        invariant Carrying(job) && Steady(old(world.m), old(world.o)) && world.m.tidy
        invariant Kept(old(world.m.store), job0, job)
        invariant world.inherited == old(world.inherited)
        invariant job == job0.(appliedUserInstructions := job.appliedUserInstructions,
                               pendingUserInstructions := job.pendingUserInstructions)
        invariant job.Active() == job0.Active() && world.o.handled == old(world.o.handled)
        decreases |job.pendingUserInstructions|
      {
        var _, next :- ApplyFirst(job);
        assert next.Active() == job.Active();
        job := next;
      }
      r := Success(());
    }

    method ApplyFirst(job0: JobState) returns (r: Outcome<()>, job: JobState)
      requires Carrying(job0) && world.m.tidy && job0.pendingUserInstructions != []
      modifies world
      ensures world.inherited == old(world.inherited)
      ensures r.Failure? ==> Unwritten(r.error)
      ensures r.Success? ==>
        && Carrying(job) && Steady(old(world.m), old(world.o)) && world.m.tidy && world.m.store == Some(job)
        && world.o.handled == old(world.o.handled)
        && job == job0.(pendingUserInstructions := job0.pendingUserInstructions[1..],
                        appliedUserInstructions := job0.appliedUserInstructions + [job0.pendingUserInstructions[0]])
    {
      var instruction := job0.pendingUserInstructions[0];
      job := job0.(pendingUserInstructions := job0.pendingUserInstructions[1..],
                   appliedUserInstructions := job0.appliedUserInstructions + [instruction]);
      var _ :- Persist(InstructionApplied, job);
      r := Emit(job, UserInstructionApplied(instruction));
    }

    method QueueInstruction(job0: JobState, instruction: string) returns (r: Outcome<()>, job: JobState)
      requires Knows(job0) && world.o.due.AllTold? && world.o.sent == Some(instruction)
      requires !world.o.refused && !world.m.work.InPublish?
      requires InstructionBudgetRefusal(job0, instruction).None?
      modifies world
      ensures world.inherited == old(world.inherited)
      ensures r.Failure? ==> Unwritten(r.error)
      ensures r.Success? ==>
        && Carrying(job) && Steady(old(world.m), old(world.o)) && world.m.tidy == old(world.m.tidy)
        && world.m.store == Some(job)
        && world.o.handled == old(world.o.handled)
        && job == job0.(pendingUserInstructions := job0.pendingUserInstructions + [instruction])
    {
      job := job0.(pendingUserInstructions := job0.pendingUserInstructions + [instruction]);
      var _ :- Persist(InstructionQueued, job);
      r := Emit(job, UserInstructionQueued(instruction));
    }

    method ReceiveInstruction(job0: JobState, instruction: string) returns (r: Outcome<()>, job: JobState)
      requires Knows(job0) && !world.o.refused && !world.m.work.InPublish?
      requires world.o.sent == Taken(world.m, Send(instruction))
      requires world.o.due == EventsOfCommand(world.m, Send(instruction))
      modifies world
      ensures world.inherited == old(world.inherited)
      ensures r.Failure? ==> Unwritten(r.error)
      ensures r.Success? ==>
        && Carrying(job) && Steady(old(world.m), old(world.o)) && world.m.tidy == old(world.m.tidy)
        && Kept(old(world.m.store), job0, job)
        && world.o.handled == old(world.o.handled)
        && job == (if InstructionBudgetRefusal(job0, instruction).None?
                   then job0.(pendingUserInstructions := job0.pendingUserInstructions + [instruction])
                   else job0)
    {
      job := job0;
      var refusal := InstructionBudgetRefusal(job, instruction);
      assert refusal == InstructionBudgetRefusal(world.m.store.value, instruction);
      if refusal.Some? {
        r := RejectInstruction(job, instruction, refusal.value);
      } else {
        r, job := QueueInstruction(job, instruction);
      }
    }

    method RejectInstruction(job: JobState, instruction: string, reason: BudgetRefusal)
        returns (r: Outcome<()>)
      requires Knows(job) && !world.o.refused && !world.m.work.InPublish? && world.o.sent.None?
      requires world.o.due == Once(UserInstructionRejected(instruction, reason))
      modifies world
      ensures world.inherited == old(world.inherited)
      ensures r.Failure? ==> Unwritten(r.error)
      ensures r.Success? ==>
        && Carrying(job) && world.m == old(world.m) && Steady(old(world.m), old(world.o))
        && world.o.handled == old(world.o.handled)
    {
      r := Emit(job, UserInstructionRejected(instruction, reason));
    }

    method ReportDiff(job: JobState) returns (r: Outcome<()>)
      requires Carrying(job)
      modifies world
      ensures world.inherited == old(world.inherited)
      ensures r.Failure? ==> Unwritten(r.error)
      ensures r.Success? ==> Carrying(job) && world.m == old(world.m) && Steady(old(world.m), old(world.o))
                             && world.o.handled == old(world.o.handled)
    {
      var captured := world.Collect();
      r := Emit(job, if captured.Success? then DiffReported(captured.value) else ControlMessage);
    }

    /** The command itself, before the queued instructions are applied. */
    method PerformCommand(job0: JobState, command: ControlCommand) returns (r: Outcome<()>, job: JobState)
      requires Holds(job0)
      modifies world
      ensures world.inherited == old(world.inherited)
      ensures r.Failure? ==> Unwritten(r.error)
      ensures r.Success? ==>
        && Carrying(job) && Steady(old(world.m), old(world.o)) && Kept(old(world.m.store), job0, job)
        && world.m.tidy == (old(world.m.tidy) || !Refuses(job0, command))
        && world.o.handled == old(world.o.handled) + [command]
        && job == (if Accepts(job0, command)
                   then job0.(pendingUserInstructions := job0.pendingUserInstructions + [command.instruction])
                   else job0)
    {
      Acknowledge(job0, command);
      r, job := AnswerCommand(job0, command);
    }

    method Acknowledge(job: JobState, command: ControlCommand)
      requires Holds(job)
      modifies world
      ensures world.inherited == old(world.inherited)
      ensures Knows(job) && !world.o.refused && !world.m.work.InPublish?
      ensures world.m == old(world.m).(tidy := old(world.m.tidy) || !Refuses(job, command))
      ensures world.o == old(world.o).(handled := old(world.o.handled) + [command], sent := Taken(world.m, command),
                                       due := EventsOfCommand(world.m, command))
    {
      world.Note(Handled(command));
    }

    /** The events a command is owed, and what an accepted instruction or a requested diff needs first. */
    method AnswerCommand(job0: JobState, command: ControlCommand) returns (r: Outcome<()>, job: JobState)
      requires Knows(job0) && !world.o.refused && !world.m.work.InPublish?
      requires world.o.sent == Taken(world.m, command) && world.o.due == EventsOfCommand(world.m, command)
      modifies world
      ensures world.inherited == old(world.inherited)
      ensures r.Failure? ==> Unwritten(r.error)
      ensures r.Success? ==>
        && Carrying(job) && Steady(old(world.m), old(world.o)) && world.m.tidy == old(world.m.tidy)
        && Kept(old(world.m.store), job0, job) && world.o.handled == old(world.o.handled)
        && job == (if Accepts(job0, command)
                   then job0.(pendingUserInstructions := job0.pendingUserInstructions + [command.instruction])
                   else job0)
    {
      job := job0;
      r := Success(());
      match command {
        case Pause =>
          if !job.status.Paused? {
            r := Emit(job, PauseRequested);
          }
        case Resume =>
        case StopCommand =>
          r := Emit(job, StopRequested);
        case Send(instruction) =>
          r, job := ReceiveInstruction(job, instruction);
        case Status =>
          r := Emit(job, StatusReported(job.status));
        case Diff =>
          r := ReportDiff(job);
      }
    }

    /** A refused instruction leaves everything as it was; any other command also applies what was queued. */
    method HandleControlCommand(job0: JobState, command: ControlCommand) returns (r: Outcome<()>, job: JobState)
      requires Holds(job0)
      modifies world
      ensures world.inherited == old(world.inherited)
      ensures r.Failure? ==> Unwritten(r.error)
      ensures r.Success? ==>
        && Holds(job) && Steady(old(world.m), old(world.o)) && Kept(old(world.m.store), job0, job)
        && world.o.handled == old(world.o.handled) + [command]
        && job == job0.(appliedUserInstructions := job.appliedUserInstructions,
                        pendingUserInstructions := job.pendingUserInstructions)
        && job.Active() == (if Accepts(job0, command) then job0.Active() + [command.instruction] else job0.Active())
        && (if Refuses(job0, command) then job == job0 else world.m.tidy && job.pendingUserInstructions == [])
    {
      job := job0;
      var _, performed :- PerformCommand(job, command);
      job := performed;
      if Refuses(job0, command) {
        return Success(()), job;
      }
      assert performed.Active() ==
             (if Accepts(job0, command) then job0.Active() + [command.instruction] else job0.Active());
      r, job := ApplyQueuedInstructions(job);
    }

    /** A stopped job keeps the last repository state that could be captured. */
    method CaptureLast(job0: JobState) returns (r: Outcome<()>, job: JobState)
      requires world.Valid() && Live(world.m) && Quiet(world.o) && !world.m.work.InPublish?
      requires Restatus(world.m.work, world.m.told, world.m.store.value, job0)
      modifies world
      ensures world.inherited == old(world.inherited)
      ensures r.Failure? ==> Unwritten(r.error)
      ensures r.Success? ==>
        && world.Valid() && world.m == old(world.m) && world.o.handled == old(world.o.handled)
        && job == job0.(lastRepositoryState := job.lastRepositoryState)
        && Abandon(world.m.work, world.m.told, world.o.seen, world.m.store.value, job) && Quiet(world.o)
        && (if world.o.blind then job == job0 else job.lastRepositoryState == world.o.seen)
    {
      job := job0;
      r := Success(());
      var captured := world.Collect();
      if captured.Success? {
        job := job.(lastRepositoryState := Some(captured.value));
        r := Emit(job, RepositoryCaptured(captured.value));
      }
    }

    method Stop(job0: JobState) returns (r: Outcome<()>, job: JobState)
      requires world.Valid() && world.m.halted && world.m.store.Some? && Quiet(world.o) && !world.m.work.InPublish?
      requires (job0.status == JobStatus.Stopped && world.m.store == Some(job0))
               || (Live(world.m) && Working(world.m) && Restatus(world.m.work, world.m.told, world.m.store.value, job0)
                   && job0.status == world.m.store.value.status)
      modifies world
      ensures world.inherited == old(world.inherited)
      ensures r.Failure? ==> Unwritten(r.error)
      ensures r.Success? ==> world.Valid() && world.m.store == Some(job) && job.status == JobStatus.Stopped
      ensures r.Success? && job0.status != JobStatus.Stopped ==> Concluded(job)
      ensures r.Success? ==> world.o.handled == old(world.o.handled)
      ensures r.Success? ==> job == job0.(status := JobStatus.Stopped, lastRepositoryState := job.lastRepositoryState)
    {
      job := job0;
      if job.status == JobStatus.Stopped {
        return Success(()), job;
      }
      var _, captured :- CaptureLast(job);
      job := captured.(status := JobStatus.Stopped);
      var _ :- Persist(StoppedWrite, job);
      r := Conclude(job, JobEventKind.Stopped(job.publishResult));
    }

    /** Input ended while the job was paused: it stays resumable. */
    method LeavePausedForALaterProcess(job0: JobState) returns (r: Outcome<()>, job: JobState)
      requires Holds(job0) && world.o.pausing && job0.status.Paused?
      modifies world
      ensures world.inherited == old(world.inherited)
      ensures r.Failure? ==> Unwritten(r.error)
      ensures r.Success? ==> Concluded(job) && job == job0.(status := Paused)
      ensures r.Success? ==> world.o.handled == old(world.o.handled)
    {
      job := job0.(status := Paused);
      var _ :- Persist(PausedWrite, job);
      r := Conclude(job, ControlMessage);
    }

    /** A safe point found the stop flag raised. */
    method StopHere(job0: JobState) returns (r: Outcome<()>, job: JobState)
      requires Holds(job0)
      modifies world
      ensures world.inherited == old(world.inherited)
      ensures r.Failure? ==> Unwritten(r.error)
      ensures r.Success? ==> Concluded(job) && world.o.handled == old(world.o.handled)
      ensures r.Success? ==> job == job0.(status := JobStatus.Stopped, lastRepositoryState := job.lastRepositoryState)
    {
      world.Note(StopSeen);
      r, job := Stop(job0);
    }

    /** Nothing taken from the channel is skipped, repeated or reordered. */
    ghost predicate HandledInOrder(all: seq<ControlCommand>)
      reads world, control
    {
      world.o.handled + Coming() == all
    }

    /** Every command not yet taken from the channel. */
    ghost function Coming(): seq<ControlCommand>
      reads control
    {
      control.backlog + control.arriving
    }

    /** Why a safe point may end the job here: the stop flag, or a pause nobody is left to lift. */
    ghost predicate EndedHere(job: JobState)
      reads world, control
    {
      Concluded(job) && if control.stop then job.status == JobStatus.Stopped
                        else job.status.Paused? && control.pause && Coming() == []
    }

    method HandleQueuedCommands(job0: JobState) returns (r: Outcome<()>, job: JobState)
      requires Holds(job0)
      modifies world, control`backlog, control`arriving
      ensures world.inherited == old(world.inherited)
      ensures r.Failure? ==> Unwritten(r.error)
      ensures r.Success? ==>
        && Holds(job) && Steady(old(world.m), old(world.o)) && Kept(old(world.m.store), job0, job)
        && Instructed(job0, job) && HandledInOrder(old(world.o.handled + Coming()))
        && |world.o.handled| >= |old(world.o.handled)| + |old(control.backlog)|
    {
      var commands := control.Drain();
      r, job := HandleAll(job0, commands);
    }

    method HandleAll(job0: JobState, commands: seq<ControlCommand>) returns (r: Outcome<()>, job: JobState)
      requires Holds(job0)
      modifies world
      ensures world.inherited == old(world.inherited)
      ensures r.Failure? ==> Unwritten(r.error)
      ensures r.Success? ==>
        && Holds(job) && Steady(old(world.m), old(world.o)) && Kept(old(world.m.store), job0, job)
        && Instructed(job0, job) && world.o.handled == old(world.o.handled) + commands
    {
      job := job0;
      for i := 0 to |commands|
        invariant Holds(job) && Steady(old(world.m), old(world.o)) && Kept(old(world.m.store), job0, job)
        invariant Instructed(job0, job) && world.o.handled == old(world.o.handled) + commands[..i]
        invariant world.inherited == old(world.inherited)
      {
        var _, next :- HandleControlCommand(job, commands[i]);
        assert commands[..i + 1] == commands[..i] + [commands[i]];
        job := next;
      }
      assert commands[..|commands|] == commands;
      r := Success(());
    }

    /**
     A boundary at which commands take effect. `false` means the job is over for this process; `true` means the
     process may go on, with the record still saying exactly what it said up to instructions and a finished pause.
     Either way, everything that was queued on entry has been handled.
     */
    method SafePoint(job0: JobState) returns (r: Outcome<bool>, job: JobState)
      requires Holds(job0) && !job0.status.Paused?
      modifies world, control
      ensures world.inherited == old(world.inherited)
      ensures r.Failure? ==> Unwritten(r.error)
      ensures r.Success? ==> HandledInOrder(old(world.o.handled + Coming()))
      ensures r.Success? ==> |world.o.handled| >= |old(world.o.handled)| + |old(control.backlog)|
      ensures r == Success(true) ==> GoesOn(old(world.m), job0, job)
      ensures r == Success(false) ==> EndedHere(job)
    {
      job := job0;
      var _, drained :- HandleQueuedCommands(job);
      r, job := ObeyFlags(drained);
    }

    /** The job may go on: both flags were down, and the job is as it was, up to instructions and a finished pause. */
    ghost predicate GoesOn(m0: Monitor, before: JobState, job: JobState)
      reads world, control
    {
      && Holds(job) && Passed(m0) && !control.stop && !control.pause
      && Kept(m0.store, before, job) && Instructed(before.(status := job.status), job)
      && (job.status == before.status || job.status.Running?)
    }

    /** The flags after the queue was drained: stop first, then pause. */
    method ObeyFlags(job0: JobState) returns (r: Outcome<bool>, job: JobState)
      requires Holds(job0) && !job0.status.Paused?
      modifies world, control
      ensures world.inherited == old(world.inherited)
      ensures r.Failure? ==> Unwritten(r.error)
      ensures r.Success? ==> HandledInOrder(old(world.o.handled + Coming()))
      ensures r.Success? ==> |world.o.handled| >= |old(world.o.handled)|
      ensures r == Success(true) ==> GoesOn(old(world.m), job0, job)
      ensures r == Success(false) ==> EndedHere(job)
    {
      job := job0;
      var stop := control.StopRequested();
      if stop {
        var _, stopped :- StopHere(job);
        return Success(false), stopped;
      }
      var pause := control.PauseRequested();
      if !pause {
        world.Note(Cleared);
        return Success(true), job;
      }
      r, job := HoldHere(job);
    }

    /** A safe point found the pause flag raised: the pause is durable before the job waits for a command. */
    method HoldHere(job0: JobState) returns (r: Outcome<bool>, job: JobState)
      requires Holds(job0) && !job0.status.Paused? && control.pause && !control.stop
      modifies world, control
      ensures world.inherited == old(world.inherited)
      ensures r.Failure? ==> Unwritten(r.error)
      ensures r.Success? ==> HandledInOrder(old(world.o.handled + Coming()))
      ensures r.Success? ==> |world.o.handled| >= |old(world.o.handled)|
      ensures r == Success(true) ==>
        && Holds(job) && Passed(old(world.m)) && world.m.store == Some(job)
        && Instructed(job0.(status := Running), job)
        && !control.stop && !control.pause
      ensures r == Success(false) ==> EndedHere(job)
    {
      job := job0;
      var _, paused :- PauseHere(job);
      r, job := AwaitResumption(paused);
    }

    method PauseHere(job0: JobState) returns (r: Outcome<()>, job: JobState)
      requires Holds(job0) && !job0.status.Paused?
      modifies world
      ensures world.inherited == old(world.inherited)
      ensures r.Failure? ==> Unwritten(r.error)
      ensures r.Success? ==>
        && Holds(job) && world.m.store == Some(job) && world.o.pausing && job == job0.(status := Paused)
        && world.m == old(world.m).(store := world.m.store) && world.o.handled == old(world.o.handled)
    {
      world.Note(PauseSeen);
      job := job0.(status := Paused);
      var _ :- Persist(PausedWrite, job);
      r := Emit(job, PausedEvent);
    }

    /** The paused loop of a safe point. */
    method AwaitResumption(job0: JobState) returns (r: Outcome<bool>, job: JobState)
      requires Holds(job0) && world.o.pausing && job0.status.Paused? && world.m.store == Some(job0)
      requires control.pause && !control.stop
      modifies world, control
      ensures world.inherited == old(world.inherited)
      ensures r.Failure? ==> Unwritten(r.error)
      ensures r.Success? ==> HandledInOrder(old(world.o.handled + Coming()))
      ensures r.Success? ==> |world.o.handled| >= |old(world.o.handled)|
      ensures r == Success(true) ==>
        && Holds(job) && Passed(old(world.m)) && world.m.store == Some(job)
        && Instructed(job0.(status := Running), job)
        && !control.stop && !control.pause
      ensures r == Success(false) ==> EndedHere(job)
    {
      job := job0;
      while true
        invariant Holds(job) && Steady(old(world.m), old(world.o)) && world.m.store == Some(job)
        invariant Instructed(job0, job) && HandledInOrder(old(world.o.handled + Coming()))
        invariant control.pause && !control.stop && |world.o.handled| >= |old(world.o.handled)|
        invariant world.inherited == old(world.inherited)
        decreases |Coming()|
      {
        var verdict, next :- AwaitCommand(job);
        job := next;
        match verdict {
          case StayPaused =>
          case GoOn => return Success(true), job;
          case EndHere => return Success(false), job;
        }
      }
    }

    /** Waits for one command and obeys it, or leaves the job paused once no command can come. */
    method AwaitCommand(job0: JobState) returns (r: Outcome<PauseVerdict>, job: JobState)
      requires Holds(job0) && job0.status.Paused? && world.m.store == Some(job0) && world.o.pausing
      requires control.pause && !control.stop
      modifies world, control
      ensures world.inherited == old(world.inherited)
      ensures r.Failure? ==> Unwritten(r.error)
      ensures r.Success? ==> HandledInOrder(old(world.o.handled + Coming()))
      ensures r.Success? ==> |world.o.handled| >= |old(world.o.handled)|
      ensures r == Success(StayPaused) ==>
        && Holds(job) && world.m.store == Some(job) && Steady(old(world.m), old(world.o))
        && Instructed(job0, job) && !control.stop && control.pause && |Coming()| < |old(Coming())|
      ensures r == Success(GoOn) ==>
        && Holds(job) && world.m.store == Some(job) && Passed(old(world.m))
        && Instructed(job0.(status := Running), job) && !control.stop && !control.pause
      ensures r == Success(EndHere) ==> EndedHere(job)
    {
      job := job0;
      var command := control.Take();
      match command {
        case None =>
          var _, left :- LeavePausedForALaterProcess(job);
          return Success(EndHere), left;
        case Some(c) =>
          r, job := PausedTurn(job, c);
      }
    }

    /** One command received while paused, and what the flags say after it. */
    method PausedTurn(job0: JobState, command: ControlCommand) returns (r: Outcome<PauseVerdict>, job: JobState)
      requires Holds(job0) && job0.status.Paused? && world.m.store == Some(job0) && world.o.pausing && control.pause
      modifies world, control`stop, control`pause
      ensures world.inherited == old(world.inherited)
      ensures r.Failure? ==> Unwritten(r.error)
      ensures r.Success? ==> world.o.handled == old(world.o.handled) + [command]
      ensures r == Success(StayPaused) ==>
        && Holds(job) && world.m.store == Some(job) && Steady(old(world.m), old(world.o))
        && Instructed(job0, job) && !control.stop && control.pause
      ensures r == Success(GoOn) ==>
        && Holds(job) && world.m.store == Some(job) && Passed(old(world.m))
        && Instructed(job0.(status := Running), job) && !control.stop && !control.pause
      ensures r == Success(EndHere) ==> EndedHere(job) && control.stop
    {
      job := job0;
      var _, handled :- HandleControlCommand(job, command);
      job := handled;
      var stop := control.StopRequested();
      if stop {
        var _, stopped :- StopHere(job);
        return Success(EndHere), stopped;
      }
      var pause := control.PauseRequested();
      if !pause {
        var _, running :- Unpause(job);
        return Success(GoOn), running;
      }
      r := Success(StayPaused);
    }

    method Unpause(job0: JobState) returns (r: Outcome<()>, job: JobState)
      requires Holds(job0) && job0.status.Paused?
      modifies world
      ensures world.inherited == old(world.inherited)
      ensures r.Failure? ==> Unwritten(r.error)
      ensures r.Success? ==>
        && Holds(job) && world.m.store == Some(job) && Passed(old(world.m)) && job == job0.(status := Running)
        && world.o.handled == old(world.o.handled)
    {
      world.Note(Cleared);
      job := job0.(status := Running);
      var _ :- Persist(UnpausedWrite, job);
      r := Emit(job, ResumedEvent);
    }

    method WaitForHuman(job0: JobState) returns (r: Outcome<JobState>)
      requires world.Valid() && Live(world.m) && !world.m.halted && Quiet(world.o) && !world.m.work.InPublish?
      requires Restatus(world.m.work, world.m.told, world.m.store.value, job0)
      requires MayPark(world.m, world.o, world.m.store.value, job0)
      modifies world
      ensures world.inherited == old(world.inherited)
      ensures r.Failure? ==> Unwritten(r.error)
      ensures r.Success? ==> Concluded(r.value) && r.value == job0.(status := WaitingHuman)
    {
      var job := job0.(status := WaitingHuman);
      var _ :- Persist(HumanWrite, job);
      r := AnnounceParking(job);
    }

    method AnnounceParking(job: JobState) returns (r: Outcome<JobState>)
      requires world.Valid() && world.m.store == Some(job) && job.status.WaitingHuman? && !world.m.work.InPublish?
      requires world.o.sent.None? && !world.o.refused
      requires world.o.due == Tell(ResumeRejected, Announcing(WaitingForHuman, job.status))
      modifies world
      ensures world.inherited == old(world.inherited)
      ensures r.Failure? ==> Unwritten(r.error)
      ensures r.Success? ==> Concluded(job) && r.value == job
    {
      var _ :- Emit(job, ResumeRejected);
      var _ :- Conclude(job, WaitingForHuman);
      r := Success(job);
    }

    method WaitForQuota(job0: JobState, provider: string, operation: PendingOperation, source: QuotaSource,
                        reason: string)
        returns (r: Outcome<()>, job: JobState)
      requires world.Valid() && Live(world.m) && !world.m.halted && world.m.store == Some(job0) && job0.status.Running?
      requires world.m.work == Down(operation, QuotaExceeded(source, reason))
      requires world.o.cleared && Quiet(world.o)
      requires job0.pendingOperation == Some(operation) && !operation.Publication?
      requires provider == (if operation.ExecutorRun? then "Claude" else "OpenAI")
      modifies world
      ensures world.inherited == old(world.inherited)
      ensures r.Failure? ==> Unwritten(r.error)
      ensures r.Success? ==>
        && Concluded(job)
        && job == job0.(status := if operation.ExecutorRun? then WaitingClaudeQuota else WaitingOpenAiQuota,
                        quotaWait := Some(QuotaWait(provider, operation, source, reason)))
    {
      assert "Claude"[0] != "OpenAI"[0];
      job := job0.(status := if provider == "Claude" then WaitingClaudeQuota else WaitingOpenAiQuota);
      job := job.(pendingOperation := Some(operation),
                  quotaWait := Some(QuotaWait(provider, operation, source, reason)));
      var _ :- Persist(QuotaWrite, job);
      r := Conclude(job, WaitingForQuota(provider));
    }

    // ---- Publication ----------------------------------------------------------------------------

    /** The publisher's progress callbacks are durable, but their failure is only reported back to it. */
    method RecordStage(job0: JobState, stage: PublishStage) returns (r: Result<(), PublishError>, job: JobState)
      requires Reporting(job0)
      modifies world
      ensures world.inherited == old(world.inherited)
      ensures Reporting(job) && job == job0.(publishStage := Some(stage)) && ProgressOnly(old(world.m))
      ensures r.Success? ==> world.m.store == Some(job)
    {
      world.Note(StageReported(stage));
      job := job0.(publishStage := Some(stage));
      var saved := world.Save(StageRecorded, job);
      if !saved {
        return Failure(ProgressPersistence), job;
      }
      var written := world.Emit(PublishStageChanged(stage));
      r := if written then Success(()) else Failure(ProgressPersistence);
    }

    method RecordCommit(job0: JobState, commit: PublishResult) returns (r: Result<(), PublishError>, job: JobState)
      requires Reporting(job0)
      modifies world
      ensures world.inherited == old(world.inherited)
      ensures Reporting(job) && job == job0.(publishResult := Some(commit)) && ProgressOnly(old(world.m))
      ensures r.Success? ==> world.m.store == Some(job)
    {
      world.Note(CommitReported(commit));
      job := job0.(publishResult := Some(commit));
      var saved := world.Save(CommitRecorded, job);
      r := if saved then Success(()) else Failure(ProgressPersistence);
    }

    ghost predicate ProgressOnly(m0: Monitor)
      reads world
    {
      world.m == m0.(store := world.m.store, told := world.m.told)
    }

    /** Any publisher: any number of progress reports, in any order, then any outcome. */
    method CallPublisher(call: PublishCall, job0: JobState)
        returns (outcome: Result<PublishResult, PublishError>, job: JobState)
      requires world.Valid() && Quiet(world.o) && MayPublish(world.m, call) && CaughtUpWith(job0)
      requires world.m.store == Some(job0) && job0.quotaWait.None?
      requires Announced(world.o, PublishStarted(call.commitTitle))
      modifies world
      ensures world.inherited == old(world.inherited)
      ensures Holds(Published(outcome, job))
      ensures job == job0.(publishStage := job.publishStage, publishResult := job.publishResult)
      ensures world.m.work == if outcome.Success? then Delivered(outcome.value) else Undelivered(outcome.error)
    {
      EnterPublisher(call, job0);
      job := TakeReports(job0);
      outcome := LeavePublisher(job);
    }

    /** What the process holds once the publisher is done: a success replaces the recorded result. */
    function Published(outcome: Result<PublishResult, PublishError>, job: JobState): JobState {
      if outcome.Success? then job.(publishResult := Some(outcome.value)) else job
    }

    method EnterPublisher(call: PublishCall, job: JobState)
      requires world.Valid() && Quiet(world.o) && MayPublish(world.m, call) && CaughtUpWith(job)
      requires world.m.store == Some(job) && job.quotaWait.None?
      requires Announced(world.o, PublishStarted(call.commitTitle))
      modifies world
      ensures world.inherited == old(world.inherited) && Reporting(job)
    {
      world.Note(PublishCalled(call));
    }

    method LeavePublisher(job: JobState) returns (outcome: Result<PublishResult, PublishError>)
      requires Reporting(job)
      modifies world
      ensures world.inherited == old(world.inherited) && Holds(Published(outcome, job))
      ensures world.m.work == if outcome.Success? then Delivered(outcome.value) else Undelivered(outcome.error)
    {
      outcome := *;
      world.Note(PublishReturned(outcome));
    }

    /** The publisher's reports, each remembered. */
    method TakeReports(job0: JobState) returns (job: JobState)
      requires Reporting(job0)
      modifies world
      ensures world.inherited == old(world.inherited)
      ensures Reporting(job)
      ensures job == job0.(publishStage := job.publishStage, publishResult := job.publishResult)
    {
      job := job0;
      var reports: nat := *;
      while reports > 0
        invariant Reporting(job)
        invariant job == job0.(publishStage := job.publishStage, publishResult := job.publishResult)
        invariant world.inherited == old(world.inherited)
      {
        reports := reports - 1;
        var commits: bool := *;
        if commits {
          var commit: PublishResult := *;
          var _, next := RecordCommit(job, commit);
          job := next;
        } else {
          var stage: PublishStage := *;
          var _, next := RecordStage(job, stage);
          job := next;
        }
      }
    }

    /** What `publish` may be entered with: an ACCEPT heard just now, or a publication owed by the record. */
    ghost predicate ReadyToPublish(job: JobState)
      reads world
    {
      && world.Valid() && Live(world.m) && !world.m.halted && Quiet(world.o)
      && world.identity.run.Publishes() && CaughtUpWith(job)
      && job.status.Running? && world.m.store.value.status.Running? && job.quotaWait.None?
      && (|| (&& world.m.work.Heard? && world.m.work.decision.Accept?
              && job == world.m.store.value.(lastSupervisorDecision := Some(world.m.work.decision),
                                             acceptedRepositoryState := Some(world.m.work.review.snapshot)))
          || (world.m.work.Idle? && job.pendingOperation == Some(Publication) && world.m.store == Some(job)))
    }

    /** A publication that came to its end: nothing is owed, and the tree was clean afterwards. */
    predicate PublishedCleanly(job: JobState, result: Option<PublishResult>) {
      && job.status == JobStatus.Published && job.pendingOperation.None? && job.publishResult == result
      && job.lastRepositoryState.Some? && job.lastRepositoryState.value.IsClean()
    }

    method PublishJob(job0: JobState) returns (r: Outcome<JobState>)
      requires ReadyToPublish(job0) && world.o.cleared
      modifies world, control
      ensures world.inherited == old(world.inherited)
      ensures r.Failure? ==> Faulted(r.error)
      ensures r.Success? ==> Concluded(r.value)
      ensures r.Success? ==>
        r.value.status.WaitingHuman? || EndedHere(r.value) || PublishedCleanly(r.value, r.value.publishResult)
    {
      var job := job0;
      if job.acceptedRepositoryState.None? {
        r := WaitForHuman(job);
        return;
      }
      var accepted := job.acceptedRepositoryState.value;
      if !(job.lastSupervisorDecision.Some? && job.lastSupervisorDecision.value.Accept?) {
        r := WaitForHuman(job);
        return;
      }
      var commitTitle := job.lastSupervisorDecision.value.commitTitle;
      // The single write that records an owed publication.
      job := job.(status := Publishing, phase := PublisherPhase, pendingOperation := Some(Publication));
      var _ :- Persist(PublicationOwed, job);
      var _ :- Emit(job, PublishStarted(commitTitle));
      var recovering := job.publishStage.Some? || job.publishResult.Some?;
      var call := if recovering then Recover(accepted, commitTitle, job.publishStage, job.publishResult)
                  else PublishFresh(accepted, commitTitle);
      var outcome, told := CallPublisher(call, job);
      if outcome.Success? {
        job := told.(publishResult := Some(outcome.value));
        r := FinishPublication(job);
      } else {
        r := AbandonPublication(told, outcome.error);
      }
    }

    method FinishPublication(job0: JobState) returns (r: Outcome<JobState>)
      requires Holds(job0) && world.m.work.Delivered? && job0.publishResult == Some(world.m.work.published)
      requires job0.status.Publishing?
      modifies world, control
      ensures world.inherited == old(world.inherited)
      ensures r.Failure? ==> Faulted(r.error)
      ensures r.Success? ==> Concluded(r.value)
      ensures r.Success? ==> EndedHere(r.value) || PublishedCleanly(r.value, job0.publishResult)
    {
      var alive, job :- SafePoint(job0);
      if !alive {
        return Success(job);
      }
      r := ClosePublication(job);
    }

    /** PUBLISHED needs a clean working tree after the commit. */
    method ClosePublication(job0: JobState) returns (r: Outcome<JobState>)
      requires Holds(job0) && world.m.work.Delivered? && job0.publishResult == Some(world.m.work.published)
      requires world.o.cleared
      modifies world
      ensures world.inherited == old(world.inherited)
      ensures r.Failure? ==> Faulted(r.error)
      ensures r.Success? ==> Concluded(r.value)
      ensures r.Failure? ==> r.error.Repository? || Blames(r.error, PostCommitWorkingTreeDirty)
      ensures r.Success? ==> r.value == job0.(status := JobStatus.Published, pendingOperation := None,
                                              lastRepositoryState := r.value.lastRepositoryState)
      ensures r.Success? ==> r.value.lastRepositoryState.Some? && r.value.lastRepositoryState.value.IsClean()
    {
      var job := job0;
      var captured := world.Collect();
      if captured.Failure? {
        var _, _ :- Fail(job);
        return Failure(Repository(captured.error));
      }
      var postCommit := captured.value;
      if !postCommit.IsClean() {
        var _, _ :- Fail(job);
        return Failure(PostCommitWorkingTreeDirty);
      }
      job := job.(status := JobStatus.Published, pendingOperation := None, lastRepositoryState := Some(postCommit));
      var _ :- Persist(PublicationDone, job);
      r := AnnouncePublication(job, postCommit);
    }

    method AnnouncePublication(job: JobState, postCommit: RepositoryState) returns (r: Outcome<JobState>)
      requires world.Valid() && world.m.store == Some(job) && job.status == JobStatus.Published
      requires job.publishResult.Some? && job.lastRepositoryState == Some(postCommit)
      requires world.o.sent.None? && !world.o.refused && !world.m.work.InPublish?
      requires world.o.due == CaptureEvent(job, Announcing(JobEventKind.Published(job.publishResult.value), job.status))
      modifies world
      ensures world.inherited == old(world.inherited)
      ensures r.Failure? ==> Unwritten(r.error)
      ensures r.Success? ==> Concluded(job) && r.value == job
    {
      var _ :- Emit(job, RepositoryCaptured(postCommit));
      var _ :- Conclude(job, JobEventKind.Published(job.publishResult.value));
      r := Success(job);
    }

    method AbandonPublication(job0: JobState, error: PublishError) returns (r: Outcome<JobState>)
      requires Holds(job0) && world.m.work == Undelivered(error) && job0.status.Publishing?
      modifies world, control
      ensures world.inherited == old(world.inherited)
      ensures r.Failure? ==> Faulted(r.error)
      ensures r.Success? ==> Concluded(r.value)
      ensures r.Failure? ==> Blames(r.error, Publish(error))
      ensures r.Failure? && r.error.Publish? && error.PushRejected? ==>
                world.m.store.Some? && world.m.store.value.publishResult == Some(error.result)
      ensures r.Success? ==>
        EndedHere(r.value) || (error.RecoveryAmbiguous? && r.value.status.WaitingHuman?)
    {
      var alive, job :- SafePoint(job0);
      if !alive {
        return Success(job);
      }
      if error.RecoveryAmbiguous? {
        r := WaitForHuman(job);
        return;
      }
      if error.PushRejected? {
        job := job.(publishResult := Some(error.result));
      }
      var _, _ :- Fail(job);
      r := Failure(Publish(error));
    }

    // ---- The loop -------------------------------------------------------------------------------

    ghost predicate AtStage(job: JobState, repository: RepositoryState, stage: Stage)
      reads world
    {
      match stage
      case SuperviseStage(anew) =>
        Settled(job, repository) && job.pendingOperation == if anew then None else Some(SupervisorReview)
      case ExecuteStage => Settled(job, repository) && job.pendingOperation == Some(ExecutorRun)
      case PublicationStage => ReadyToPublish(job)
    }

    /** Nothing is in flight, the record is `job`, and the repository is the one it last captured. */
    ghost predicate Settled(job: JobState, repository: RepositoryState)
      reads world
    {
      && world.Valid() && Live(world.m) && !world.m.halted && world.m.work.Idle? && Quiet(world.o)
      && world.m.store == Some(job) && job.status.Running? && job.quotaWait.None?
      && job.lastRepositoryState == Some(repository)
      && CaughtUpWith(job)
    }

    predicate HasClaudeDecision(job: JobState) {
      job.lastSupervisorDecision.Some? && job.lastSupervisorDecision.value.Claude?
    }

    /** One supervisor review, from the write that owes it to the write its decision calls for. */
    method SuperviseTurn(job0: JobState, repository: RepositoryState, anew: bool)
        returns (r: Outcome<Turn>, job: JobState)
      requires AtStage(job0, repository, SuperviseStage(anew)) && world.o.cleared
      modifies world, control
      ensures world.inherited == old(world.inherited)
      ensures r.Failure? ==> Faulted(r.error)
      ensures r == Success(Finished) ==> Concluded(job)
      ensures r.Success? && r.value.Continue? ==>
        && !r.value.stage.SuperviseStage?
        && AtStage(job, repository, r.value.stage)
        && (r.value.stage.ExecuteStage? ==> HasClaudeDecision(job))
        && job.identity == job0.identity
        && job.iteration == (if anew then job0.iteration + 1 else job0.iteration)
        && (anew ==> job.iteration <= job.identity.run.maxIterations)
      ensures anew && job0.iteration >= job0.identity.run.maxIterations ==>
                r.Failure? && Blames(r.error, IterationLimit(job0.identity.run.maxIterations))
    {
      job := job0;
      if anew {
        var limit := job.identity.run.maxIterations;
        if job.iteration >= limit {
          var _, _ :- Fail(job);
          return Failure(IterationLimit(limit)), job;
        }
        job := job.(iteration := job.iteration + 1);
      }
      job := job.(status := Running, phase := SupervisorPhase, pendingOperation := Some(SupervisorReview));
      var _ :- Persist(ReviewBegun, job);
      r, job := AskSupervisor(job, repository);
    }

    /** The review itself; its answer is acted on only after a safe point. */
    method AskSupervisor(job0: JobState, repository: RepositoryState) returns (r: Outcome<Turn>, job: JobState)
      requires world.Valid() && Live(world.m) && !world.m.halted && world.m.work.ReviewOwed?
      requires world.o.sent.None? && !world.o.refused
      requires ReviewFor(job0).Some? && world.o.due == Once(SupervisorStarted(ReviewFor(job0).value))
      requires world.m.store == Some(job0) && job0.status.Running? && job0.quotaWait.None?
      requires job0.pendingOperation == Some(SupervisorReview) && job0.lastRepositoryState == Some(repository)
      requires CaughtUpWith(job0)
      modifies world, control
      ensures world.inherited == old(world.inherited)
      ensures r.Failure? ==> Faulted(r.error)
      ensures r == Success(Finished) ==> Concluded(job)
      ensures r.Success? && r.value.Continue? ==>
        && !r.value.stage.SuperviseStage?
        && AtStage(job, repository, r.value.stage)
        && (r.value.stage.ExecuteStage? ==> HasClaudeDecision(job))
        && exists decision :: DecisionFollowed(job0, job, repository, decision)
    {
      job := job0;
      var review := ReviewRequest(job.identity.task, job.iteration, job.lastExecutorReport, repository,
                                  job.appliedUserInstructions);
      var _ :- Emit(job, SupervisorStarted(review));
      var answer := world.Decide(review);
      r, job := ActOnReview(job, review, answer);
    }

    /** The answer, after a safe point. */
    method ActOnReview(job0: JobState, review: ReviewRequest, answer: Result<SupervisorDecision, ProviderError>)
        returns (r: Outcome<Turn>, job: JobState)
      requires Holds(job0) && world.m.store == Some(job0) && job0.status.Running?
      requires job0.pendingOperation == Some(SupervisorReview) && job0.lastRepositoryState == Some(review.snapshot)
      requires world.m.work == if answer.Success? then Heard(review, answer.value)
                               else Down(SupervisorReview, answer.error)
      modifies world, control
      ensures world.inherited == old(world.inherited)
      ensures r.Failure? ==> Faulted(r.error)
      ensures r == Success(Finished) ==> Concluded(job)
      ensures r.Success? && r.value.Continue? ==>
        && !r.value.stage.SuperviseStage?
        && AtStage(job, review.snapshot, r.value.stage)
        && (r.value.stage.ExecuteStage? ==> HasClaudeDecision(job))
        && answer.Success? && DecisionFollowed(job0, job, review.snapshot, answer.value)
    {
      job := job0;
      var alive, next :- SafePoint(job);
      job := next;
      if !alive {
        return Success(Finished), job;
      }
      if answer.Failure? {
        r, job := ReviewFailed(job, answer.error);
      } else {
        r, job := FollowDecision(job, review, answer.value);
        if r.Success? && r.value.Continue? {
          InstructedBeforeDecision(job0, next, job, review.snapshot, answer.value);
        }
      }
    }

    method ReviewFailed(job0: JobState, error: ProviderError) returns (r: Outcome<Turn>, job: JobState)
      requires world.Valid() && Live(world.m) && !world.m.halted && world.m.store == Some(job0)
      requires job0.status.Running? && job0.pendingOperation == Some(SupervisorReview)
      requires world.m.work == Down(SupervisorReview, error) && world.o.cleared && Quiet(world.o)
      modifies world
      ensures world.inherited == old(world.inherited)
      ensures r.Failure? ==> Faulted(r.error)
      ensures r.Success? ==> r == Success(Finished) && Concluded(job)
      ensures r.Failure? ==> Blames(r.error, OrchestrationError.Supervisor(error))
      ensures error.QuotaExceeded? ==> r.Success? || r.error.State? || r.error.Event?
    {
      job := job0;
      if error.QuotaExceeded? {
        var _, waiting :- WaitForQuota(job, "OpenAI", SupervisorReview, error.source, error.detail);
        return Success(Finished), waiting;
      }
      var _, _ :- Fail(job);
      r := Failure(OrchestrationError.Supervisor(error));
    }

    method FollowDecision(job0: JobState, review: ReviewRequest, decision: SupervisorDecision)
        returns (r: Outcome<Turn>, job: JobState)
      requires world.Valid() && Live(world.m) && !world.m.halted && world.m.store == Some(job0)
      requires job0.status.Running? && job0.quotaWait.None? && job0.pendingOperation == Some(SupervisorReview)
      requires job0.lastRepositoryState == Some(review.snapshot) && world.m.work == Heard(review, decision)
      requires world.o.cleared && Quiet(world.o)
      requires CaughtUpWith(job0)
      modifies world
      ensures world.inherited == old(world.inherited)
      ensures r.Failure? ==> Unwritten(r.error)
      ensures r == Success(Finished) ==> Concluded(job)
      ensures r.Success? ==>
        match decision
        case Claude(_, _) => r.value == Continue(ExecuteStage)
        case Accept(_, _, _) =>
          if PublisherEnabled() then r.value == Continue(PublicationStage)
          else r.value.Finished? && job.status.Accepted?
        case Human(_) => r.value.Finished? && job.status.WaitingHuman?
        case Stop(_) => r.value.Finished? && job.status == JobStatus.Stopped
      ensures r.Success? && r.value.Continue? ==>
        && !r.value.stage.SuperviseStage?
        && AtStage(job, review.snapshot, r.value.stage)
        && (r.value.stage.ExecuteStage? ==> HasClaudeDecision(job))
        && DecisionFollowed(job0, job, review.snapshot, decision)
    {
      job := job0.(lastSupervisorDecision := Some(decision));
      var _ :- Emit(job, SupervisorFinished(decision));
      match decision {
        case Claude(_, _) =>
          job := job.(phase := ExecutorPhase, pendingOperation := Some(ExecutorRun));
          var _ :- Persist(RunDirected, job);
          r := Success(Continue(ExecuteStage));
        case Accept(_, _, _) =>
          job := job.(acceptedRepositoryState := Some(review.snapshot));
          if PublisherEnabled() {
            // Nothing is written here: `PublishJob` performs the single write that owes a publication.
            return Success(Continue(PublicationStage)), job;
          }
          r, job := CloseJob(job, Accepted);
        case Human(_) =>
          r, job := CloseJob(job, WaitingHuman);
        case Stop(_) =>
          r, job := CloseJob(job, JobStatus.Stopped);
      }
    }

    /** A decision that ends the job here: nothing stays owed, and the record says so before any event does. */
    method CloseJob(job0: JobState, status: JobStatus) returns (r: Outcome<Turn>, job: JobState)
      requires world.Valid() && IsOutcome(status)
      requires MayWrite(world.m, world.o, DecisionClosed, job0.(status := status, pendingOperation := None))
      requires Quiet(world.o)
      requires world.m.store.Some?
      modifies world
      ensures world.inherited == old(world.inherited)
      ensures r.Failure? ==> Unwritten(r.error)
      ensures r.Success? ==> r == Success(Finished) && Concluded(job)
                             && job == job0.(status := status, pendingOperation := None)
    {
      job := job0.(status := status, pendingOperation := None);
      var _ :- Persist(DecisionClosed, job);
      if status.WaitingHuman? {
        var _ :- Emit(job, WaitingForHuman);
      } else if status == JobStatus.Stopped {
        var _ :- Emit(job, JobEventKind.Stopped(None));
      }
      var _ :- Emit(job, JobFinished(status));
      r := Success(Finished);
    }

    /** One executor run, from the request built on the recorded decision to the captured repository. */
    method ExecuteTurn(job0: JobState, repository0: RepositoryState)
        returns (r: Outcome<Turn>, job: JobState, repository: RepositoryState)
      requires AtStage(job0, repository0, ExecuteStage) && world.o.cleared
      modifies world, control
      ensures world.inherited == old(world.inherited)
      ensures r.Failure? ==> FailedDurably(r.error)
      ensures r.Failure? && r.error == InvalidTransition(NoClaudeDecision) ==> !HasClaudeDecision(job0)
      ensures r == Success(Finished) ==> Concluded(job)
      ensures r.Success? && r.value.Continue? ==>
        && r.value.stage == SuperviseStage(true) && AtStage(job, repository, r.value.stage)
        && job.identity == job0.identity && job.iteration == job0.iteration
      ensures !HasClaudeDecision(job0) ==> r.Failure? && Blames(r.error, InvalidTransition(NoClaudeDecision))
      ensures HasClaudeDecision(job0) && SessionFor(job0).None? ==>
                r.Failure? && Blames(r.error, InvalidTransition(NoResumableSession))
    {
      job, repository := job0, repository0;
      if !HasClaudeDecision(job) {
        var _, _ :- Fail(job);
        return Failure(InvalidTransition(NoClaudeDecision)), job, repository;
      }
      var session := SessionFor(job);
      if session.None? {
        var _, _ :- Fail(job);
        return Failure(InvalidTransition(NoResumableSession)), job, repository;
      }
      var run := ExecutorRequest(job.lastSupervisorDecision.value.prompt, session.value, job.identity.run.browser,
                                 job.appliedUserInstructions);
      world.Note(RunPrepared(run));
      r, job, repository := CallExecutor(job, run, repository);
    }

    /** The prepared request is sent only after one more safe point. */
    method CallExecutor(job0: JobState, run: ExecutorRequest, repository0: RepositoryState)
        returns (r: Outcome<Turn>, job: JobState, repository: RepositoryState)
      requires Holds(job0) && world.m.store == Some(job0) && world.m.work == Prepared(run)
      requires job0.status.Running? && job0.pendingOperation == Some(ExecutorRun)
      modifies world, control
      ensures world.inherited == old(world.inherited)
      ensures r.Failure? ==> Faulted(r.error)
      ensures r == Success(Finished) ==> Concluded(job)
      ensures r.Success? && r.value.Continue? ==>
        && r.value.stage == SuperviseStage(true) && AtStage(job, repository, r.value.stage)
        && job.identity == job0.identity && job.iteration == job0.iteration
        && exists result :: RunTakenIn(job0, job, repository, result)
    {
      job, repository := job0, repository0;
      var alive, next :- SafePoint(job);
      job := next;
      if !alive {
        return Success(Finished), job, repository;
      }
      r, job, repository := PerformRun(next, run, repository);
      if r.Success? && r.value.Continue? {
        ghost var result :| RunTakenIn(next, job, repository, result);
        InstructedBeforeRun(job0, next, job, repository, result);
      }
    }

    /** The run itself, as prepared and passed. */
    method PerformRun(job0: JobState, run: ExecutorRequest, repository0: RepositoryState)
        returns (r: Outcome<Turn>, job: JobState, repository: RepositoryState)
      requires Holds(job0) && world.m.store == Some(job0) && world.m.work == Prepared(run) && world.o.cleared
      requires job0.status.Running? && job0.pendingOperation == Some(ExecutorRun)
      modifies world, control
      ensures world.inherited == old(world.inherited)
      ensures r.Failure? ==> Faulted(r.error)
      ensures r == Success(Finished) ==> Concluded(job)
      ensures r.Success? && r.value.Continue? ==>
        && r.value.stage == SuperviseStage(true) && AtStage(job, repository, r.value.stage)
        && exists result :: RunTakenIn(job0, job, repository, result)
    {
      job, repository := job0, repository0;
      var _ :- Emit(job, ExecutorStarted(run.prompt, run.session));
      var answer := world.Execute(run);
      if answer.Failure? {
        r, job := RunFailed(job, answer.error);
      } else {
        r, job, repository := RecordRun(job, answer.value, repository);
      }
    }

    method RunFailed(job0: JobState, error: ProviderError) returns (r: Outcome<Turn>, job: JobState)
      requires Holds(job0) && world.m.store == Some(job0)
      requires job0.status.Running? && job0.pendingOperation == Some(ExecutorRun)
      requires world.m.work == Down(ExecutorRun, error)
      modifies world, control
      ensures world.inherited == old(world.inherited)
      ensures r.Failure? ==> Faulted(r.error)
      ensures r.Success? ==> r == Success(Finished) && Concluded(job)
      ensures r.Failure? ==> Blames(r.error, OrchestrationError.Executor(error))
      ensures error.QuotaExceeded? ==> r.Success? || r.error.State? || r.error.Event?
      ensures r.Success? && !error.QuotaExceeded? ==> job.status == JobStatus.Stopped || job.status.Paused?
    {
      job := job0;
      var alive, next :- SafePoint(job);
      job := next;
      if !alive {
        return Success(Finished), job;
      }
      if error.QuotaExceeded? {
        var _, waiting :- WaitForQuota(job, "Claude", ExecutorRun, error.source, error.detail);
        return Success(Finished), waiting;
      }
      var _, _ :- Fail(job);
      r := Failure(OrchestrationError.Executor(error));
    }

    /** The completed run is made durable before any interruptible boundary. */
    method RecordRun(job0: JobState, result: ExecutorResult, repository0: RepositoryState)
        returns (r: Outcome<Turn>, job: JobState, repository: RepositoryState)
      requires Holds(job0) && world.m.store == Some(job0)
      requires job0.status.Running? && world.m.work == Ran(result)
      modifies world, control
      ensures world.inherited == old(world.inherited)
      ensures r.Failure? ==> Faulted(r.error)
      ensures r == Success(Finished) ==> Concluded(job)
      ensures r.Success? && r.value.Continue? ==>
        && r.value.stage == SuperviseStage(true) && AtStage(job, repository, r.value.stage)
        && RunTakenIn(job0, job, repository, result)
    {
      job, repository := job0, repository0;
      if !NoSession(result.sessionId) {
        job := job.(claudeSessionId := result.sessionId);
      }
      job := job.(lastExecutorReport := Some(result.finalResponse), phase := SupervisorPhase, pendingOperation := None);
      var _ :- Persist(RunRecorded, job);
      var _ :- Emit(job, ExecutorFinished(result));
      r, job, repository := CaptureAfterRun(job, repository);
    }

    method CaptureAfterRun(job0: JobState, repository0: RepositoryState)
        returns (r: Outcome<Turn>, job: JobState, repository: RepositoryState)
      requires world.Valid() && Live(world.m) && !world.m.halted && world.m.work.Recorded?
      requires world.m.store == Some(job0) && job0.status.Running? && job0.quotaWait.None?
      requires job0.pendingOperation.None?
      requires Quiet(world.o)
      requires CaughtUpWith(job0)
      modifies world, control
      ensures world.inherited == old(world.inherited)
      ensures r.Failure? ==> Faulted(r.error)
      ensures r == Success(Finished) ==> Concluded(job)
      ensures r.Success? && r.value.Continue? ==>
        && r.value.stage == SuperviseStage(true) && AtStage(job, repository, r.value.stage)
        && Instructed(job0.(lastRepositoryState := Some(repository)), job)
      ensures r.Failure? ==> r.error.Repository? || r.error.State? || r.error.Event?
      ensures r.Success? && r.value.Continue? ==> world.o.cleared
    {
      job, repository := job0, repository0;
      var captured := world.Collect();
      if captured.Failure? {
        var _, _ :- Fail(job);
        return Failure(Repository(captured.error)), job, repository;
      }
      repository := captured.value;
      r, job := TakeSnapshot(job, repository);
    }

    method TakeSnapshot(job0: JobState, repository: RepositoryState) returns (r: Outcome<Turn>, job: JobState)
      requires world.Valid() && Live(world.m) && !world.m.halted && world.m.work.Recorded?
      requires world.m.store == Some(job0) && job0.status.Running? && job0.quotaWait.None?
      requires job0.pendingOperation.None?
      requires Quiet(world.o)
      requires world.o.seen == Some(repository) && !world.o.blind
      requires CaughtUpWith(job0)
      modifies world, control
      ensures world.inherited == old(world.inherited)
      ensures r.Failure? ==> Unwritten(r.error)
      ensures r == Success(Finished) ==> Concluded(job)
      ensures r.Success? && r.value.Continue? ==>
        && r.value.stage == SuperviseStage(true) && AtStage(job, repository, r.value.stage)
        && Instructed(job0.(lastRepositoryState := Some(repository)), job)
      ensures r.Success? && r.value.Continue? ==> world.o.cleared
    {
      job := job0.(lastRepositoryState := Some(repository));
      var _ :- Persist(SnapshotTaken, job);
      var _ :- Emit(job, RepositoryCaptured(repository));
      var alive, next :- SafePoint(job);
      job := next;
      r := Success(if alive then Continue(SuperviseStage(true)) else Finished);
    }

    /** How far a stage is from the next counted iteration. */
    function Rank(stage: Stage): nat {
      match stage
      case SuperviseStage(anew) => if anew then 1 else 3
      case ExecuteStage => 2
      case PublicationStage => 0
    }

    /**
     Drive a job until it is over for this process. It always ends; on success the record is the returned job and
     its status is an outcome, on any error other than a store failure the record says FAILED.
     */
    method Drive(job0: JobState, repository0: RepositoryState, stage0: Stage) returns (r: Outcome<JobState>)
      requires AtStage(job0, repository0, stage0)
      requires job0.iteration <= job0.identity.run.maxIterations
      requires stage0.ExecuteStage? ==> HasClaudeDecision(job0)
      modifies world, control
      ensures world.inherited == old(world.inherited)
      ensures r.Success? ==> Concluded(r.value)
      ensures r.Failure? ==> FailedDurably(r.error) && r.error != InvalidTransition(NoClaudeDecision)
    {
      var job, repository, stage := job0, repository0, stage0;
      while true
        invariant AtStage(job, repository, stage)
        invariant job.iteration <= job.identity.run.maxIterations
        invariant stage.ExecuteStage? ==> HasClaudeDecision(job)
        invariant world.inherited == old(world.inherited)
        decreases job.identity.run.maxIterations - job.iteration, Rank(stage)
      {
        var alive, next :- BeginTurn(job, repository, stage);
        job := next;
        if !alive {
          return Success(job);
        }
        if stage.PublicationStage? {
          r := PublishJob(job);
          return;
        }
        var turn, after, captured :- TakeTurn(job, repository, stage);
        job, repository := after, captured;
        if turn.Finished? {
          return Success(job);
        }
        stage := turn.stage;
      }
    }

    /** The safe point every turn begins with. */
    method BeginTurn(job0: JobState, repository: RepositoryState, stage: Stage)
        returns (r: Outcome<bool>, job: JobState)
      requires AtStage(job0, repository, stage)
      modifies world, control
      ensures world.inherited == old(world.inherited)
      ensures r.Failure? ==> Unwritten(r.error)
      ensures r == Success(true) ==> AtStage(job, repository, stage) && world.o.cleared && Instructed(job0, job)
      ensures r == Success(false) ==> Concluded(job)
    {
      r, job := SafePoint(job0);
    }

    /** One stage other than publication; the loop comes closer to its end with each. */
    method TakeTurn(job0: JobState, repository0: RepositoryState, stage: Stage)
        returns (r: Outcome<Turn>, job: JobState, repository: RepositoryState)
      requires AtStage(job0, repository0, stage) && world.o.cleared && !stage.PublicationStage?
      requires job0.iteration <= job0.identity.run.maxIterations
      requires stage.ExecuteStage? ==> HasClaudeDecision(job0)
      modifies world, control
      ensures world.inherited == old(world.inherited)
      ensures r.Failure? ==> FailedDurably(r.error) && r.error != InvalidTransition(NoClaudeDecision)
      ensures r == Success(Finished) ==> Concluded(job)
      ensures r.Success? && r.value.Continue? ==>
        && AtStage(job, repository, r.value.stage)
        && (r.value.stage.ExecuteStage? ==> HasClaudeDecision(job))
        && job.identity == job0.identity && job0.iteration <= job.iteration <= job.identity.run.maxIterations
        && (job.iteration == job0.iteration ==> Rank(r.value.stage) < Rank(stage))
    {
      job, repository := job0, repository0;
      if stage.ExecuteStage? {
        r, job, repository := ExecuteTurn(job, repository);
      } else {
        r, job := SuperviseTurn(job, repository, stage.anew);
      }
    }

    // ---- Starting and resuming ------------------------------------------------------------------

    predicate Acceptable(privateContext: string) {
      && !Blank(world.identity.task) && !Blank(world.identity.jobId) && !Blank(privateContext)
      && world.identity.run.maxIterations > 0 && world.identity.run.maxJobs > 0
    }

    /** The five refusals of `validate_request`, in its order; `None` is an acceptable request. */
    method ValidateRequest(privateContext: string) returns (refusal: Option<InvalidTransitionReason>)
      ensures refusal.None? <==> Acceptable(privateContext)
      ensures match refusal
              case None => true
              case Some(EmptyTask) => Blank(world.identity.task)
              case Some(EmptyJobId) => !Blank(world.identity.task) && Blank(world.identity.jobId)
              case Some(reason) =>
                && !Blank(world.identity.task) && !Blank(world.identity.jobId)
                && (|| (reason.EmptyContext? && Blank(privateContext))
                    || (reason.ZeroIterations? && !Blank(privateContext) && world.identity.run.maxIterations == 0)
                    || (reason.ZeroJobs? && !Blank(privateContext) && world.identity.run.maxIterations > 0
                        && world.identity.run.maxJobs == 0))
    {
      if Blank(world.identity.task) {
        return Some(EmptyTask);
      }
      if Blank(world.identity.jobId) {
        return Some(EmptyJobId);
      }
      if Blank(privateContext) {
        return Some(EmptyContext);
      }
      if world.identity.run.maxIterations == 0 {
        return Some(ZeroIterations);
      }
      if world.identity.run.maxJobs == 0 {
        return Some(ZeroJobs);
      }
      refusal := None;
    }

    /** The working tree a new job starts from; without a clean one nothing is saved, whatever becomes of the event. */
    method Inspect() returns (r: Outcome<RepositoryState>)
      requires world.Valid() && world.m == INITIAL && world.o == NOTHING_YET
      modifies world
      ensures world.Valid() && world.inherited == old(world.inherited) && world.m == INITIAL
      ensures r.Success? <==> world.o.seen.Some? && world.o.seen.value.IsClean()
      ensures r.Success? ==> world.o == NOTHING_YET.(seen := Some(r.value))
      ensures r.Failure? ==>
        r.error.Event? || if world.o.seen.None? then r.error.Repository? else r.error.RepositoryDirty?
    {
      var captured := world.Collect();
      if captured.Failure? {
        var written := world.Emit(FailedEvent);
        return Failure(if written then Repository(captured.error) else Event);
      }
      if !captured.value.IsClean() {
        var written := world.Emit(FailedEvent);
        return Failure(if written then RepositoryDirty else Event);
      }
      r := Success(captured.value);
    }

    /** Start a new job: nothing is saved unless the request is valid and the working tree is clean. */
    method Run(privateContext: string) returns (r: Outcome<JobState>)
      requires world.Valid() && world.m == INITIAL && world.o == NOTHING_YET && world.identity.run.Coherent()
      modifies world, control
      ensures world.Valid() && world.inherited == old(world.inherited)
      ensures r.Success? ==> Concluded(r.value)
      ensures r.Failure? ==> r.error.State? || world.m.store.None? || world.m.store.value.status.Failed?
      ensures r.Failure? && r.error.RepositoryDirty? ==> world.m.store.None?
      ensures world.m.store.Some? ==> StartedClean(world.history)
      ensures !Acceptable(privateContext) ==> r.Failure? && r.error.InvalidTransition? && world.m == INITIAL
    {
      var refusal := ValidateRequest(privateContext);
      if refusal.Some? {
        return Failure(InvalidTransition(refusal.value));
      }
      var repository :- Inspect();
      r := Begin(repository);
      if world.m.store.Some? {
        SavedMeansStartedClean(world.history);
      }
    }

    /** The first record, the first events, and the loop. */
    method Begin(repository: RepositoryState) returns (r: Outcome<JobState>)
      requires world.Valid() && world.m == INITIAL && world.o == NOTHING_YET.(seen := Some(repository))
      requires repository.IsClean() && world.identity.run.Coherent()
      requires !Blank(world.identity.task) && !Blank(world.identity.jobId)
      requires world.identity.run.maxIterations > 0 && world.identity.run.maxJobs > 0
      modifies world, control
      ensures world.Valid() && world.inherited == old(world.inherited)
      ensures r.Success? ==> Concluded(r.value)
      ensures r.Failure? ==> r.error.State? || (world.m.store.Some? && world.m.store.value.status.Failed?)
      ensures r.Failure? ==> !r.error.RepositoryDirty?
    {
      var job := FreshJob(world.identity, repository);
      var _ :- Persist(JobCreated, job);
      var _ :- Emit(job, JobStarted(job.identity.task));
      var _ :- Emit(job, RepositoryCaptured(repository));
      r := Drive(job, repository, SuperviseStage(true));
    }

    /**
     Continue a job an earlier process left behind, from its stored record alone. A record nothing can be continued
     from is parked for a human; a terminal one, or one whose repository cannot be read, is left as it is.
     */
    method ResumeJob(job0: JobState, privateContext: string) returns (r: Outcome<JobState>)
      requires world.Valid() && world.m.store == Some(job0) && world.m.work.Booting?
      requires !world.m.halted && world.o == Awakened(world.m)
      requires CaughtUpWith(job0)
      modifies world, control
      ensures world.Valid() && world.inherited == old(world.inherited)
      ensures r.Success? ==> Concluded(r.value)
      ensures r.Failure? ==>
        || r.error.State? || (world.m.store.Some? && world.m.store.value.status.Failed?)
        || (world.m.store == Some(job0)
            && match r.error
               case InvalidTransition(transition) => transition == EmptyContext
               case ResumeRefused(rejection) => PlanFor(job0) == Failure(rejection) && rejection.NotResumable?
               case Repository(_) => PlanFor(job0).Success?
               case _ => false)
        || (&& r.error.ResumeRefused? && PlanFor(job0) == Failure(r.error.rejection)
            && world.m.store == Some(job0.(status := WaitingHuman)))
    {
      if Blank(privateContext) {
        return Failure(InvalidTransition(EmptyContext));
      }
      HistorySound(world.history);
      var job := job0;
      var _ :- Emit(job, ResumeStarted(job.status, job.pendingOperation));
      var plan := PlanFor(job);
      if plan.Failure? {
        if plan.error.NotResumable? {
          var _ :- Emit(job, ResumeRejected);
        } else {
          var _ :- WaitForHuman(job);
        }
        return Failure(ResumeRefused(plan.error));
      }
      var captured := world.Collect();
      if captured.Failure? {
        var _ :- Emit(job, ResumeRejected);
        return Failure(Repository(captured.error));
      }
      var repository := captured.value;
      if plan.value != ResumePublication && job.lastRepositoryState != Some(repository) {
        r := WaitForHuman(job);
        return;
      }
      r := ContinueFrom(job, repository, plan.value);
    }

    /** Reality was proven: the record becomes RUNNING and the loop is entered where the plan says. */
    method ContinueFrom(job0: JobState, repository: RepositoryState, continuation: ResumeContinuation)
        returns (r: Outcome<JobState>)
      requires world.Valid() && world.m.store == Some(job0) && world.m.work.Booting?
      requires !world.m.halted && Quiet(world.o)
      requires CaughtUpWith(job0)
      requires PlanFor(job0) == Success(continuation) && world.o.seen == Some(repository)
      requires continuation != ResumePublication ==> job0.lastRepositoryState == Some(repository)
      requires job0.iteration <= job0.identity.run.maxIterations
      modifies world, control
      ensures world.Valid() && world.inherited == old(world.inherited)
      ensures r.Success? ==> Concluded(r.value)
      ensures r.Failure? ==> FailedDurably(r.error)
    {
      var stage := StageFor(continuation);
      var _ :- Emit(job0, ResumeValidated(continuation));
      if job0.quotaWait.Some? {
        var _ :- Emit(job0, QuotaRetryStarted(job0.quotaWait.value.operation));
      }
      r := EnterLoop(job0, repository, stage, continuation);
    }

    method EnterLoop(job0: JobState, repository: RepositoryState, stage: Stage, continuation: ResumeContinuation)
        returns (r: Outcome<JobState>)
      requires world.Valid() && world.m.store == Some(job0) && world.m.work.Booting?
      requires !world.m.halted && Quiet(world.o)
      requires CaughtUpWith(job0)
      requires PlanFor(job0) == Success(continuation) && world.o.seen == Some(repository)
      requires continuation != ResumePublication ==> job0.lastRepositoryState == Some(repository)
      requires job0.iteration <= job0.identity.run.maxIterations
      requires stage == StageFor(continuation)
      requires world.o.announced == Some(if job0.quotaWait.Some? then QuotaRetryStarted(job0.quotaWait.value.operation)
                                             else ResumeValidated(continuation))
      modifies world, control
      ensures world.Valid() && world.inherited == old(world.inherited)
      ensures r.Success? ==> Concluded(r.value)
      ensures r.Failure? ==> FailedDurably(r.error)
    {
      var job := job0.(quotaWait := None, status := Running);
      var _ :- Persist(ResumeAccepted, job);
      r := Drive(job, repository, stage);
    }
  }
}
