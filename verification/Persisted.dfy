/** What every record a crash can leave behind satisfies. */
module Persisted {
  import opened Wrappers
  import opened JobStates
  import opened Protocol

  ghost predicate Persistable(s: JobState) {
    && !Text.Blank(s.identity.jobId) && !Text.Blank(s.identity.task)
    && s.identity.run.maxIterations > 0 && s.identity.run.maxJobs > 0 && s.identity.run.Coherent()
    && !s.status.Queued?
    && s.iteration <= s.identity.run.maxIterations
    && s.lastRepositoryState.Some?
    && WithinBudget(s.Active())
    && OwedFits(s)
    && StatusFits(s)
  }

  /** The pending operation never lacks what it needs. */
  ghost predicate OwedFits(s: JobState) {
    match s.pendingOperation
    case None => true
    case Some(SupervisorReview) => s.iteration >= 1
    case Some(ExecutorRun) =>
      && s.iteration >= 1 && s.lastSupervisorDecision.Some? && s.lastSupervisorDecision.value.Claude?
      && !Text.Blank(s.lastSupervisorDecision.value.prompt)
    case Some(Publication) =>
      && s.iteration >= 1 && s.identity.run.Publishes() && s.phase.PublisherPhase? && s.acceptedRepositoryState.Some?
      && s.lastSupervisorDecision.Some? && s.lastSupervisorDecision.value.Accept?
  }

  ghost predicate StatusFits(s: JobState) {
    match s.status
    case Publishing => s.pendingOperation == Some(Publication) && s.quotaWait.None?
    case Accepted => s.pendingOperation.None?
    case Published => s.pendingOperation.None? && s.publishResult.Some?
    case WaitingClaudeQuota => s.pendingOperation == Some(ExecutorRun) && WaitsFor(s)
    case WaitingOpenAiQuota => s.pendingOperation == Some(SupervisorReview) && WaitsFor(s)
    case Running => s.quotaWait.None?
    case Paused => s.quotaWait.None?
    case _ => true
  }

  ghost predicate WaitsFor(s: JobState) {
    s.quotaWait.Some? && Some(s.quotaWait.value.operation) == s.pendingOperation
  }

  /** What the process is in the middle of agrees with what the record says it owes. */
  ghost predicate WorkFits(m: Monitor) {
    if m.store.None? then m.work.Booting?
    else
      var s := m.store.value;
      match m.work
      case Booting => true
      case Idle => true
      case ReviewOwed => s.pendingOperation == Some(SupervisorReview)
      case InReview(review) =>
        s.pendingOperation == Some(SupervisorReview)
        && (s.status.IsResumable() ==> s.lastRepositoryState == Some(review.snapshot))
      case Heard(review, decision) =>
        s.pendingOperation == Some(SupervisorReview) && WellFormed(decision)
        && (s.status.IsResumable() ==> s.lastRepositoryState == Some(review.snapshot))
      case Prepared(_) => s.pendingOperation == Some(ExecutorRun)
      case InRun(_) => s.pendingOperation == Some(ExecutorRun)
      case Ran(_) => s.pendingOperation == Some(ExecutorRun)
      case Recorded => s.pendingOperation.None?
      case PublishOwed => s.pendingOperation == Some(Publication)
      case InPublish => s.pendingOperation == Some(Publication)
      case Delivered(_) => s.pendingOperation == Some(Publication)
      case Undelivered(_) => s.pendingOperation == Some(Publication)
      case Down(operation, _) => s.pendingOperation == Some(operation)
  }

  ghost predicate Sound(m: Monitor) {
    WorkFits(m) && (m.store.Some? ==> Persistable(m.store.value))
  }

  lemma StepSound(m: Monitor, o: Observed, a: Action)
    requires Sound(m) && Allowed(m, o, a)
    ensures Sound(Moved(m, a))
  {
    if a.Saved? && m.store.Some? {
      WriteSound(m, o, a.why, a.job);
    }
  }

  lemma WriteSound(m: Monitor, o: Observed, why: Write, job: JobState)
    requires Sound(m) && m.store.Some? && MayWrite(m, o, why, job)
    ensures Sound(Moved(m, Saved(why, job)))
  {
    if Carries(m.work, m.told, m.store.value, job) {
      CarriedWriteSound(m, o, why, job);
    }
  }

  /** Writes that keep the pending operation: statuses, publication progress and instructions. */
  lemma CarriedWriteSound(m: Monitor, o: Observed, why: Write, job: JobState)
    requires Sound(m) && m.store.Some? && MayWrite(m, o, why, job) && Carries(m.work, m.told, m.store.value, job)
    ensures Sound(Moved(m, Saved(why, job)))
  {
    if why.InstructionApplied? || why.InstructionQueued? {
      InstructionWriteSound(m, o, why, job);
    }
  }

  lemma InstructionWriteSound(m: Monitor, o: Observed, why: Write, job: JobState)
    requires Sound(m) && m.store.Some? && MayWrite(m, o, why, job)
    requires why.InstructionApplied? || why.InstructionQueued?
    ensures Sound(Moved(m, Saved(why, job)))
  {
    var s := m.store.value;
    if why.InstructionApplied? {
      assert job.Active() == s.Active();
    } else {
      assert job.Active() == s.Active() + [o.sent.value];
    }
    assert Persistable(job);
  }

  lemma {:induction false} HistorySound(h: seq<Action>)
    requires Lawful(h)
    ensures Sound(After(h).m)
  {
    if h != [] {
      var last := |h| - 1;
      PrefixLawful(h, last);
      HistorySound(h[..last]);
      assert StepPermitted(h, last);
      StepSound(After(h[..last]).m, After(h[..last]).o, h[last]);
    }
  }

  /**
   Over any history, with any number of crashes and resumes in it, every record ever saved is sound.
   */
  lemma {:induction false} EverySavedRecord(h: seq<Action>, i: nat)
    requires Lawful(h) && i < |h| && h[i].Saved?
    ensures Persistable(h[i].job)
  {
    PrefixLawful(h, i + 1);
    HistorySound(h[..i + 1]);
    assert h[..i + 1][..i] == h[..i];
  }

  /** What a resumable record can still lack: a session to give the next correction to. */
  predicate LacksSession(s: JobState) {
    s.pendingOperation == Some(ExecutorRun) && s.lastExecutorReport.Some? && NoSession(s.claudeSessionId)
  }

  /**
   Every resumable record the code leaves behind can be continued, exactly unless a correction was directed and no
   run has ever returned a session. No other refusal of `ResumePlan` can be met, and the continuation is the one the
   pending operation names.
   */
  lemma ResumableRecordsContinue(h: seq<Action>)
    requires Lawful(h) && Stored(h).Some? && Stored(h).value.status.IsResumable()
    ensures PlanFor(Stored(h).value).Success? <==> !LacksSession(Stored(h).value)
    ensures LacksSession(Stored(h).value) ==> PlanFor(Stored(h).value) == Failure(Invalid(CorrectionWithoutSession))
    ensures PlanFor(Stored(h).value).Success? ==>
            PlanFor(Stored(h).value).value ==
            match Stored(h).value.pendingOperation
            case None => Fresh
            case Some(SupervisorReview) => Supervisor
            case Some(ExecutorRun) => Executor
            case Some(Publication) => ResumePublication
  {
    HistorySound(h);
  }

  /** An owed publication without its snapshot or its ACCEPT, or an owed run without its Claude decision. */
  predicate PieceMissing(s: JobState) {
    || (s.pendingOperation == Some(Publication)
        && (s.acceptedRepositoryState.None?
            || !(s.lastSupervisorDecision.Some? && s.lastSupervisorDecision.value.Accept?)))
    || (s.pendingOperation == Some(ExecutorRun)
        && !(s.lastSupervisorDecision.Some? && s.lastSupervisorDecision.value.Claude?))
  }

  /**
   The guards of `publish` and of the executor stage for missing pieces never fire: wherever a job is parked for a
   human by a write of its own, it was still booting or its publisher had just given up, and no record that any write
   starts from or makes misses a piece.
   */
  lemma {:induction false} GuardsNeverFire(h: seq<Action>, i: nat)
    requires Lawful(h) && i < |h| && h[i].Saved?
    ensures h[i].why.HumanWrite? ==> After(h[..i]).m.work.Booting? || After(h[..i]).m.work.Undelivered?
    ensures !PieceMissing(h[i].job) && (Stored(h[..i]).Some? ==> !PieceMissing(Stored(h[..i]).value))
  {
    PrefixLawful(h, i);
    assert StepPermitted(h, i);
    HistorySound(h[..i]);
    EverySavedRecord(h, i);
  }
}
