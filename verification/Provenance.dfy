/** Where a published snapshot, an executor session and a publication attempt come from. */
module Provenance {
  import opened Wrappers
  import opened JobStates
  import opened Protocol
  import opened Persisted

  // ---- The snapshot that is published is the one that was accepted ------------------------------

  /** The latest review of a history, and its answer if it has one. */
  datatype LatestReview =
    | NoReview | Asked(review: ReviewRequest) | Answered(review: ReviewRequest, decision: SupervisorDecision)

  function ReviewOf(h: seq<Action>): LatestReview {
    if h == [] then NoReview else ReviewAfter(ReviewOf(h[..|h| - 1]), h[|h| - 1])
  }

  function ReviewAfter(latest: LatestReview, a: Action): LatestReview {
    match a
    case ReviewCalled(review) => Asked(review)
    case ReviewAnswered(decision) =>
      if latest.Asked? && decision.Success? then Answered(latest.review, decision.value) else latest
    case _ => latest
  }

  ghost predicate Traced(m: Monitor, latest: LatestReview) {
    && (m.work.InReview? ==> latest == Asked(m.work.review))
    && (m.work.Heard? ==> latest == Answered(m.work.review, m.work.decision))
    && (Live(m) && m.store.value.pendingOperation == Some(Publication) ==>
          AcceptedBy(m.store.value, latest))
  }

  /** The record carries exactly what the latest review saw and answered ACCEPT to. */
  ghost predicate AcceptedBy(s: JobState, latest: LatestReview) {
    && latest.Answered? && latest.decision.Accept?
    && s.lastSupervisorDecision == Some(latest.decision)
    && s.acceptedRepositoryState == Some(latest.review.snapshot)
    && s.lastRepositoryState == Some(latest.review.snapshot)
  }

  lemma StepTraced(m: Monitor, o: Observed, latest: LatestReview, a: Action)
    requires Sound(m) && Traced(m, latest) && Allowed(m, o, a)
    ensures Traced(Moved(m, a), ReviewAfter(latest, a))
  {
    if a.Saved? && m.store.Some? {
      WriteTraced(m, o, latest, a.why, a.job);
    }
  }

  lemma WriteTraced(m: Monitor, o: Observed, latest: LatestReview, why: Write, job: JobState)
    requires Sound(m) && Traced(m, latest) && m.store.Some? && MayWrite(m, o, why, job)
    ensures Traced(Moved(m, Saved(why, job)), latest)
  {
  }

  lemma {:induction false} HistoryTraced(h: seq<Action>)
    requires Lawful(h)
    ensures Traced(After(h).m, ReviewOf(h))
  {
    if h != [] {
      var past := h[..|h| - 1];
      PrefixLawful(h, |h| - 1);
      HistoryTraced(past);
      HistorySound(past);
      assert StepPermitted(h, |h| - 1);
      StepTraced(After(past).m, After(past).o, ReviewOf(past), h[|h| - 1]);
    }
  }

  /**
   Every publication attempt, fresh or recovering, in this process or after any number of crashes, carries exactly
   the snapshot shown to the latest review, that review answered ACCEPT with the title used, and the snapshot is
   still the job's last captured state.
   */
  lemma {:induction false} PublishedSnapshotWasAccepted(h: seq<Action>, i: nat)
    requires Lawful(h) && i < |h| && h[i].PublishCalled?
    ensures Stored(h[..i]).Some?
    ensures var latest := ReviewOf(h[..i]);
            && latest.Answered? && latest.decision.Accept?
            && h[i].call.snapshot == latest.review.snapshot
            && h[i].call.commitTitle == latest.decision.commitTitle
            && Stored(h[..i]).value.lastRepositoryState == Some(h[i].call.snapshot)
  {
    LawfulStep(h, i);
    HistoryTraced(h[..i]);
  }

  lemma LawfulStep(h: seq<Action>, i: nat)
    requires Lawful(h) && i < |h|
    ensures Lawful(h[..i]) && Permitted(After(h[..i]), h[i])
  {
    PrefixLawful(h, i);
    assert StepPermitted(h, i);
  }

  // ---- Sessions are continued, never forgotten --------------------------------------------------

  /** The latest non-blank session id recorded with a run, whether any run was recorded, and a run not yet recorded. */
  datatype SessionTrail = SessionTrail(known: Option<string>, reported: bool, returned: Option<ExecutorResult>)

  function SessionsOf(h: seq<Action>): SessionTrail {
    if h == [] then SessionTrail(None, false, None) else SessionsAfter(SessionsOf(h[..|h| - 1]), h[|h| - 1])
  }

  function SessionsAfter(t: SessionTrail, a: Action): SessionTrail {
    match a
    case Booted => t.(returned := None)
    case RunReturned(result) => t.(returned := if result.Success? then Some(result.value) else None)
    case Saved(why, _) =>
      if why.RunRecorded? && t.returned.Some?
      then SessionTrail(SessionAfter(t.known, t.returned.value), true, None) else t
    case _ => t
  }

  ghost predicate SessionKept(m: Monitor, t: SessionTrail) {
    && (m.work.Ran? ==> t.returned == Some(m.work.result))
    && (t.known.Some? ==> t.reported && !NoSession(t.known))
    && (m.store.None? ==> t.known.None? && !t.reported)
    && (m.store.Some? ==>
          && m.store.value.claudeSessionId == t.known
          && m.store.value.lastExecutorReport.Some? == t.reported
          && (m.work.Prepared? ==> SessionFor(m.store.value) == Some(m.work.run.session)))
  }

  lemma StepSession(m: Monitor, o: Observed, t: SessionTrail, a: Action)
    requires Sound(m) && SessionKept(m, t) && Allowed(m, o, a)
    ensures SessionKept(Moved(m, a), SessionsAfter(t, a))
  {
    if a.Saved? {
      WriteSession(m, o, t, a.why, a.job);
    }
  }

  lemma WriteSession(m: Monitor, o: Observed, t: SessionTrail, why: Write, job: JobState)
    requires SessionKept(m, t) && MayWrite(m, o, why, job)
    ensures SessionKept(Moved(m, Saved(why, job)), SessionsAfter(t, Saved(why, job)))
  {
    if m.store.Some? && !why.RunRecorded? {
      assert job.claudeSessionId == m.store.value.claudeSessionId;
      assert job.lastExecutorReport == m.store.value.lastExecutorReport;
    }
  }

  lemma {:induction false} HistorySession(h: seq<Action>)
    requires Lawful(h)
    ensures SessionKept(After(h).m, SessionsOf(h))
  {
    if h != [] {
      var past := h[..|h| - 1];
      PrefixLawful(h, |h| - 1);
      HistorySession(past);
      HistorySound(past);
      assert StepPermitted(h, |h| - 1);
      StepSession(After(past).m, After(past).o, SessionsOf(past), h[|h| - 1]);
    }
  }

  /**
   Over a whole history, once a report is recorded no executor call starts a new session: every call resumes the
   most recent non-blank session id ever recorded, and a call after a report is only made when there is one.
   */
  lemma {:induction false} SessionContinuity(h: seq<Action>, i: nat)
    requires Lawful(h) && i < |h| && h[i].RunCalled?
    ensures var t := SessionsOf(h[..i]);
            && (t.reported ==> t.known.Some?)
            && h[i].run.session == if t.known.Some? then ResumeSession(t.known.value) else NewSession
  {
    LawfulStep(h, i);
    HistorySession(h[..i]);
  }

  // ---- A publication once begun is only ever recovered ------------------------------------------

  /** Some saved record has already carried a publication stage or a commit. */
  ghost predicate EverProgressed(h: seq<Action>) {
    exists k :: 0 <= k < |h| && Progressed(h[k])
  }

  predicate Progressed(a: Action) {
    a.Saved? && (a.job.publishStage.Some? || a.job.publishResult.Some?)
  }

  predicate HasProgress(m: Monitor) {
    m.store.Some? && (m.store.value.publishStage.Some? || m.store.value.publishResult.Some?)
  }

  lemma StepProgress(m: Monitor, o: Observed, a: Action)
    requires Allowed(m, o, a)
    ensures HasProgress(Moved(m, a)) <==> HasProgress(m) || Progressed(a)
  {
  }

  lemma {:induction false} HistoryProgress(h: seq<Action>)
    requires Lawful(h)
    ensures HasProgress(After(h).m) <==> EverProgressed(h)
  {
    if h != [] {
      var past := h[..|h| - 1];
      PrefixLawful(h, |h| - 1);
      HistoryProgress(past);
      assert StepPermitted(h, |h| - 1);
      StepProgress(After(past).m, After(past).o, h[|h| - 1]);
      assert forall k :: 0 <= k < |past| ==> past[k] == h[k];
      assert EverProgressed(h) <==> EverProgressed(past) || Progressed(h[|h| - 1]) by {
        if Progressed(h[|h| - 1]) {
          assert EverProgressed(h);
        }
        if EverProgressed(past) {
          var k :| 0 <= k < |past| && Progressed(past[k]);
          assert Progressed(h[k]);
        }
      }
    }
  }

  /**
   A publication is re-entered through `recover` exactly when some record of it, in any earlier process, carried a
   stage or a commit; otherwise, and only then, it starts afresh.
   */
  lemma {:induction false} RecoveredExactlyWhenBegun(h: seq<Action>, i: nat)
    requires Lawful(h) && i < |h| && h[i].PublishCalled?
    ensures h[i].call.Recover? <==> EverProgressed(h[..i])
  {
    LawfulStep(h, i);
    HistoryProgress(h[..i]);
  }
}
