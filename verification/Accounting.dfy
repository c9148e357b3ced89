/** Executor runs against counted iterations, and provider calls against both. */
module Accounting {
  import opened Wrappers
  import opened JobStates
  import opened Protocol
  import opened Persisted

  /** How many executor results a history has made durable. */
  function RecordedRuns(h: seq<Action>): nat {
    if h == [] then 0
    else RecordedRuns(h[..|h| - 1]) + if RecordsRun(h[|h| - 1]) then 1 else 0
  }

  predicate RecordsRun(a: Action) {
    a.Saved? && a.why.RunRecorded?
  }

  ghost predicate Balanced(m: Monitor, runs: nat) {
    match m.store
    case None => runs == 0
    case Some(s) =>
      && runs <= s.iteration <= runs + 1
      && (s.pendingOperation.Some? ==> s.iteration == runs + 1)
      && (s.pendingOperation.None? && s.status.IsResumable() ==> s.iteration == runs)
      && (s.status.Accepted? || s.status == JobStatus.Published ==> s.iteration == runs + 1)
  }

  lemma StepBalanced(m: Monitor, o: Observed, runs: nat, a: Action)
    requires Sound(m) && Balanced(m, runs) && Allowed(m, o, a)
    ensures Balanced(Moved(m, a), runs + if RecordsRun(a) then 1 else 0)
    ensures RecordsRun(a) ==> a.job.iteration == runs + 1
  {
    if a.Saved? && m.store.Some? {
      WriteBalanced(m, o, runs, a.why, a.job);
    }
  }

  lemma WriteBalanced(m: Monitor, o: Observed, runs: nat, why: Write, job: JobState)
    requires Sound(m) && Balanced(m, runs) && m.store.Some? && MayWrite(m, o, why, job)
    ensures Balanced(Moved(m, Saved(why, job)), runs + if why.RunRecorded? then 1 else 0)
    ensures why.RunRecorded? ==> job.iteration == runs + 1
  {
  }

  lemma {:induction false} HistoryBalanced(h: seq<Action>)
    requires Lawful(h)
    ensures Balanced(After(h).m, RecordedRuns(h))
  {
    if h != [] {
      var past := h[..|h| - 1];
      PrefixLawful(h, |h| - 1);
      HistoryBalanced(past);
      HistorySound(past);
      assert StepPermitted(h, |h| - 1);
      StepBalanced(After(past).m, After(past).o, RecordedRuns(past), h[|h| - 1]);
    }
  }

  /**
   Executor accounting survives crashes. While something is owed, whatever the status, exactly one run fewer was
   recorded than iterations were counted, and in any resumable record with nothing owed exactly as many; an accepted
   or published job needed no run in its last iteration. Never more than the limit.
   */
  lemma RunsMatchIterations(h: seq<Action>)
    requires Lawful(h) && Stored(h).Some?
    ensures var s := Stored(h).value;
            && s.iteration - 1 <= RecordedRuns(h) <= s.iteration <= s.identity.run.maxIterations
            && (s.pendingOperation.Some? ==> RecordedRuns(h) == s.iteration - 1)
            && (s.status.IsResumable() && s.pendingOperation.None? ==> RecordedRuns(h) == s.iteration)
            && (s.status.Accepted? || s.status == JobStatus.Published ==> RecordedRuns(h) == s.iteration - 1)
  {
    HistoryBalanced(h);
    HistorySound(h);
  }

  /** A recorded run is never repeated: the n-th recording of a history is the one of its n-th iteration. */
  lemma {:induction false} NthRunIsNthIteration(h: seq<Action>, i: nat)
    requires Lawful(h) && i < |h| && RecordsRun(h[i])
    ensures h[i].job.iteration == RecordedRuns(h[..i + 1]) == RecordedRuns(h[..i]) + 1
  {
    PrefixLawful(h, i);
    assert StepPermitted(h, i);
    assert h[..i + 1][..i] == h[..i];
    HistoryBalanced(h[..i]);
    HistorySound(h[..i]);
    StepBalanced(After(h[..i]).m, After(h[..i]).o, RecordedRuns(h[..i]), h[i]);
  }

  // ---- Supervisor calls of one process ----------------------------------------------------------

  /** How many reviews were requested after the first `b` actions. */
  function ReviewsSince(h: seq<Action>, b: nat): nat {
    if |h| <= b then 0
    else ReviewsSince(h[..|h| - 1], b) + if h[|h| - 1].ReviewCalled? then 1 else 0
  }

  ghost predicate NoBoot(h: seq<Action>, b: nat) {
    forall i :: b <= i < |h| ==> !h[i].Booted?
  }

  function Iterations(m: Monitor): nat {
    if m.store.Some? then m.store.value.iteration else 0
  }

  function RetryLeft(m: Monitor): nat {
    if m.store.Some? && m.store.value.pendingOperation == Some(SupervisorReview) && (m.work.Booting? || m.work.Idle?)
    then 1 else 0
  }

  ghost predicate Budgeted(m0: Monitor, m: Monitor, reviews: nat) {
    reviews + (if m.work.ReviewOwed? then 1 else 0) + RetryLeft(m) + Iterations(m0)
    <= Iterations(m) + RetryLeft(m0)
  }

  lemma StepBudgeted(m0: Monitor, m: Monitor, o: Observed, reviews: nat, a: Action)
    requires Sound(m) && Budgeted(m0, m, reviews) && Allowed(m, o, a) && !a.Booted?
    ensures Budgeted(m0, Moved(m, a), reviews + if a.ReviewCalled? then 1 else 0)
  {
    if a.Saved? && m.store.Some? {
      WriteBudgeted(m0, m, o, reviews, a.why, a.job);
    }
  }

  lemma WriteBudgeted(m0: Monitor, m: Monitor, o: Observed, reviews: nat, why: Write, job: JobState)
    requires Sound(m) && Budgeted(m0, m, reviews) && m.store.Some? && MayWrite(m, o, why, job)
    ensures Budgeted(m0, Moved(m, Saved(why, job)), reviews)
  {
  }

  lemma {:induction false} ProcessBudgeted(h: seq<Action>, b: nat)
    requires Lawful(h) && b <= |h| && NoBoot(h, b)
    requires After(h[..b]).m.work.Booting?
    ensures Budgeted(After(h[..b]).m, After(h).m, ReviewsSince(h, b))
  {
    if |h| == b {
      assert h[..b] == h;
    } else {
      var past := h[..|h| - 1];
      assert past[..b] == h[..b];
      assert forall i :: b <= i < |past| ==> past[i] == h[i];
      PrefixLawful(h, |h| - 1);
      ProcessBudgeted(past, b);
      HistorySound(past);
      assert StepPermitted(h, |h| - 1);
      StepBudgeted(After(h[..b]).m, After(past).m, After(past).o, ReviewsSince(past, b), h[|h| - 1]);
    }
  }

  /**
   One process asks the supervisor at most once per iteration it counts, plus once when it took over a review that
   was already counted and never answered.
   */
  lemma ReviewsPerProcess(h: seq<Action>, b: nat)
    requires Lawful(h) && b <= |h| && NoBoot(h, b) && Stored(h).Some?
    requires After(h[..b]).m.work.Booting?
    ensures var limit := Stored(h).value.identity.run.maxIterations;
            var before := Iterations(After(h[..b]).m);
            before <= limit && ReviewsSince(h, b) <= limit - before + RetryLeft(After(h[..b]).m)
  {
    ProcessBudgeted(h, b);
    HistorySound(h);
    PrefixLawful(h, b);
    HistorySound(h[..b]);
    SameJob(h, b);
  }
}
