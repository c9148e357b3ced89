/** What one process may still do after it observed a stop, after a job ended, and before it compared reality. */
module Processes {
  import opened Wrappers
  import opened JobStates
  import opened Protocol
  import opened Provenance

  /** A supervisor review, an executor run or a publication starts. */
  predicate StartsWork(a: Action) {
    a.ReviewCalled? || a.RunCalled? || a.PublishCalled?
  }

  ghost predicate SameProcess(h: seq<Action>, i: nat, k: nat)
    requires i < k <= |h|
  {
    forall j :: i < j < k ==> !h[j].Booted?
  }

  // ---- The first record -------------------------------------------------------------------------

  /** At action `i` the job got its first record, made of a capture that was clean and the latest one. */
  ghost predicate CreatedAt(h: seq<Action>, i: nat)
    requires i < |h|
  {
    && h[i].Saved? && h[i].why.JobCreated? && Stored(h[..i]).None?
    && h[i].job.lastRepositoryState == After(h[..i]).o.seen
    && h[i].job.lastRepositoryState.Some? && h[i].job.lastRepositoryState.value.IsClean()
  }

  ghost predicate StartedClean(h: seq<Action>) {
    exists i :: 0 <= i < |h| && CreatedAt(h, i)
  }

  /** Nothing is ever saved for a job that did not find a clean working tree first. */
  lemma {:induction false} SavedMeansStartedClean(h: seq<Action>)
    requires Lawful(h) && Stored(h).Some?
    ensures StartedClean(h)
  {
    var last := |h| - 1;
    LawfulStep(h, last);
    if Stored(h[..last]).Some? {
      SavedMeansStartedClean(h[..last]);
      var i :| 0 <= i < last && CreatedAt(h[..last], i);
      assert h[..last][..i] == h[..i];
      assert CreatedAt(h, i);
    } else {
      assert CreatedAt(h, last);
    }
  }

  // ---- Stop -------------------------------------------------------------------------------------

  lemma {:induction false} StaysHalted(h: seq<Action>, i: nat)
    requires Lawful(h) && i < |h| && h[i].StopSeen? && SameProcess(h, i, |h|)
    ensures After(h).m.halted && After(h).m.store.Some?
  {
    if |h| > i + 1 {
      var past := h[..|h| - 1];
      PrefixLawful(h, |h| - 1);
      assert forall j :: 0 <= j < |past| ==> past[j] == h[j];
      StaysHalted(past, i);
    } else {
      assert StepPermitted(h, i);
    }
  }

  /**
   Once a safe point has seen the stop flag, the process starts no provider call and no publication, and the only
   records it may still write say STOPPED or FAILED.
   */
  lemma {:induction false} StopIsFinal(h: seq<Action>, i: nat, k: nat)
    requires Lawful(h) && i < k < |h| && h[i].StopSeen? && SameProcess(h, i, k)
    ensures !StartsWork(h[k])
    ensures h[k].Saved? ==> h[k].job.status == JobStatus.Stopped || h[k].job.status.Failed?
  {
    LawfulStep(h, k);
    assert forall j :: 0 <= j < k ==> h[..k][j] == h[j];
    StaysHalted(h[..k], i);
  }

  // ---- Terminal statuses ------------------------------------------------------------------------

  ghost predicate Ended(m: Monitor) {
    m.store.Some? && !m.store.value.status.IsResumable()
  }

  lemma {:induction false} StaysEnded(h: seq<Action>, n: nat)
    requires Lawful(h) && n <= |h| && Ended(After(h[..n]).m)
    ensures Ended(After(h).m)
    ensures Stored(h).value.status == Stored(h[..n]).value.status || Stored(h).value.status.Failed?
  {
    if |h| == n {
      assert h[..n] == h;
    } else {
      var past := h[..|h| - 1];
      assert past[..n] == h[..n];
      PrefixLawful(h, |h| - 1);
      StaysEnded(past, n);
      assert StepPermitted(h, |h| - 1);
    }
  }

  /** Once an event was refused the process does nothing but write FAILED. */
  lemma StepAfterRefusal(m: Monitor, o: Observed, a: Action)
    requires Allowed(m, o, a) && Noticed(m, o, a).refused
    ensures a.Refused? || (a.Saved? && a.job.status.Failed?)
  {
    if !a.Refused? {
      assert o.refused;
    }
  }

  lemma RefusedJustNow(h: seq<Action>, k: nat)
    requires Lawful(h) && k < |h| && After(h[..k]).o.refused && Stored(h[..k]).Some?
    requires !Stored(h[..k]).value.status.Failed?
    ensures k > 0 && h[k - 1].Refused?
  {
    LawfulStep(h, k - 1);
    assert h[..k][..k - 1] == h[..k - 1];
    StepAfterRefusal(After(h[..k - 1]).m, After(h[..k - 1]).o, h[k - 1]);
  }

  /**
   A decided outcome is never undone, in this process or a later one: nothing starts any more. An outcome other than
   FAILED is overwritten by FAILED alone, and only right after an event was refused.
   */
  lemma {:induction false} OutcomeIsFinal(h: seq<Action>, n: nat, k: nat)
    requires Lawful(h) && n <= k < |h| && Ended(After(h[..n]).m)
    ensures !StartsWork(h[k])
    ensures h[k].Saved? ==> h[k].job.status.Failed?
    ensures h[k].Saved? ==>
              Stored(h[..k]).Some? && (Stored(h[..k]).value.status.Failed? || (k > 0 && h[k - 1].Refused?))
  {
    LawfulStep(h, k);
    assert h[..k][..n] == h[..n];
    StaysEnded(h[..k], n);
    if h[k].Saved? && !Stored(h[..k]).value.status.Failed? {
      RefusedJustNow(h, k);
    }
  }

  // ---- Reality first ----------------------------------------------------------------------------

  /** The record was accepted for continuation at action `k`, against the repository as it was found. */
  ghost predicate AcceptedAt(h: seq<Action>, k: nat)
    requires Lawful(h) && k < |h|
  {
    && h[k].Saved? && h[k].why.ResumeAccepted?
    && Stored(h[..k]).Some? && RealityMatches(After(h[..k]).m, After(h[..k]).o, Stored(h[..k]).value)
  }

  lemma {:induction false} AcceptedBeforeWork(h: seq<Action>, b: nat) returns (k: nat)
    requires Lawful(h) && b < |h| && h[b].Booted? && SameProcess(h, b, |h|)
    requires !After(h).m.work.Booting?
    ensures b < k < |h| && AcceptedAt(h, k)
  {
    var last := |h| - 1;
    var past := h[..last];
    LawfulStep(h, last);
    assert forall j :: 0 <= j < last ==> past[j] == h[j];
    if b == last {
      assert false;
    } else if After(past).m.work.Booting? {
      RecordBeforeBoot(past, b);
      WorkLeavesBooting(After(past).m, After(past).o, h[last]);
      k := last;
    } else {
      k := AcceptedBeforeWork(past, b);
      assert past[..k] == h[..k];
    }
  }

  /** The only way out of `Booting` for a process that took over a record is to accept it. */
  lemma WorkLeavesBooting(m: Monitor, o: Observed, a: Action)
    requires m.store.Some? && m.work.Booting? && Allowed(m, o, a) && !Moved(m, a).work.Booting?
    ensures a.Saved? && a.why.ResumeAccepted? && RealityMatches(m, o, m.store.value)
  {
  }

  lemma RecordBeforeBoot(h: seq<Action>, b: nat)
    requires Lawful(h) && b < |h| && h[b].Booted?
    ensures Stored(h).Some?
  {
    assert StepPermitted(h, b);
    SameJob(h, b);
  }

  /**
   A process that takes over a record starts no provider call and no publication before it has proved that the
   record can be continued and, unless a publication is owed, that the repository is the one last captured.
   */
  lemma {:induction false} RealityIsComparedFirst(h: seq<Action>, b: nat, i: nat)
    requires Lawful(h) && b < i < |h| && h[b].Booted? && SameProcess(h, b, i) && StartsWork(h[i])
    ensures exists k :: b < k < i && AcceptedAt(h, k)
  {
    LawfulStep(h, i);
    var past := h[..i];
    assert forall j :: 0 <= j < i ==> past[j] == h[j];
    var k := AcceptedBeforeWork(past, b);
    assert past[..k] == h[..k];
    assert AcceptedAt(h, k);
  }
}
