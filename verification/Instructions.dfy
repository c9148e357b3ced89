/** `/send` instructions: what is accepted is kept, in order, and what a provider is told. */
module Instructions {
  import opened Wrappers
  import opened JobStates
  import opened Protocol
  import opened Persisted
  import opened Provenance

  /** The `/send` last handled, and every one accepted durably so far. */
  datatype Sends = Sends(candidate: Option<string>, accepted: seq<string>)

  function SendsOf(h: seq<Action>): Sends {
    if h == [] then Sends(None, []) else SendsAfter(SendsOf(h[..|h| - 1]), h[|h| - 1])
  }

  function SendsAfter(sends: Sends, a: Action): Sends {
    match a
    case Booted => sends.(candidate := None)
    case Handled(command) => sends.(candidate := if command.Send? then Some(command.instruction) else None)
    case Saved(why, _) =>
      if why.InstructionQueued? && sends.candidate.Some?
      then Sends(None, sends.accepted + [sends.candidate.value]) else sends
    case _ => sends
  }

  ghost predicate Conserved(m: Monitor, o: Observed, sends: Sends) {
    && (o.sent.Some? ==> sends.candidate == o.sent)
    && (m.store.None? ==> sends.accepted == [])
    && (m.store.Some? ==> m.store.value.Active() == sends.accepted)
    && (m.work.Prepared? && m.store.Some? ==> m.work.run.instructions <= m.store.value.appliedUserInstructions)
  }

  lemma StepConserved(m: Monitor, o: Observed, sends: Sends, a: Action)
    requires Sound(m) && Conserved(m, o, sends) && Allowed(m, o, a)
    ensures Conserved(Moved(m, a), Noticed(m, o, a), SendsAfter(sends, a))
  {
    if a.Saved? && m.store.Some? {
      WriteConserved(m, o, sends, a.why, a.job);
    }
  }

  lemma WriteConserved(m: Monitor, o: Observed, sends: Sends, why: Write, job: JobState)
    requires Conserved(m, o, sends) && m.store.Some? && MayWrite(m, o, why, job)
    ensures Conserved(Moved(m, Saved(why, job)), Noticed(m, o, Saved(why, job)), SendsAfter(sends, Saved(why, job)))
  {
    var s := m.store.value;
    if why.InstructionApplied? {
      assert job.Active() == s.Active();
    } else if why.InstructionQueued? {
      assert job.Active() == s.Active() + [o.sent.value];
    } else {
      assert SameInstructions(s, job);
    }
  }

  lemma {:induction false} HistoryConserved(h: seq<Action>)
    requires Lawful(h)
    ensures Conserved(After(h).m, After(h).o, SendsOf(h))
  {
    if h != [] {
      var past := h[..|h| - 1];
      PrefixLawful(h, |h| - 1);
      HistoryConserved(past);
      HistorySound(past);
      assert StepPermitted(h, |h| - 1);
      StepConserved(After(past).m, After(past).o, SendsOf(past), h[|h| - 1]);
    }
  }

  /**
   No accepted instruction is ever lost, repeated or reordered, whatever crashes: in every saved record, applied
   followed by pending is exactly the instructions accepted so far, within both budgets.
   */
  lemma {:induction false} InstructionsConserved(h: seq<Action>, i: nat)
    requires Lawful(h) && i < |h| && h[i].Saved?
    ensures h[i].job.Active() == SendsOf(h[..i + 1]).accepted
    ensures WithinBudget(h[i].job.Active())
  {
    LawfulStep(h, i);
    PrefixLawful(h, i + 1);
    assert h[..i + 1][..i] == h[..i];
    HistoryConserved(h[..i + 1]);
    EverySavedRecord(h, i);
  }

  // ---- What providers are told ------------------------------------------------------------------

  /** The process running after `h` has had every instruction applied that it found waiting. */
  predicate CaughtUp(h: seq<Action>) {
    After(h).m.tidy
  }

  /** A command that ends with the waiting instructions applied: any but a refused `/send`. */
  ghost predicate AppliesAt(h: seq<Action>, k: nat)
    requires k < |h|
  {
    h[k].Handled? && Applies(After(h[..k]).m, h[k].command)
  }

  /** Some such command was handled at action `b` or later. */
  ghost predicate AppliedSince(h: seq<Action>, b: nat) {
    exists k :: b <= k < |h| && AppliesAt(h, k)
  }

  lemma AppliedSinceSteps(h: seq<Action>, b: nat)
    requires b < |h|
    ensures AppliedSince(h, b) <==> AppliedSince(h[..|h| - 1], b) || AppliesAt(h, |h| - 1)
  {
    var past := h[..|h| - 1];
    assert forall k :: 0 <= k < |past| ==> past[k] == h[k] && past[..k] == h[..k];
    if AppliedSince(past, b) {
      var k :| b <= k < |past| && AppliesAt(past, k);
      assert AppliesAt(h, k);
    }
    if AppliedSince(h, b) && !AppliesAt(h, |h| - 1) {
      var k :| b <= k < |h| && AppliesAt(h, k);
      assert AppliesAt(past, k);
    }
  }

  /**
   A process is caught up exactly when it started the job, or took over a record without waiting instructions, or
   has handled a command since that was not a refused `/send`.
   */
  lemma {:induction false} CaughtUpSince(h: seq<Action>, b: nat)
    requires b <= |h| && (b == 0 || (h[b - 1].Booted? && Stored(h[..b]).Some?))
    requires forall k :: b <= k < |h| ==> !h[k].Booted?
    ensures CaughtUp(h) <==>
            b == 0 || Stored(h[..b]).value.pendingUserInstructions == [] || AppliedSince(h, b)
  {
    if |h| == b {
      assert h[..b] == h;
    } else {
      var past := h[..|h| - 1];
      assert past[..b] == h[..b];
      assert forall k :: 0 <= k < |past| ==> past[k] == h[k];
      CaughtUpSince(past, b);
      AppliedSinceSteps(h, b);
    }
  }

  /** Until a process has caught up, something is waiting. */
  ghost predicate WaitsFits(m: Monitor, o: Observed) {
    && (m.store.None? || o.sent.Some? ==> m.tidy)
    && (m.store.Some? && !m.tidy ==> m.store.value.pendingUserInstructions != [])
  }

  lemma StepWaits(m: Monitor, o: Observed, a: Action)
    requires WaitsFits(m, o) && Allowed(m, o, a)
    ensures WaitsFits(Moved(m, a), Noticed(m, o, a))
  {
    if a.Saved? && m.store.Some? && !m.tidy {
      assert SameInstructions(m.store.value, a.job);
    }
  }

  lemma {:induction false} HistoryWaits(h: seq<Action>)
    requires Lawful(h)
    ensures WaitsFits(After(h).m, After(h).o)
  {
    if h != [] {
      LawfulStep(h, |h| - 1);
      HistoryWaits(h[..|h| - 1]);
      StepWaits(After(h[..|h| - 1]).m, After(h[..|h| - 1]).o, h[|h| - 1]);
    }
  }

  /**
   A review is told all the instructions accepted so far, in order, if and only if its process has caught up; which
   is the same as none still waiting in the record.
   */
  lemma {:induction false} ReviewIsToldEverything(h: seq<Action>, i: nat)
    requires Lawful(h) && i < |h| && h[i].ReviewCalled?
    ensures h[i].review.instructions == SendsOf(h[..i]).accepted <==> CaughtUp(h[..i])
    ensures CaughtUp(h[..i]) <==> Stored(h[..i]).Some? && Stored(h[..i]).value.pendingUserInstructions == []
  {
    LawfulStep(h, i);
    HistoryConserved(h[..i]);
    HistoryWaits(h[..i]);
    AppliedIsActive(Stored(h[..i]).value);
  }

  /** The applied instructions are all of them exactly when none is waiting. */
  lemma AppliedIsActive(s: JobState)
    ensures s.appliedUserInstructions == s.Active() <==> s.pendingUserInstructions == []
  {
    if s.appliedUserInstructions == s.Active() {
      assert |s.Active()| == |s.appliedUserInstructions| + |s.pendingUserInstructions|;
    }
  }

  /** How many instructions were accepted at the actions from `p` on. */
  function AcceptedSince(h: seq<Action>, p: nat): nat {
    if |h| <= p then 0
    else AcceptedSince(h[..|h| - 1], p) + if h[|h| - 1].Saved? && h[|h| - 1].why.InstructionQueued? then 1 else 0
  }

  lemma {:induction false} AcceptedGrows(h: seq<Action>, p: nat)
    requires Lawful(h) && p <= |h|
    ensures |SendsOf(h).accepted| == |SendsOf(h[..p]).accepted| + AcceptedSince(h, p)
    ensures SendsOf(h[..p]).accepted <= SendsOf(h).accepted
  {
    if |h| == p {
      assert h[..p] == h;
    } else {
      var past := h[..|h| - 1];
      assert past[..p] == h[..p];
      PrefixLawful(h, |h| - 1);
      AcceptedGrows(past, p);
      HistoryConserved(past);
      assert StepPermitted(h, |h| - 1);
    }
  }

  ghost predicate Uninterrupted(h: seq<Action>, p: nat, i: nat)
    requires p <= i <= |h|
  {
    forall k :: p < k < i ==> !h[k].RunPrepared? && !h[k].Booted?
  }

  /**
   An executor request is built before the last safe point. It is told the instructions applied when it was built,
   and those are all the instructions accepted by the time it is sent if and only if its process had caught up by
   then and none was accepted at the safe point in between.
   */
  lemma {:induction false} RunIsToldWhatWasAccepted(h: seq<Action>, p: nat, i: nat)
    requires Lawful(h) && p < i < |h| && h[p].RunPrepared? && h[i].RunCalled? && Uninterrupted(h, p, i)
    ensures h[i].run.instructions <= SendsOf(h[..p]).accepted
    ensures h[i].run.instructions == SendsOf(h[..i]).accepted <==>
            CaughtUp(h[..p]) && AcceptedSince(h[..i], p) == 0
  {
    LawfulStep(h, p);
    LawfulStep(h, i);
    HistoryConserved(h[..p]);
    HistoryWaits(h[..p]);
    AppliedIsActive(Stored(h[..p]).value);
    StillPrepared(h, p, i);
    AcceptedGrows(h[..i], p);
    assert h[..i][..p] == h[..p];
  }

  /** Between preparation and call the prepared request does not change. */
  lemma {:induction false} StillPrepared(h: seq<Action>, p: nat, i: nat)
    requires Lawful(h) && p < i < |h| && h[p].RunPrepared? && h[i].RunCalled? && Uninterrupted(h, p, i)
    ensures h[i].run == h[p].run
  {
    LawfulStep(h, i);
    WorkBack(h[..i], p);
    assert h[..i][p] == h[p];
  }

  /** A process that holds a prepared request has held it since it was prepared. */
  lemma {:induction false} WorkBack(h: seq<Action>, p: nat)
    requires p < |h| && h[p].RunPrepared? && After(h).m.work.Prepared?
    requires forall k :: p < k < |h| ==> !h[k].RunPrepared? && !h[k].Booted?
    ensures After(h).m.work.run == h[p].run
  {
    if |h| > p + 1 {
      var past := h[..|h| - 1];
      var a := h[|h| - 1];
      assert After(past).m.work == After(h).m.work by {
        if a.Saved? {
          assert WorkAfter(After(past).m.work, a.why) == After(h).m.work;
        }
      }
      assert forall k :: 0 <= k < |past| ==> past[k] == h[k];
      WorkBack(past, p);
    }
  }
}
