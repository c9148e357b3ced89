/**
 `ProcessCancellation`: a flag and a `Notify`, shared by any number of callers of `cancel` and of `cancelled`.

 Every atomic access is one step, and any interleaving of steps is a run. A `Notify` wakes the waiters registered
 before a `notify_waiters` call, so each waiter remembers how many calls there had been when it registered.
 */
module Cancellation {

  /** `notified()`, then `is_cancelled()`, then `.await`. */
  datatype Waiter = Starting | Registered(seen: nat) | Awaiting(seen: nat) | Returned

  /** `store(true)`, then `notify_waiters()`. */
  datatype Canceller = Idle | Stored | Done

  datatype State = State(cancelled: bool, notifications: nat, waiters: seq<Waiter>, cancellers: seq<Canceller>)

  datatype Step = Register(w: nat) | Check(w: nat) | Wake(w: nat) | Store(c: nat) | Notify(c: nat)

  predicate Enabled(s: State, step: Step) {
    match step
    case Register(w) => w < |s.waiters| && s.waiters[w].Starting?
    case Check(w) => w < |s.waiters| && s.waiters[w].Registered?
    case Wake(w) => w < |s.waiters| && s.waiters[w].Awaiting? && s.waiters[w].seen < s.notifications
    case Store(c) => c < |s.cancellers| && s.cancellers[c].Idle?
    case Notify(c) => c < |s.cancellers| && s.cancellers[c].Stored?
  }

  function Next(s: State, step: Step): State
    requires Enabled(s, step)
  {
    match step
    case Register(w) => s.(waiters := s.waiters[w := Registered(s.notifications)])
    case Check(w) =>
      s.(waiters := s.waiters[w := if s.cancelled then Returned else Awaiting(s.waiters[w].seen)])
    case Wake(w) => s.(waiters := s.waiters[w := Returned])
    case Store(c) => s.(cancelled := true, cancellers := s.cancellers[c := Stored])
    case Notify(c) => s.(notifications := s.notifications + 1, cancellers := s.cancellers[c := Done])
  }

  predicate Initial(s: State) {
    && !s.cancelled && s.notifications == 0
    && (forall w :: 0 <= w < |s.waiters| ==> s.waiters[w].Starting?)
    && (forall c :: 0 <= c < |s.cancellers| ==> s.cancellers[c].Idle?)
  }

  /** The states of one interleaving, each reached from the one before by one enabled step. */
  ghost predicate IsRun(run: seq<State>) {
    && run != [] && Initial(run[0])
    && forall i :: 0 < i < |run| ==> Follows(run[i - 1], run[i])
  }

  ghost predicate Follows(s: State, t: State) {
    exists step :: Enabled(s, step) && t == Next(s, step)
  }

  ghost predicate CancelCompleted(s: State) {
    exists c :: 0 <= c < |s.cancellers| && s.cancellers[c].Done?
  }

  /** A waiter is past its check and no notification has reached it. */
  predicate Blocked(s: State, w: nat)
    requires w < |s.waiters|
  {
    s.waiters[w].Awaiting? && !Enabled(s, Wake(w))
  }

  ghost predicate Inv(s: State) {
    && (forall c :: 0 <= c < |s.cancellers| && !s.cancellers[c].Idle? ==> s.cancelled)
    && (s.notifications > 0 ==> CancelCompleted(s))
    && (s.cancelled ==> exists c :: 0 <= c < |s.cancellers| && !s.cancellers[c].Idle?)
    && forall w :: 0 <= w < |s.waiters| ==> WaiterFits(s, s.waiters[w])
  }

  ghost predicate WaiterFits(s: State, waiter: Waiter) {
    match waiter
    case Starting => true
    case Registered(seen) => seen <= s.notifications
    case Awaiting(seen) => seen <= s.notifications && (CancelCompleted(s) ==> seen < s.notifications)
    case Returned => s.cancelled
  }

  lemma StepKeepsInv(s: State, step: Step)
    requires Inv(s) && Enabled(s, step)
    ensures Inv(Next(s, step))
  {
    var t := Next(s, step);
    match step {
      case Store(c) =>
        assert t.cancellers[c].Stored?;
        assert CancelCompleted(t) ==> CancelCompleted(s);
        if s.notifications > 0 {
          var d :| 0 <= d < |s.cancellers| && s.cancellers[d].Done?;
          assert t.cancellers[d].Done?;
        }
      case Notify(c) =>
        assert t.cancellers[c].Done?;
      case _ =>
        assert t.cancellers == s.cancellers;
    }
  }

  lemma {:induction false} RunKeepsInv(run: seq<State>, i: nat)
    requires IsRun(run) && i < |run|
    ensures Inv(run[i])
  {
    if i > 0 {
      RunKeepsInv(run, i - 1);
      assert Follows(run[i - 1], run[i]);
      var step :| Enabled(run[i - 1], step) && run[i] == Next(run[i - 1], step);
      StepKeepsInv(run[i - 1], step);
    }
  }

  /**
   No cancellation is lost: in any interleaving, once one `cancel` has completed no waiter is blocked, whether it
   registered before, during or after that call; while nobody has begun to cancel, a waiter past its check is.
   */
  lemma NoLostCancellation(run: seq<State>, i: nat, w: nat)
    requires IsRun(run) && i < |run| && w < |run[i].waiters|
    ensures CancelCompleted(run[i]) ==> !Blocked(run[i], w)
    ensures !run[i].cancelled && run[i].waiters[w].Awaiting? ==> Blocked(run[i], w)
  {
    RunKeepsInv(run, i);
    assert WaiterFits(run[i], run[i].waiters[w]);
  }

  /** After a completed cancellation every step left to a waiter is enabled, and its check or its wake-up returns. */
  lemma CancelledWaiterMoves(run: seq<State>, i: nat, w: nat)
    requires IsRun(run) && i < |run| && w < |run[i].waiters| && CancelCompleted(run[i])
    ensures match run[i].waiters[w]
            case Starting => Enabled(run[i], Register(w))
            case Registered(_) => Enabled(run[i], Check(w)) && Next(run[i], Check(w)).waiters[w].Returned?
            case Awaiting(_) => Enabled(run[i], Wake(w)) && Next(run[i], Wake(w)).waiters[w].Returned?
            case Returned => true
  {
    RunKeepsInv(run, i);
    assert WaiterFits(run[i], run[i].waiters[w]);
  }

  /** `cancelled` never returns unless somebody has begun to cancel. */
  lemma NoSpuriousReturn(run: seq<State>, i: nat, w: nat)
    requires IsRun(run) && i < |run| && w < |run[i].waiters| && run[i].waiters[w].Returned?
    ensures exists c :: 0 <= c < |run[i].cancellers| && !run[i].cancellers[c].Idle?
  {
    RunKeepsInv(run, i);
    assert WaiterFits(run[i], run[i].waiters[w]);
  }

  /** The flag is never reset: what `is_cancelled` has once answered it answers for ever. */
  lemma {:induction false} CancelledForGood(run: seq<State>, i: nat, k: nat)
    requires IsRun(run) && i <= k < |run| && run[i].cancelled
    ensures run[k].cancelled
  {
    if k > i {
      CancelledForGood(run, i, k - 1);
      assert Follows(run[k - 1], run[k]);
    }
  }
}
