/** An instruction accepted just before a crash does not reach the reviews that follow. */
module StaleInstructions {
  import opened Wrappers
  import opened JobStates
  import opened Protocol
  import opened Instructions
  import opened Scenarios

  const PENDING := CREATED.(pendingUserInstructions := ["x"])
  const STALE := PENDING.(iteration := 1, pendingOperation := Some(SupervisorReview))
  const WOKEN := ResumeStarted(Running, None)
  const VALID := ResumeValidated(Fresh)

  /** Queued, and the process dies before the instruction is applied. */
  function Crashed(): seq<Action> {
    [Handled(Send("x")), Saved(InstructionQueued, PENDING), Booted]
  }

  function Woken(): seq<Action> {
    [Emitted(WOKEN), Captured(CLEAN)]
  }

  function Accepted(): seq<Action> {
    [Emitted(VALID), Saved(ResumeAccepted, PENDING)]
  }

  function Asking(): seq<Action> {
    [Cleared, Saved(ReviewBegun, STALE)]
  }

  /** Without any command the resumed process asks for its next review. */
  function StaleReview(): seq<Action> {
    Created() + Begun() + Crashed() + Woken() + Accepted() + Asking() + Reviewed()
  }

  /** With nothing but a refused `/send` it does the same. */
  function RefusedReview(): seq<Action> {
    Created() + Begun() + Crashed() + Woken() + Accepted() + Refusing() + Asking() + Reviewed()
  }

  function Refusing(): seq<Action> {
    [Handled(Send(Long())), Emitted(REFUSED)]
  }

  /** Too long for the budget. */
  function Long(): string {
    seq(9000, _ => 'a')
  }

  const REFUSED := UserInstructionRejected(Long(), TooLarge(TotalBytes(["x"]) + Text.ByteLength(Long())))

  const WAITING := INITIAL.(store := Some(PENDING), tidy := false)

  lemma CrashedIsLawful(h: seq<Action>)
    requires Reaches(h, BEGUN_TRACK, NONE_SENT)
    ensures Reaches(h + Crashed(), Track(WAITING, Awakened(WAITING)), X_SENT)
  {
    OneInstructionFits(CREATED);
    Extend(h, BEGUN_TRACK, NONE_SENT, Handled(Send("x")));
    var sent := h + [Handled(Send("x"))];
    QueuedAndLost(sent, BEGUN_TRACK.(o := BEGUN_TRACK.o.(sent := Some("x"), handled := [Send("x")])));
    assert sent + [Saved(InstructionQueued, PENDING), Booted] == h + Crashed();
  }

  lemma QueuedAndLost(h: seq<Action>, t: Track)
    requires Reaches(h, t, Sends(Some("x"), [])) && t.m == BEGUN_TRACK.m
    requires t.o.sent == Some("x") && t.o.due.AllTold? && !t.o.refused
    ensures Reaches(h + [Saved(InstructionQueued, PENDING), Booted], Track(WAITING, Awakened(WAITING)), X_SENT)
  {
    OneInstructionFits(CREATED);
    ExtendTwice(h, t, Sends(Some("x"), []), Saved(InstructionQueued, PENDING), Booted);
  }

  lemma WokenIsLawful(h: seq<Action>)
    requires Reaches(h, Track(WAITING, Awakened(WAITING)), X_SENT)
    ensures Reaches(h + Woken(), Track(WAITING, SEEN_CLEAN.(announced := Some(WOKEN))), X_SENT)
  {
    TellAndDo(h, Track(WAITING, Awakened(WAITING)), X_SENT, WOKEN, Captured(CLEAN));
  }

  const RESUMED := WAITING.(work := Idle)

  lemma PlanIsFresh()
    ensures PlanFor(PENDING) == Success(Fresh)
  {
    assert !Text.IsWhitespace("job-1"[0]) && !Text.IsWhitespace("task"[0]);
  }

  lemma AcceptedIsLawful(h: seq<Action>)
    requires Reaches(h, Track(WAITING, SEEN_CLEAN.(announced := Some(WOKEN))), X_SENT)
    ensures Reaches(h + Accepted(), Track(RESUMED, VALIDATED), X_SENT)
  {
    PlanIsFresh();
    Extend(h, Track(WAITING, SEEN_CLEAN.(announced := Some(WOKEN))), X_SENT, Emitted(VALID));
    ReopenedIsLawful(h + [Emitted(VALID)]);
    assert h + [Emitted(VALID)] + [Saved(ResumeAccepted, PENDING)] == h + Accepted();
  }

  const VALIDATED := SEEN_CLEAN.(announced := Some(VALID))

  lemma ReopenedIsLawful(h: seq<Action>)
    requires Reaches(h, Track(WAITING, VALIDATED), X_SENT)
    ensures Reaches(h + [Saved(ResumeAccepted, PENDING)], Track(RESUMED, VALIDATED), X_SENT)
  {
    PlanIsFresh();
    Extend(h, Track(WAITING, VALIDATED), X_SENT, Saved(ResumeAccepted, PENDING));
  }

  /** Whatever was handled and announced so far, the next review still carries nothing. */
  lemma AskingIsLawful(h: seq<Action>, o: Observed, sends: Sends)
    requires Reaches(h, Track(RESUMED, o), sends) && Quiet(o)
    ensures Reaches(h + Asking(), Track(RESUMED.(store := Some(STALE), work := ReviewOwed), Due(o)), sends)
  {
    ClearAndDo(h, Track(RESUMED, o), sends, Saved(ReviewBegun, STALE));
  }

  function Due(o: Observed): Observed {
    o.(cleared := true, pausing := false, due := Tell(ASKED, AllTold))
  }

  lemma ReviewedIsLawful(h: seq<Action>, o: Observed, sends: Sends)
    requires Reaches(h, Track(RESUMED.(store := Some(STALE), work := ReviewOwed), o), sends)
    requires o.due == Tell(ASKED, AllTold) && o.sent.None? && !o.refused
    ensures Lawful(h + Reviewed()) && !CaughtUp(h + Reviewed()) && SendsOf(h + Reviewed()) == sends
  {
    TellAndDo(h, Track(RESUMED.(store := Some(STALE), work := ReviewOwed), o), sends, ASKED, ReviewCalled(REVIEW));
  }

  /** The common beginning: accepted, crashed, resumed against an unchanged repository. */
  lemma ResumedWithOneWaiting() returns (h: seq<Action>)
    ensures h == Created() + Begun() + Crashed() + Woken() + Accepted()
    ensures Reaches(h, Track(RESUMED, VALIDATED), X_SENT)
  {
    CreatedIsLawful();
    BegunIsLawful(Created());
    CrashedIsLawful(Created() + Begun());
    WokenIsLawful(Created() + Begun() + Crashed());
    AcceptedIsLawful(Created() + Begun() + Crashed() + Woken());
    h := Created() + Begun() + Crashed() + Woken() + Accepted();
  }

  /**
   A process killed between queuing an instruction and applying it leaves it waiting; resumed without a further
   command, the job is reviewed without an instruction it has accepted.
   */
  lemma StaleInstructionMissesTheReview()
    ensures Lawful(StaleReview()) && !CaughtUp(StaleReview())
    ensures StaleReview()[|StaleReview()| - 1] == ReviewCalled(REVIEW) && REVIEW.instructions == []
    ensures SendsOf(StaleReview()).accepted == ["x"]
  {
    var h := ResumedWithOneWaiting();
    AskingIsLawful(h, VALIDATED, X_SENT);
    ReviewedIsLawful(h + Asking(), Due(VALIDATED), X_SENT);
    assert Reviewed()[1] == ReviewCalled(REVIEW);
  }

  lemma {:induction false} LongIsLong(s: string)
    ensures Text.ByteLength(s) >= |s|
  {
    if s != "" {
      LongIsLong(s[..|s| - 1]);
    }
  }

  lemma LongIsRefused()
    ensures InstructionBudgetRefusal(PENDING, Long()) == Some(TooLarge(TotalBytes(["x"]) + Text.ByteLength(Long())))
  {
    LongIsLong(Long());
    assert PENDING.Active() == ["x"];
  }

  const TURNED_DOWN := VALIDATED.(announced := Some(REFUSED), handled := [Send(Long())])

  lemma RefusingIsLawful(h: seq<Action>)
    requires Reaches(h, Track(RESUMED, VALIDATED), X_SENT)
    ensures Reaches(h + Refusing(), Track(RESUMED, TURNED_DOWN), Sends(Some(Long()), ["x"]))
  {
    LongIsRefused();
    DoAndTell(h, Track(RESUMED, VALIDATED), X_SENT, Handled(Send(Long())), REFUSED);
  }

  /** A refused `/send` does not help: it returns before what was waiting is applied. */
  lemma RefusedSendAppliesNothing()
    ensures Lawful(RefusedReview()) && !CaughtUp(RefusedReview())
    ensures RefusedReview()[|RefusedReview()| - 1] == ReviewCalled(REVIEW) && REVIEW.instructions == []
    ensures SendsOf(RefusedReview()).accepted == ["x"]
    ensures Handled(Send(Long())) in RefusedReview()
  {
    var h := ResumedWithOneWaiting();
    var sends := Sends(Some(Long()), ["x"]);
    RefusingIsLawful(h);
    h := h + Refusing();
    AskingIsLawful(h, TURNED_DOWN, sends);
    ReviewedIsLawful(h + Asking(), Due(TURNED_DOWN), sends);
    assert Reviewed()[1] == ReviewCalled(REVIEW);
    assert Refusing()[0] == Handled(Send(Long()));
  }
}
