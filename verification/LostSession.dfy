/** A job whose runs never returned a session cannot be continued once a correction is directed. */
module LostSession {
  import opened Wrappers
  import opened JobStates
  import opened Protocol
  import opened Persisted
  import opened Scenarios

  const DONE := ExecutorResult(None, "done")
  const RECORDED := CREATED.(iteration := 1, lastSupervisorDecision := Some(DECISION),
                             lastExecutorReport := Some("done"))
  const SECOND := RECORDED.(iteration := 2, pendingOperation := Some(SupervisorReview))
  const CORRECTING := SECOND.(phase := ExecutorPhase, pendingOperation := Some(ExecutorRun))
  const REVIEW2 := ReviewRequest("task", 2, Some("done"), CLEAN, [])
  const ASKED2 := SupervisorStarted(REVIEW2)
  const RAN := ExecutorFinished(DONE)

  function Calling(): seq<Action> {
    [Cleared, Emitted(STARTED)]
  }

  function Running(): seq<Action> {
    [RunCalled(PREPARED), RunReturned(Success(DONE))]
  }

  function Recording(): seq<Action> {
    [Saved(RunRecorded, RECORDED), Emitted(RAN)]
  }

  function Capturing(): seq<Action> {
    [Captured(CLEAN), Saved(SnapshotTaken, RECORDED)]
  }

  function Clearing(): seq<Action> {
    [Emitted(SEEN), Cleared]
  }

  function AskingAgain(): seq<Action> {
    [Saved(ReviewBegun, SECOND), Emitted(ASKED2)]
  }

  function AnsweringAgain(): seq<Action> {
    [ReviewCalled(REVIEW2), ReviewAnswered(Success(DECISION))]
  }

  function Correcting(): seq<Action> {
    [Cleared, Emitted(HEARD)]
  }

  /** The first run returns no session, and the second review directs a correction. */
  function Correction(): seq<Action> {
    FirstRun() + Capturing() + Clearing() + AskingAgain() + AnsweringAgain() + Correcting()
    + [Saved(RunDirected, CORRECTING)]
  }

  function FirstRun(): seq<Action> {
    Created() + Begun() + Asked() + Reviewed() + Answered() + Directed() + Preparing() + Calling() + Running()
    + Recording()
  }

  const CALLING_TRACK := PREPARED_TRACK.(o := PREPARED_TRACK.o.(cleared := true, announced := Some(STARTED)))

  lemma CallingIsLawful(h: seq<Action>)
    requires Reaches(h, PREPARED_TRACK, NONE_SENT)
    ensures Reaches(h + Calling(), CALLING_TRACK, NONE_SENT)
  {
    ClearAndDo(h, PREPARED_TRACK, NONE_SENT, Emitted(STARTED));
  }

  const RUNNING_TRACK := Track(PREPARED_TRACK.m.(work := Ran(DONE)), SEEN_CLEAN.(announced := Some(STARTED)))

  lemma RunningIsLawful(h: seq<Action>)
    requires Reaches(h, CALLING_TRACK, NONE_SENT)
    ensures Reaches(h + Running(), RUNNING_TRACK, NONE_SENT)
  {
    ExtendTwice(h, CALLING_TRACK, NONE_SENT, RunCalled(PREPARED), RunReturned(Success(DONE)));
  }

  const RECORDED_TRACK := Track(INITIAL.(store := Some(RECORDED), work := Recorded),
                                SEEN_CLEAN.(announced := Some(RAN)))

  lemma RecordingIsLawful(h: seq<Action>)
    requires Reaches(h, RUNNING_TRACK, NONE_SENT)
    ensures Reaches(h + Recording(), RECORDED_TRACK, NONE_SENT)
  {
    DoAndTell(h, RUNNING_TRACK, NONE_SENT, Saved(RunRecorded, RECORDED), RAN);
  }

  const CAPTURED_TRACK := Track(INITIAL.(store := Some(RECORDED), work := Idle),
                                SEEN_CLEAN.(announced := Some(RAN), due := Tell(SEEN, AllTold)))

  lemma CapturingIsLawful(h: seq<Action>)
    requires Reaches(h, RECORDED_TRACK, NONE_SENT)
    ensures Reaches(h + Capturing(), CAPTURED_TRACK, NONE_SENT)
  {
    ExtendTwice(h, RECORDED_TRACK, NONE_SENT, Captured(CLEAN), Saved(SnapshotTaken, RECORDED));
  }

  const CLEAR_TRACK := CAPTURED_TRACK.(o := SEEN_CLEAN.(announced := Some(SEEN), cleared := true))

  lemma ClearingIsLawful(h: seq<Action>)
    requires Reaches(h, CAPTURED_TRACK, NONE_SENT)
    ensures Reaches(h + Clearing(), CLEAR_TRACK, NONE_SENT)
  {
    TellAndDo(h, CAPTURED_TRACK, NONE_SENT, SEEN, Cleared);
  }

  const ASKED2_TRACK := Track(INITIAL.(store := Some(SECOND), work := ReviewOwed),
                              SEEN_CLEAN.(announced := Some(ASKED2), cleared := true))

  lemma AskingAgainIsLawful(h: seq<Action>)
    requires Reaches(h, CLEAR_TRACK, NONE_SENT)
    ensures Reaches(h + AskingAgain(), ASKED2_TRACK, NONE_SENT)
  {
    DoAndTell(h, CLEAR_TRACK, NONE_SENT, Saved(ReviewBegun, SECOND), ASKED2);
  }

  const HEARD2_TRACK := Track(INITIAL.(store := Some(SECOND), work := Heard(REVIEW2, DECISION)),
                              SEEN_CLEAN.(announced := Some(ASKED2)))

  lemma AnsweringAgainIsLawful(h: seq<Action>)
    requires Reaches(h, ASKED2_TRACK, NONE_SENT)
    ensures Reaches(h + AnsweringAgain(), HEARD2_TRACK, NONE_SENT)
  {
    assert !Text.IsWhitespace("prompt"[0]);
    ExtendTwice(h, ASKED2_TRACK, NONE_SENT, ReviewCalled(REVIEW2), ReviewAnswered(Success(DECISION)));
  }

  const TOLD2_TRACK := HEARD2_TRACK.(o := SEEN_CLEAN.(announced := Some(HEARD), cleared := true))

  lemma CorrectingIsLawful(h: seq<Action>)
    requires Reaches(h, HEARD2_TRACK, NONE_SENT)
    ensures Reaches(h + Correcting(), TOLD2_TRACK, NONE_SENT)
  {
    ClearAndDo(h, HEARD2_TRACK, NONE_SENT, Emitted(HEARD));
  }

  lemma DirectedAgainIsLawful(h: seq<Action>)
    requires Reaches(h, TOLD2_TRACK, NONE_SENT)
    ensures var directed := h + [Saved(RunDirected, CORRECTING)];
            Lawful(directed) && Stored(directed) == Some(CORRECTING)
  {
    Extend(h, TOLD2_TRACK, NONE_SENT, Saved(RunDirected, CORRECTING));
  }

  lemma FirstRunIsLawful()
    ensures Reaches(FirstRun(), RECORDED_TRACK, NONE_SENT)
  {
    CreatedIsLawful();
    var h := Created();
    BegunIsLawful(h);
    h := h + Begun();
    AskedIsLawful(h);
    h := h + Asked();
    ReviewedIsLawful(h);
    h := h + Reviewed();
    AnsweredIsLawful(h);
    h := h + Answered();
    DirectedIsLawful(h);
    h := h + Directed();
    PreparedIsLawful(h);
    h := h + Preparing();
    CallingIsLawful(h);
    h := h + Calling();
    RunningIsLawful(h);
    RecordingIsLawful(h + Running());
  }

  /**
   A process that dies right after directing the correction leaves a record that is resumable by its status and that
   no process can continue.
   */
  lemma CorrectionWithoutSessionIsParked()
    ensures Lawful(Correction()) && Stored(Correction()).Some?
    ensures Stored(Correction()).value.status.IsResumable() && LacksSession(Stored(Correction()).value)
    ensures PlanFor(Stored(Correction()).value) == Failure(Invalid(CorrectionWithoutSession))
  {
    FirstRunIsLawful();
    var h := FirstRun();
    CapturingIsLawful(h);
    h := h + Capturing();
    ClearingIsLawful(h);
    h := h + Clearing();
    AskingAgainIsLawful(h);
    h := h + AskingAgain();
    AnsweringAgainIsLawful(h);
    h := h + AnsweringAgain();
    CorrectingIsLawful(h);
    DirectedAgainIsLawful(h + Correcting());
    ResumableRecordsContinue(Correction());
  }
}
