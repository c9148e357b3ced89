/** An instruction accepted at the last safe point before an executor run does not reach that run. */
module LateInstructions {
  import opened Wrappers
  import opened JobStates
  import opened Protocol
  import opened Instructions
  import opened Scenarios

  const QUEUED := DIRECTED.(pendingUserInstructions := ["x"])
  const APPLIED := DIRECTED.(appliedUserInstructions := ["x"])

  /** The job's first review directs a run; its request is prepared, and an instruction arrives at the safe point. */
  function LateInstruction(): seq<Action> {
    Created() + Begun() + Asked() + Reviewed() + Answered() + Directed() + Preparing() + [Handled(Send("x"))] + Queued()
    + Applied() + Resumed() + [RunCalled(PREPARED)]
  }

  function Queued(): seq<Action> {
    [Saved(InstructionQueued, QUEUED), Emitted(TOLD_QUEUED)]
  }

  function Applied(): seq<Action> {
    [Saved(InstructionApplied, APPLIED), Emitted(TOLD_APPLIED)]
  }

  function Resumed(): seq<Action> {
    [Cleared, Emitted(STARTED)]
  }

  const SENT_TRACK := PREPARED_TRACK.(o := PREPARED_TRACK.o.(handled := [Send("x")], sent := Some("x")))

  lemma SentIsLawful(h: seq<Action>)
    requires Reaches(h, PREPARED_TRACK, NONE_SENT)
    ensures Reaches(h + [Handled(Send("x"))], SENT_TRACK, Sends(Some("x"), []))
  {
    OneInstructionFits(DIRECTED);
    Extend(h, PREPARED_TRACK, NONE_SENT, Handled(Send("x")));
  }

  const TOLD_QUEUED := UserInstructionQueued("x")
  const QUEUED_TRACK := Track(SENT_TRACK.m.(store := Some(QUEUED)),
                              SENT_TRACK.o.(sent := None, announced := Some(TOLD_QUEUED)))

  lemma QueuedIsLawful(h: seq<Action>)
    requires Reaches(h, SENT_TRACK, Sends(Some("x"), []))
    ensures Reaches(h + Queued(), QUEUED_TRACK, X_SENT)
  {
    OneInstructionFits(DIRECTED);
    DoAndTell(h, SENT_TRACK, Sends(Some("x"), []), Saved(InstructionQueued, QUEUED), TOLD_QUEUED);
  }

  const TOLD_APPLIED := UserInstructionApplied("x")
  const APPLIED_TRACK := Track(QUEUED_TRACK.m.(store := Some(APPLIED)),
                               QUEUED_TRACK.o.(announced := Some(TOLD_APPLIED)))

  lemma AppliedIsLawful(h: seq<Action>)
    requires Reaches(h, QUEUED_TRACK, X_SENT)
    ensures Reaches(h + Applied(), APPLIED_TRACK, X_SENT)
  {
    DoAndTell(h, QUEUED_TRACK, X_SENT, Saved(InstructionApplied, APPLIED), TOLD_APPLIED);
  }

  const RESUMED_TRACK := APPLIED_TRACK.(o := APPLIED_TRACK.o.(cleared := true, announced := Some(STARTED)))

  lemma ResumedIsLawful(h: seq<Action>)
    requires Reaches(h, APPLIED_TRACK, X_SENT)
    ensures Reaches(h + Resumed(), RESUMED_TRACK, X_SENT)
  {
    ClearAndDo(h, APPLIED_TRACK, X_SENT, Emitted(STARTED));
  }

  lemma CalledIsLawful(h: seq<Action>)
    requires Reaches(h, RESUMED_TRACK, X_SENT)
    ensures var called := h + [RunCalled(PREPARED)];
            Lawful(called) && CaughtUp(called) && SendsOf(called) == X_SENT
  {
    Extend(h, RESUMED_TRACK, X_SENT, RunCalled(PREPARED));
  }

  /**
   The promise that an active instruction reaches every later provider call fails for the executor: an instruction
   accepted and applied at the safe point between building the request and sending it is not in the request.
   */
  lemma LateInstructionMissesTheRun()
    ensures Lawful(LateInstruction()) && CaughtUp(LateInstruction())
    ensures LateInstruction()[|LateInstruction()| - 1] == RunCalled(PREPARED) && PREPARED.instructions == []
    ensures SendsOf(LateInstruction()).accepted == ["x"]
  {
    CreatedIsLawful();
    var h := Created();
    BegunIsLawful(h);
    h := h + Begun();
    AskedIsLawful(h);
    h := h + Asked();
    ReviewedIsLawful(h);
    h := h + Reviewed();
    AnsweredIsLawful(h);
    h := h + Answered();
    DirectedIsLawful(h);
    h := h + Directed();
    PreparedIsLawful(h);
    h := h + Preparing();
    SentIsLawful(h);
    h := h + [Handled(Send("x"))];
    QueuedIsLawful(h);
    h := h + Queued();
    AppliedIsLawful(h);
    h := h + Applied();
    ResumedIsLawful(h);
    CalledIsLawful(h + Resumed());
  }
}
