/** A terminal record is rewritten when the event that reports its refused resumption cannot be written. */
module RewrittenOutcome {
  import opened Wrappers
  import opened JobStates
  import opened Protocol
  import opened Instructions
  import opened Scenarios

  const ACCEPT := Accept("title", None, None)
  const ACCEPTED := REVIEWED.(pendingOperation := None, status := Accepted, lastSupervisorDecision := Some(ACCEPT),
                              acceptedRepositoryState := Some(CLEAN))
  const OVERWRITTEN := ACCEPTED.(status := Failed)
  const OVER := JobFinished(Accepted)
  const WOKEN := ResumeStarted(Accepted, None)

  /** The first review accepts, and there is nothing to publish. */
  function Accepting(): seq<Action> {
    Created() + Begun() + Asked() + Reviewed() + Agreed() + Closed()
  }

  function Agreed(): seq<Action> {
    [ReviewAnswered(Success(ACCEPT)), Cleared]
  }

  function Closed(): seq<Action> {
    [Emitted(SupervisorFinished(ACCEPT)), Saved(DecisionClosed, ACCEPTED)]
  }

  /** The accepted job is resumed, and the log cannot be written. */
  function Overwriting(): seq<Action> {
    [Emitted(OVER), Booted, Refused(WOKEN), Saved(FailedWrite, OVERWRITTEN)]
  }

  const AGREED_TRACK := REVIEWED_TRACK.(m := REVIEWED_TRACK.m.(work := Heard(REVIEW, ACCEPT)))

  lemma AgreedIsLawful(h: seq<Action>)
    requires Reaches(h, REVIEWED_TRACK, NONE_SENT)
    ensures Reaches(h + Agreed(), AGREED_TRACK, NONE_SENT)
  {
    assert !Text.IsWhitespace("title"[0]);
    ExtendTwice(h, REVIEWED_TRACK, NONE_SENT, ReviewAnswered(Success(ACCEPT)), Cleared);
  }

  const CLOSED_TRACK := Track(INITIAL.(store := Some(ACCEPTED), work := Idle),
                              SEEN_CLEAN.(announced := Some(SupervisorFinished(ACCEPT)), cleared := true,
                                          due := Tell(OVER, AllTold)))

  lemma ClosedIsLawful(h: seq<Action>)
    requires Reaches(h, AGREED_TRACK, NONE_SENT)
    ensures Reaches(h + Closed(), CLOSED_TRACK, NONE_SENT)
  {
    ExtendTwice(h, AGREED_TRACK, NONE_SENT, Emitted(SupervisorFinished(ACCEPT)), Saved(DecisionClosed, ACCEPTED));
  }

  const ENDED := INITIAL.(store := Some(ACCEPTED))

  lemma EndedIsLawful(h: seq<Action>)
    requires Reaches(h, CLOSED_TRACK, NONE_SENT)
    ensures Reaches(h + [Emitted(OVER), Booted], Track(ENDED, Awakened(ENDED)), NONE_SENT)
  {
    TellAndDo(h, CLOSED_TRACK, NONE_SENT, OVER, Booted);
  }

  const REFUSED_TRACK := Track(ENDED, NOTHING_YET.(refused := true))

  lemma RefusedIsLawful(h: seq<Action>)
    requires Reaches(h, Track(ENDED, Awakened(ENDED)), NONE_SENT)
    ensures Reaches(h + [Refused(WOKEN)], REFUSED_TRACK, NONE_SENT)
  {
    Extend(h, Track(ENDED, Awakened(ENDED)), NONE_SENT, Refused(WOKEN));
  }

  lemma OverwrittenIsLawful(h: seq<Action>)
    requires Reaches(h, REFUSED_TRACK, NONE_SENT)
    ensures Lawful(h + [Saved(FailedWrite, OVERWRITTEN)])
    ensures Stored(h + [Saved(FailedWrite, OVERWRITTEN)]) == Some(OVERWRITTEN)
  {
    Extend(h, REFUSED_TRACK, NONE_SENT, Saved(FailedWrite, OVERWRITTEN));
  }

  lemma AcceptingIsLawful()
    ensures Reaches(Accepting(), CLOSED_TRACK, NONE_SENT)
  {
    CreatedIsLawful();
    var h := Created();
    BegunIsLawful(h);
    h := h + Begun();
    AskedIsLawful(h);
    h := h + Asked();
    ReviewedIsLawful(h);
    h := h + Reviewed();
    AgreedIsLawful(h);
    ClosedIsLawful(h + Agreed());
  }

  /** An accepted job becomes a failed one, although nothing was wrong with it. */
  lemma RefusedEventRewritesAnOutcome()
    ensures Lawful(Accepting()) && Stored(Accepting()) == Some(ACCEPTED)
    ensures Lawful(Accepting() + Overwriting()) && Stored(Accepting() + Overwriting()) == Some(OVERWRITTEN)
  {
    AcceptingIsLawful();
    EndedIsLawful(Accepting());
    var h := Accepting() + [Emitted(OVER), Booted];
    RefusedIsLawful(h);
    OverwrittenIsLawful(h + [Refused(WOKEN)]);
    assert h + [Refused(WOKEN)] + [Saved(FailedWrite, OVERWRITTEN)] == Accepting() + Overwriting();
  }
}
