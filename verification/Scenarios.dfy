/** The first steps of one concrete job, which the histories below continue. */
module Scenarios {
  import opened Wrappers
  import opened JobStates
  import opened Protocol
  import opened Instructions

  const RUN := RunConfiguration(10, 10, false, false, None)
  const CLEAN := RepositoryState("head", "", "")
  const CREATED := FreshJob(JobIdentity("job-1", "project", "/work/project", "task", RUN, 0), CLEAN)
  const REVIEWED := CREATED.(iteration := 1, pendingOperation := Some(SupervisorReview))
  const DIRECTED := REVIEWED.(phase := ExecutorPhase, pendingOperation := Some(ExecutorRun),
                              lastSupervisorDecision := Some(DECISION))

  const REVIEW := ReviewRequest("task", 1, None, CLEAN, [])
  const DECISION := Claude("prompt", None)
  const PREPARED := ExecutorRequest("prompt", NewSession, false, [])

  const BEGUN := JobStarted("task")
  const SEEN := RepositoryCaptured(CLEAN)
  const ASKED := SupervisorStarted(REVIEW)
  const HEARD := SupervisorFinished(DECISION)
  const STARTED := ExecutorStarted("prompt", NewSession)

  function Created(): seq<Action> {
    [Captured(CLEAN), Saved(JobCreated, CREATED)]
  }

  function Begun(): seq<Action> {
    [Emitted(BEGUN), Emitted(SEEN)]
  }

  function Asked(): seq<Action> {
    [Cleared, Saved(ReviewBegun, REVIEWED)]
  }

  function Reviewed(): seq<Action> {
    [Emitted(ASKED), ReviewCalled(REVIEW)]
  }

  function Answered(): seq<Action> {
    [ReviewAnswered(Success(DECISION)), Cleared]
  }

  function Directed(): seq<Action> {
    [Emitted(HEARD), Saved(RunDirected, DIRECTED)]
  }

  function Preparing(): seq<Action> {
    [Cleared, RunPrepared(PREPARED)]
  }

  ghost predicate Reaches(h: seq<Action>, t: Track, sends: Sends) {
    Lawful(h) && After(h) == t && SendsOf(h) == sends
  }

  /** Follow a history one action further, or two. */
  lemma Extend(h: seq<Action>, t: Track, sends: Sends, a: Action)
    requires Reaches(h, t, sends) && Permitted(t, a)
    ensures Reaches(h + [a], Next(t, a), SendsAfter(sends, a))
  {
    Append(h, a);
    assert (h + [a])[..|h|] == h;
  }

  lemma ExtendTwice(h: seq<Action>, t: Track, sends: Sends, a: Action, b: Action)
    requires Reaches(h, t, sends) && Permitted(t, a) && Permitted(Next(t, a), b)
    ensures Reaches(h + [a, b], Next(Next(t, a), b), SendsAfter(SendsAfter(sends, a), b))
  {
    Extend(h, t, sends, a);
    Extend(h + [a], Next(t, a), SendsAfter(sends, a), b);
    assert h + [a] + [b] == h + [a, b];
  }

  /** Follow a history through the next event that is due. */
  lemma Tells(h: seq<Action>, t: Track, sends: Sends, kind: JobEventKind)
    requires Reaches(h, t, sends) && t.o.due.Tell? && t.o.due.kind == kind && !t.o.refused
    ensures Reaches(h + [Emitted(kind)], Told(t, kind), sends)
  {
    Extend(h, t, sends, Emitted(kind));
  }

  function Told(t: Track, kind: JobEventKind): Track {
    t.(o := t.o.(announced := Some(kind), due := Left(t.o.due)))
  }

  /** ... through an action and the one event it owes. */
  lemma DoAndTell(h: seq<Action>, t: Track, sends: Sends, a: Action, kind: JobEventKind)
    requires Reaches(h, t, sends) && Permitted(t, a) && Next(t, a).o.due == Once(kind) && !Next(t, a).o.refused
    ensures Reaches(h + [a, Emitted(kind)], Told(Next(t, a), kind), SendsAfter(sends, a))
  {
    Extend(h, t, sends, a);
    Tells(h + [a], Next(t, a), SendsAfter(sends, a), kind);
    assert h + [a] + [Emitted(kind)] == h + [a, Emitted(kind)];
  }

  /** ... through the next event that is due and then an action. */
  lemma TellAndDo(h: seq<Action>, t: Track, sends: Sends, kind: JobEventKind, a: Action)
    requires Reaches(h, t, sends) && t.o.due.Tell? && t.o.due.kind == kind && !t.o.refused
    requires Permitted(Told(t, kind), a)
    ensures Reaches(h + [Emitted(kind), a], Next(Told(t, kind), a), SendsAfter(sends, a))
  {
    Tells(h, t, sends, kind);
    Extend(h + [Emitted(kind)], Told(t, kind), sends, a);
    assert h + [Emitted(kind)] + [a] == h + [Emitted(kind), a];
  }

  /** ... through a safe point and then an action. */
  lemma ClearAndDo(h: seq<Action>, t: Track, sends: Sends, a: Action)
    requires Reaches(h, t, sends) && t.m.store.Some? && !t.m.halted && Quiet(t.o) && Permitted(Passed(t), a)
    ensures Reaches(h + [Cleared, a], Next(Passed(t), a), SendsAfter(sends, a))
  {
    Extend(h, t, sends, Cleared);
    Extend(h + [Cleared], Passed(t), sends, a);
    assert h + [Cleared] + [a] == h + [Cleared, a];
  }

  function Passed(t: Track): Track {
    t.(o := t.o.(cleared := true, pausing := false))
  }

  const NONE_SENT := Sends(None, [])
  const SEEN_CLEAN := NOTHING_YET.(seen := Some(CLEAN))
  const CREATED_TRACK := Track(INITIAL.(store := Some(CREATED), work := Idle),
                               SEEN_CLEAN.(due := Tell(BEGUN, Tell(SEEN, AllTold))))

  lemma CreatedIsLawful()
    ensures Reaches(Created(), CREATED_TRACK, NONE_SENT)
  {
    assert !Text.IsWhitespace("job-1"[0]) && !Text.IsWhitespace("task"[0]);
    ExtendTwice([], Track(INITIAL, NOTHING_YET), NONE_SENT, Captured(CLEAN), Saved(JobCreated, CREATED));
    assert [] + Created() == Created();
  }

  const BEGUN_TRACK := CREATED_TRACK.(o := SEEN_CLEAN.(announced := Some(SEEN)))

  lemma BegunIsLawful(h: seq<Action>)
    requires Reaches(h, CREATED_TRACK, NONE_SENT)
    ensures Reaches(h + Begun(), BEGUN_TRACK, NONE_SENT)
  {
    TellAndDo(h, CREATED_TRACK, NONE_SENT, BEGUN, Emitted(SEEN));
  }

  const ASKED_TRACK := Track(INITIAL.(store := Some(REVIEWED), work := ReviewOwed),
                             SEEN_CLEAN.(announced := Some(SEEN), cleared := true, due := Tell(ASKED, AllTold)))

  lemma AskedIsLawful(h: seq<Action>)
    requires Reaches(h, BEGUN_TRACK, NONE_SENT)
    ensures Reaches(h + Asked(), ASKED_TRACK, NONE_SENT)
  {
    ClearAndDo(h, BEGUN_TRACK, NONE_SENT, Saved(ReviewBegun, REVIEWED));
  }

  const REVIEWED_TRACK := Track(INITIAL.(store := Some(REVIEWED), work := InReview(REVIEW)),
                                SEEN_CLEAN.(announced := Some(ASKED), cleared := true))

  lemma ReviewedIsLawful(h: seq<Action>)
    requires Reaches(h, ASKED_TRACK, NONE_SENT)
    ensures Reaches(h + Reviewed(), REVIEWED_TRACK, NONE_SENT)
  {
    TellAndDo(h, ASKED_TRACK, NONE_SENT, ASKED, ReviewCalled(REVIEW));
  }

  const HEARD_TRACK := REVIEWED_TRACK.(m := REVIEWED_TRACK.m.(work := Heard(REVIEW, DECISION)))

  lemma AnsweredIsLawful(h: seq<Action>)
    requires Reaches(h, REVIEWED_TRACK, NONE_SENT)
    ensures Reaches(h + Answered(), HEARD_TRACK, NONE_SENT)
  {
    assert !Text.IsWhitespace("prompt"[0]);
    ExtendTwice(h, REVIEWED_TRACK, NONE_SENT, ReviewAnswered(Success(DECISION)), Cleared);
  }

  const DIRECTED_TRACK := Track(INITIAL.(store := Some(DIRECTED), work := Idle),
                                SEEN_CLEAN.(announced := Some(HEARD)))

  lemma DirectedIsLawful(h: seq<Action>)
    requires Reaches(h, HEARD_TRACK, NONE_SENT)
    ensures Reaches(h + Directed(), DIRECTED_TRACK, NONE_SENT)
  {
    ExtendTwice(h, HEARD_TRACK, NONE_SENT, Emitted(HEARD), Saved(RunDirected, DIRECTED));
  }

  const PREPARED_TRACK := DIRECTED_TRACK.(m := DIRECTED_TRACK.m.(work := Work.Prepared(PREPARED)))

  lemma PreparedIsLawful(h: seq<Action>)
    requires Reaches(h, DIRECTED_TRACK, NONE_SENT)
    ensures Reaches(h + Preparing(), PREPARED_TRACK, NONE_SENT)
  {
    ClearAndDo(h, DIRECTED_TRACK, NONE_SENT, RunPrepared(PREPARED));
  }

  const X_SENT := Sends(None, ["x"])

  lemma OneInstructionFits(job: JobState)
    requires job.appliedUserInstructions == job.pendingUserInstructions == []
    ensures InstructionBudgetRefusal(job, "x").None?
  {
    assert TotalBytes([]) == 0 && Text.ByteLength("") == 0;
    assert Text.ByteLength("x") == Text.ByteLength("x"[..0]) + 1;
  }
}
