/**
 The control channel between any number of senders and one job, as an interleaving of atomic steps.

 `ControlSender::send` raises or drops a flag first and enqueues the command afterwards, as two steps. The job's
 `safe_point` drains the queue, handles what it took, reads the stop flag, reads the pause flag, and while paused
 blocks on the queue.
 */
module Control {
  import opened Protocol

  datatype Sender = Ready | Flagged(command: ControlCommand) | Dropped

  datatype Ending = Finished | StopObserved | InputEnded | Faulted

  datatype Job =
    | Working                                     // between safe points: the only place where providers are called
    | Draining(taken: seq<ControlCommand>)
    | Handling(taken: seq<ControlCommand>)
    | StopCheck(paused: bool)
    | PauseCheck(paused: bool)
    | Pausing                                     // PAUSED is being saved and announced
    | Waiting                                     // in `next`
    | Ended(ending: Ending)

  datatype State = State(
    pause: bool,
    stop: bool,
    queue: seq<ControlCommand>,
    senders: seq<Sender>,
    job: Job,
    sent: seq<ControlCommand>,                    // every command ever enqueued
    handled: seq<ControlCommand>,                 // every command the job has handled
    passed: nat)                                  // how often a safe point has let the job go on

  datatype Step =
    | StoreFlag(i: nat, command: ControlCommand)
    | Enqueue(i: nat)
    | Clone(i: nat)
    | Drop(i: nat)
    | Advance                                     // the job's next atomic step
    | Finish                                      // the work between two safe points ends the job
    | Fail                                        // a save or an event failed

  predicate Live(s: State, i: nat) {
    i < |s.senders| && s.senders[i].Ready?
  }

  predicate AllDropped(s: State) {
    forall i :: 0 <= i < |s.senders| ==> s.senders[i].Dropped?
  }

  predicate Enabled(s: State, step: Step) {
    match step
    case StoreFlag(i, _) => Live(s, i)
    case Enqueue(i) => i < |s.senders| && s.senders[i].Flagged?
    case Clone(i) => Live(s, i)
    case Drop(i) => Live(s, i)
    case Advance => !s.job.Ended? && (s.job.Waiting? ==> s.queue != [] || AllDropped(s))
    case Finish => s.job.Working?
    case Fail => !s.job.Ended?
  }

  function Next(s: State, step: Step): State
    requires Enabled(s, step)
  {
    match step
    case StoreFlag(i, command) => Raised(s, command).(senders := s.senders[i := Flagged(command)])
    case Enqueue(i) =>
      s.(queue := s.queue + [s.senders[i].command], sent := s.sent + [s.senders[i].command],
         senders := s.senders[i := Ready])
    case Clone(_) => s.(senders := s.senders + [Ready])
    case Drop(i) => s.(senders := s.senders[i := Dropped])
    case Advance => Advanced(s)
    case Finish => s.(job := Ended(Finished))
    case Fail => s.(job := Ended(Faulted))
  }

  function Raised(s: State, command: ControlCommand): State {
    match command
    case Pause => s.(pause := true)
    case Resume => s.(pause := false)
    case StopCommand => s.(stop := true)
    case _ => s
  }

  function Advanced(s: State): State
    requires Enabled(s, Advance)
  {
    match s.job
    case Working => s.(job := Draining([]))
    case Draining(taken) =>
      if s.queue == [] then s.(job := Handling(taken))
      else s.(queue := s.queue[1..], job := Draining(taken + [s.queue[0]]))
    case Handling(taken) =>
      if taken == [] then s.(job := StopCheck(false))
      else s.(handled := s.handled + [taken[0]], job := Handling(taken[1..]))
    case StopCheck(paused) => s.(job := if s.stop then Ended(StopObserved) else PauseCheck(paused))
    case PauseCheck(paused) =>
      if !s.pause then s.(job := Working, passed := s.passed + 1)
      else s.(job := if paused then Waiting else Pausing)
    case Pausing => s.(job := Waiting)
    case Waiting =>
      if s.queue == [] then s.(job := Ended(InputEnded))
      else s.(queue := s.queue[1..], handled := s.handled + [s.queue[0]], job := StopCheck(true))
    case Ended(_) => s
  }

  predicate Initial(s: State) {
    && !s.pause && !s.stop && s.queue == [] && s.sent == [] && s.handled == [] && s.passed == 0
    && s.job.Draining? && s.job.taken == []
    && forall i :: 0 <= i < |s.senders| ==> s.senders[i].Ready?
  }

  ghost predicate Follows(s: State, t: State) {
    exists step :: Enabled(s, step) && t == Next(s, step)
  }

  ghost predicate IsRun(run: seq<State>) {
    && run != [] && Initial(run[0])
    && forall i :: 0 < i < |run| ==> Follows(run[i - 1], run[i])
  }

  // ---- No lost wake-up --------------------------------------------------------------------------

  /** Some command is still on its way to the job: enqueued, or between its flag and its queue step. */
  ghost predicate OnItsWay(s: State) {
    s.queue != [] || exists i :: 0 <= i < |s.senders| && s.senders[i].Flagged?
  }

  ghost predicate Inv(s: State) {
    FlagsFit(s) && InOrder(s)
  }

  ghost predicate FlagsFit(s: State) {
    && (s.job.PauseCheck? ==> !s.stop || OnItsWay(s))
    && (s.job.Pausing? || s.job.Waiting? ==> (s.pause && !s.stop) || OnItsWay(s))
    && (s.job == Ended(InputEnded) ==> s.pause && !s.stop && s.queue == [] && AllDropped(s))
    && (s.job == Ended(StopObserved) ==> s.stop)
  }

  /** What was sent is what was handled, then what the job holds, then what is queued. */
  ghost predicate InOrder(s: State) {
    match s.job
    case Draining(taken) => s.sent == s.handled + taken + s.queue
    case Handling(taken) => s.sent == s.handled + taken + s.queue
    case Ended(Faulted) => s.handled <= s.sent
    case Ended(_) => s.sent == s.handled + s.queue
    case _ => s.sent == s.handled + s.queue
  }

  lemma SenderKeepsInv(s: State, step: Step)
    requires Inv(s) && Enabled(s, step) && (step.StoreFlag? || step.Enqueue? || step.Clone? || step.Drop?)
    ensures Inv(Next(s, step))
  {
    var t := Next(s, step);
    match step {
      case StoreFlag(i, _) =>
        assert t.senders[i].Flagged?;
      case Enqueue(_) =>
      case Clone(_) =>
        if j :| 0 <= j < |s.senders| && s.senders[j].Flagged? {
          assert t.senders[j].Flagged?;
        }
      case Drop(_) =>
        if j :| 0 <= j < |s.senders| && s.senders[j].Flagged? {
          assert t.senders[j].Flagged?;
        }
    }
  }

  lemma JobKeepsFlags(s: State, step: Step)
    requires FlagsFit(s) && Enabled(s, step) && (step.Advance? || step.Finish? || step.Fail?)
    ensures FlagsFit(Next(s, step))
  {
    assert Next(s, step).senders == s.senders;
  }

  lemma JobKeepsOrder(s: State, step: Step)
    requires InOrder(s) && Enabled(s, step) && (step.Advance? || step.Finish? || step.Fail?)
    ensures InOrder(Next(s, step))
  {
    match s.job {
      case Draining(taken) =>
        if s.queue != [] {
          assert taken + [s.queue[0]] + s.queue[1..] == taken + s.queue;
        }
      case Handling(taken) =>
        if taken != [] {
          assert s.handled + [taken[0]] + taken[1..] == s.handled + taken;
        }
      case Waiting =>
        if s.queue != [] {
          assert s.handled + [s.queue[0]] + s.queue[1..] == s.handled + s.queue;
        }
      case _ =>
    }
  }

  lemma {:induction false} RunKeepsInv(run: seq<State>, i: nat)
    requires IsRun(run) && i < |run|
    ensures Inv(run[i])
  {
    if i > 0 {
      RunKeepsInv(run, i - 1);
      assert Follows(run[i - 1], run[i]);
      var step :| Enabled(run[i - 1], step) && run[i] == Next(run[i - 1], step);
      if step.Advance? || step.Finish? || step.Fail? {
        JobKeepsFlags(run[i - 1], step);
        JobKeepsOrder(run[i - 1], step);
      } else {
        SenderKeepsInv(run[i - 1], step);
      }
    }
  }

  /**
   No resume and no stop is lost, whatever the interleaving: a job blocked in the paused loop on an empty queue,
   with no sender between its flag and its queue step, has the pause flag raised and the stop flag down.
   */
  lemma NoLostWakeUp(run: seq<State>, i: nat)
    requires IsRun(run) && i < |run| && run[i].job.Waiting? && !OnItsWay(run[i])
    ensures run[i].pause && !run[i].stop
  {
    RunKeepsInv(run, i);
  }

  /**
   A job leaves the paused loop for lack of input only when every sender is gone, nothing is left in the queue and
   nobody has asked to stop; it ends as stopped only when somebody has.
   */
  lemma EndingsAreHonest(run: seq<State>, i: nat)
    requires IsRun(run) && i < |run|
    ensures run[i].job == Ended(InputEnded) ==>
              AllDropped(run[i]) && run[i].queue == [] && run[i].pause && !run[i].stop
    ensures run[i].job == Ended(StopObserved) ==> run[i].stop
  {
    RunKeepsInv(run, i);
  }

  /** Commands are handled in the order they were enqueued, none twice, and a job that waits has handled them all. */
  lemma HandledInOrder(run: seq<State>, i: nat)
    requires IsRun(run) && i < |run|
    ensures run[i].handled <= run[i].sent
    ensures run[i].job.Waiting? && run[i].queue == [] ==> run[i].handled == run[i].sent
  {
    RunKeepsInv(run, i);
  }

  // ---- Stop is final ----------------------------------------------------------------------------

  /** How often the job can have gone past a safe point once the step it is in completes. */
  function Passes(s: State): nat {
    s.passed + if s.job.PauseCheck? then 1 else 0
  }

  lemma StepAfterStop(s: State, step: Step)
    requires Enabled(s, step) && s.stop
    ensures Next(s, step).stop && Passes(Next(s, step)) <= Passes(s)
  {
  }

  lemma FollowsAfterStop(s: State, t: State)
    requires Follows(s, t) && s.stop
    ensures t.stop && Passes(t) <= Passes(s)
  {
    var step :| Enabled(s, step) && t == Next(s, step);
    StepAfterStop(s, step);
  }

  /**
   The stop flag is never lowered, and once it is raised no later safe point lets the job go on: only a safe point
   that had already read it as clear may still do so, once.
   */
  lemma {:induction false} NoWorkAfterStop(run: seq<State>, i: nat, k: nat)
    requires IsRun(run) && i <= k < |run| && run[i].stop
    ensures run[k].stop && Passes(run[k]) <= Passes(run[i])
    ensures !run[i].job.PauseCheck? ==> run[k].passed <= run[i].passed
  {
    if k > i {
      NoWorkAfterStop(run, i, k - 1);
      assert Follows(run[k - 1], run[k]);
      FollowsAfterStop(run[k - 1], run[k]);
    }
  }

  // ---- A stopped job ends -----------------------------------------------------------------------

  /** The job works, or is at a safe point that has already read the stop flag as down. */
  predicate AtWork(s: State) {
    s.job.Working? || s.job.PauseCheck?
  }

  /** Once the stop flag is raised outside its work, the job never works again, whatever the senders do. */
  lemma {:induction false} StoppedJobStaysOut(run: seq<State>, i: nat, k: nat)
    requires IsRun(run) && i <= k < |run| && run[i].stop && !AtWork(run[i])
    ensures run[k].stop && !AtWork(run[k])
  {
    if k > i {
      StoppedJobStaysOut(run, i, k - 1);
      assert Follows(run[k - 1], run[k]);
    }
  }

  /** How many steps of its own a stopped job is from its end. */
  function StepsLeft(s: State): nat {
    match s.job
    case Draining(taken) => 2 * |s.queue| + |taken| + 3
    case Handling(taken) => |taken| + 2
    case StopCheck(_) => 1
    case Pausing => 3
    case Waiting => 2
    case _ => 0
  }

  /** The job's own next `n` steps, as far as it can take them. */
  function Alone(s: State, n: nat): State
    decreases n
  {
    if n == 0 || !Enabled(s, Advance) then s else Alone(Advanced(s), n - 1)
  }

  lemma StepTowardsEnd(s: State)
    requires Inv(s) && s.stop && !AtWork(s) && Enabled(s, Advance)
    ensures var t := Advanced(s);
            t.stop && !AtWork(t) && StepsLeft(t) == StepsLeft(s) - 1 && (t.job.Ended? ==> t.job == Ended(StopObserved))
  {
  }

  lemma {:induction false} AloneEnds(s: State)
    requires Inv(s) && s.stop && !AtWork(s) && (s.job.Ended? ==> s.job == Ended(StopObserved))
    requires s.job.Pausing? || s.job.Waiting? ==> s.queue != []
    ensures Alone(s, StepsLeft(s)).job == Ended(StopObserved)
    decreases StepsLeft(s)
  {
    if !s.job.Ended? {
      JobKeepsFlags(s, Advance);
      JobKeepsOrder(s, Advance);
      StepTowardsEnd(s);
      AloneEnds(Advanced(s));
    }
  }

  /**
   Stopped outside its work, the job has ended as stopped after so many steps of its own; it can be held up only
   while it waits for a command some sender has already flagged, and the sender's next step lets it go on.
   */
  lemma StoppedJobEnds(run: seq<State>, i: nat)
    requires IsRun(run) && i < |run| && run[i].stop && !AtWork(run[i]) && !run[i].job.Ended?
    ensures (run[i].job.Pausing? || run[i].job.Waiting? ==> run[i].queue != []) ==>
              Alone(run[i], StepsLeft(run[i])).job == Ended(StopObserved)
    ensures !Enabled(run[i], Advance) ==>
              exists j :: Enabled(run[i], Enqueue(j)) && Enabled(Next(run[i], Enqueue(j)), Advance)
  {
    RunKeepsInv(run, i);
    if run[i].job.Pausing? || run[i].job.Waiting? ==> run[i].queue != [] {
      AloneEnds(run[i]);
    }
    if !Enabled(run[i], Advance) {
      var j :| 0 <= j < |run[i].senders| && run[i].senders[j].Flagged?;
      assert Enabled(run[i], Enqueue(j));
    }
  }

  /** The steps that made a run. */
  ghost predicate Makes(steps: seq<Step>, run: seq<State>) {
    && |run| == |steps| + 1
    && forall i :: 0 <= i < |steps| ==> Enabled(run[i], steps[i]) && run[i + 1] == Next(run[i], steps[i])
  }

  /** The job's own steps from `i` up to `k`. */
  function OwnSteps(steps: seq<Step>, i: nat, k: nat): nat
    requires i <= k <= |steps|
  {
    if i == k then 0 else OwnSteps(steps, i, k - 1) + if steps[k - 1].Advance? then 1 else 0
  }

  /** A command enqueued while the job still drains its queue. */
  predicate ArrivesLate(s: State, step: Step) {
    step.Enqueue? && s.job.Draining?
  }

  function LateArrivals(run: seq<State>, steps: seq<Step>, i: nat, k: nat): nat
    requires i <= k <= |steps| < |run|
  {
    if i == k then 0 else LateArrivals(run, steps, i, k - 1) + if ArrivesLate(run[k - 1], steps[k - 1]) then 1 else 0
  }

  /** Only what is enqueued while the job drains puts its end off, by taking it and by handling it. */
  lemma StepsLeftChange(s: State, step: Step)
    requires Inv(s) && s.stop && !AtWork(s) && Enabled(s, step)
    ensures StepsLeft(Next(s, step)) + (if step.Advance? then 1 else 0) <=
            StepsLeft(s) + if ArrivesLate(s, step) then 2 else 0
    ensures step.Fail? || StepsLeft(Next(s, step)) + (if step.Advance? then 1 else 0) ==
                          StepsLeft(s) + if ArrivesLate(s, step) then 2 else 0
  {
  }

  /** How one step of a stopped job, or of a sender beside it, changes what is left. */
  predicate Counts(s: State, step: Step, t: State) {
    && StepsLeft(t) + (if step.Advance? then 1 else 0) <= StepsLeft(s) + (if ArrivesLate(s, step) then 2 else 0)
    && (t.job.Ended? || StepsLeft(t) + (if step.Advance? then 1 else 0) ==
                        StepsLeft(s) + if ArrivesLate(s, step) then 2 else 0)
    && (s.job.Ended? ==> t.job.Ended?)
  }

  lemma StepCounts(run: seq<State>, steps: seq<Step>, i: nat, k: nat)
    requires IsRun(run) && Makes(steps, run) && i <= k < |steps| && run[i].stop && !AtWork(run[i])
    ensures Counts(run[k], steps[k], run[k + 1])
  {
    StoppedJobStaysOut(run, i, k);
    RunKeepsInv(run, k);
    StepsLeftChange(run[k], steps[k]);
    EndedStays(run[k], steps[k]);
  }

  lemma {:induction false} StepsCounted(run: seq<State>, steps: seq<Step>, i: nat, k: nat)
    requires i <= k <= |steps| < |run| && forall x :: i <= x < k ==> Counts(run[x], steps[x], run[x + 1])
    ensures OwnSteps(steps, i, k) + StepsLeft(run[k]) <= StepsLeft(run[i]) + 2 * LateArrivals(run, steps, i, k)
    ensures run[k].job.Ended? || OwnSteps(steps, i, k) + StepsLeft(run[k]) ==
                                 StepsLeft(run[i]) + 2 * LateArrivals(run, steps, i, k)
  {
    if k > i {
      StepsCounted(run, steps, i, k - 1);
      assert Counts(run[k - 1], steps[k - 1], run[k - 1 + 1]);
    }
  }

  lemma EndedStays(s: State, step: Step)
    requires Enabled(s, step)
    ensures s.job.Ended? || step.Fail? ==> Next(s, step).job.Ended?
  {
  }

  /**
   Stopped outside its work, a job takes exactly as many steps of its own as it was from its end, and two more for
   every command that senders enqueue while it drains; or fewer, if it fails. Once it has taken them it has ended.
   */
  lemma StoppedJobSteps(run: seq<State>, steps: seq<Step>, i: nat, k: nat)
    requires IsRun(run) && Makes(steps, run) && i <= k < |run| && run[i].stop && !AtWork(run[i])
    ensures var bound := StepsLeft(run[i]) + 2 * LateArrivals(run, steps, i, k);
            && OwnSteps(steps, i, k) + StepsLeft(run[k]) <= bound
            && (run[k].job.Ended? || OwnSteps(steps, i, k) + StepsLeft(run[k]) == bound)
            && (OwnSteps(steps, i, k) >= bound ==> run[k].job.Ended?)
  {
    forall x | i <= x < k
      ensures Counts(run[x], steps[x], run[x + 1])
    {
      StepCounts(run, steps, i, x);
    }
    StepsCounted(run, steps, i, k);
    StoppedJobStaysOut(run, i, k);
  }
}
