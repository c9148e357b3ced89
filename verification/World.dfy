/** Everything the orchestrator meets: the state store, the event sink, Git, the providers and its control channel. */
module Worlds {
  import opened Wrappers
  import opened JobStates
  import opened Protocol

  /**
   Every answer is arbitrary: a save may fail (leaving the old record, since a save is atomic), a sink may refuse
   an event, a provider may say anything. `history` records what became visible, in order.

   The preconditions are the protocol itself: an action is performed only where it is permitted.
   */
  class World {
    const identity: JobIdentity            // the job whose directory this is
    var claimed: bool                      // the job's own lock is held
    var history: seq<Action>
    ghost var m: Monitor
    ghost var o: Observed
    var inherited: seq<Action>       // what the running process found; it only ever adds to it

    ghost predicate Valid()
      reads this
    {
      claimed && Consistent()
    }

    ghost predicate Consistent()
      reads this
    {
      && Lawful(history) && After(history) == Track(m, o) && inherited <= history
      && (m.store.Some? ==> m.store.value.identity == identity)
    }

    constructor (identity: JobIdentity)
      ensures this.identity == identity && !claimed && Unclaimed()
    {
      this.identity := identity;
      claimed := false;
      history := [];
      m := INITIAL;
      o := NOTHING_YET;
      inherited := [];
    }

    /** A job nobody has ever saved anything for, and nobody holds. */
    ghost predicate Unclaimed()
      reads this
    {
      !claimed && history == [] && m == INITIAL && o == NOTHING_YET && inherited == []
    }

    /** `JobLock::acquire`; nothing can be saved for a job before it succeeds, nor after `Release`. */
    method Acquire() returns (held: bool)
      requires Unclaimed()
      modifies this
      ensures held ==> Valid() && m == INITIAL && o == NOTHING_YET
      ensures !held ==> Unclaimed()
    {
      held := *;
      if held {
        claimed := true;
      }
    }

    method Release()
      requires Valid()
      modifies this
      ensures !claimed && Consistent() && history == old(history) && m == old(m)
    {
      claimed := false;
    }

    /**
     The process dies after its first `n` actions: whatever it would have done next never happened, and the kernel
     drops its lock.
     */
    method Die(n: nat)
      requires Consistent() && |inherited| <= n <= |history|
      modifies this
      ensures !claimed && Consistent() && history == old(history)[..n]
    {
      SameJob(history, n);
      PrefixLawful(history, n);
      history := history[..n];
      m := After(history).m;
      o := After(history).o;
      claimed := false;
    }

    /** Another process takes the job over; it knows only what is stored. */
    method Boot() returns (held: bool)
      requires Consistent() && !claimed && m.store.Some?
      modifies this
      ensures !held ==> !claimed && Consistent() && history == old(history) && m == old(m)
      ensures held ==> Valid() && inherited == history == old(history) + [Booted]
                       && m == Moved(old(m), Booted) && o == Awakened(m)
    {
      held := *;
      if held {
        claimed := true;
        Note(Booted);
        inherited := history;
      }
    }

    method Note(a: Action)
      requires Valid() && Allowed(m, o, a)
      requires a.Saved? && m.store.None? ==> a.job.identity == identity
      modifies this
      ensures Valid() && history == old(history) + [a] && inherited == old(inherited)
      ensures m == Moved(old(m), a) && o == Noticed(old(m), old(o), a)
    {
      Append(history, a);
      history := history + [a];
      m, o := Moved(m, a), Noticed(m, o, a);
    }

    /** `StateStore::save_job`: the whole record or nothing. */
    method Save(why: Write, job: JobState) returns (saved: bool)
      requires Valid() && MayWrite(m, o, why, job) && (m.store.None? ==> job.identity == identity)
      requires MayWriteNow(o, why)
      modifies this
      ensures Valid() && inherited == old(inherited)
      ensures saved ==> m == old(m).(store := Some(job), work := WorkAfter(old(m).work, why))
      ensures saved ==> history == old(history) + [Saved(why, job)] && o == Noticed(old(m), old(o), Saved(why, job))
      ensures !saved ==> m == old(m) && o == old(o) && history == old(history)
    {
      saved := *;
      if saved {
        Note(Saved(why, job));
      }
    }

    /** `EventSink::emit`. */
    method Emit(kind: JobEventKind) returns (written: bool)
      requires Valid() && MayEmit(m, o, kind)
      modifies this
      ensures Valid() && inherited == old(inherited) && m == old(m)
      ensures written ==> o == old(o).(announced := Some(kind), due := Left(old(o).due))
      ensures !written ==> o == old(o).(refused := !m.work.InPublish?, due := AllTold)
    {
      written := *;
      Note(if written then Emitted(kind) else Refused(kind));
    }

    /** `RepositoryState::collect`. */
    method Collect() returns (captured: Result<RepositoryState, string>)
      requires Valid() && Quiet(o)
      modifies this
      ensures Valid() && inherited == old(inherited) && m == old(m)
      ensures captured.Success? ==> o == old(o).(seen := Some(captured.value), blind := false)
      ensures captured.Failure? ==> o == old(o).(blind := true)
    {
      captured := *;
      Note(if captured.Success? then Captured(captured.value) else CaptureFailed);
    }

    /** `Supervisor::decide`. */
    method Decide(review: ReviewRequest) returns (decision: Result<SupervisorDecision, ProviderError>)
      requires Valid() && Quiet(o) && MayReview(m, review) && Announced(o, SupervisorStarted(review))
      modifies this
      ensures Valid() && inherited == old(inherited) && o == old(o).(cleared := false)
      ensures decision.Success? ==> WellFormed(decision.value)
      ensures m == old(m).(work := if decision.Success? then Heard(review, decision.value)
                                   else Down(SupervisorReview, decision.error))
    {
      Note(ReviewCalled(review));
      decision := Answer();
      Note(ReviewAnswered(decision));
    }

    /** Whatever a supervisor writes, only a well-formed decision is one; anything else is an error. */
    method Answer() returns (decision: Result<SupervisorDecision, ProviderError>)
      ensures decision.Success? ==> WellFormed(decision.value)
    {
      decision := *;
      if decision.Success? && !WellFormed(decision.value) {
        decision := Failure(OtherProviderError("invalid decision"));
      }
    }

    /** `Executor::execute`. */
    method Execute(run: ExecutorRequest) returns (result: Result<ExecutorResult, ProviderError>)
      requires Valid() && Quiet(o) && MayRun(m, o, run) && Announced(o, ExecutorStarted(run.prompt, run.session))
      modifies this
      ensures Valid() && inherited == old(inherited) && o == old(o).(cleared := false)
      ensures m == old(m).(work := if result.Success? then Ran(result.value) else Down(ExecutorRun, result.error))
    {
      Note(RunCalled(run));
      result := *;
      Note(RunReturned(result));
    }
  }

  /**
   The receiving end of the control channel as the job sees it: what is queued (`backlog`), and what senders have
   still to send (`arriving`). `stop` and `pause` are the flags as last read; senders may raise or drop a flag at any
   moment, except that nobody lowers the stop flag.
   */
  class ControlReceiver {
    var backlog: seq<ControlCommand>
    var arriving: seq<ControlCommand>
    var stop: bool
    var pause: bool

    constructor (commands: seq<ControlCommand>)
      ensures backlog == [] && arriving == commands && !stop && !pause
    {
      backlog := [];
      arriving := commands;
      stop := false;
      pause := false;
    }

    /** Senders run on. */
    method Deliver()
      modifies this`backlog, this`arriving
      ensures old(backlog) <= backlog && backlog + arriving == old(backlog + arriving)
    {
      var n :| 0 <= n <= |arriving|;
      backlog := backlog + arriving[..n];
      arriving := arriving[n..];
    }

    /** Everything queued by now, without waiting. */
    method Drain() returns (commands: seq<ControlCommand>)
      modifies this`backlog, this`arriving
      ensures backlog == [] && old(backlog) <= commands && commands + arriving == old(backlog + arriving)
    {
      Deliver();
      commands := backlog;
      backlog := [];
    }

    /** The next command, or `None` once every sender is gone. */
    method Take() returns (command: Option<ControlCommand>)
      modifies this`backlog, this`arriving
      ensures match command
              case None => old(backlog + arriving) == [] && backlog + arriving == []
              case Some(c) => old(backlog + arriving) == [c] + (backlog + arriving)
    {
      Deliver();
      if backlog + arriving == [] {
        command := None;
      } else {
        var coming := backlog + arriving;
        command := Some(coming[0]);
        if backlog == [] {
          arriving := arriving[1..];
        } else {
          backlog := backlog[1..];
        }
      }
    }

    method PauseRequested() returns (requested: bool)
      modifies this`pause
      ensures pause == requested
    {
      pause := *;
      requested := pause;
    }

    method StopRequested() returns (requested: bool)
      modifies this`stop
      ensures stop == requested && (old(stop) ==> requested)
    {
      if !stop {
        stop := *;
      }
      requested := stop;
    }
  }
}
