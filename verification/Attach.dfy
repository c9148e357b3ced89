/** Live observation of a job: the broadcaster, the sink order, and the stream one viewer is served. */
module Attachments {
  import opened EventLogs
  import opened Wrappers
  import opened Replay

  const ATTACH_CHANNEL_CAPACITY: nat := 1024

  /** One job's broadcast channel: everything sent on it, and whether its sender still exists. */
  class Channel {
    var sent: seq<Event>
    var open: bool

    constructor ()
      ensures sent == [] && open
    {
      sent := [];
      open := true;
    }
  }

  datatype Received = Got(event: Event) | Lagged(missed: nat) | Closed | Nothing

  /** A subscription sees what is sent after it was opened, as long as it does not fall too far behind. */
  class Receiver {
    const channel: Channel
    var position: nat

    constructor (channel: Channel)
      ensures this.channel == channel && position == |channel.sent|
    {
      this.channel := channel;
      position := |channel.sent|;
    }

    method Receive() returns (received: Received)
      requires position <= |channel.sent|
      modifies this
      ensures position <= |channel.sent|
      ensures match received
              case Got(event) => old(position) < |channel.sent| && position == old(position) + 1
                                 && event == channel.sent[old(position)]
              case Lagged(missed) => missed == |channel.sent| - ATTACH_CHANNEL_CAPACITY - old(position) > 0
              case Closed => position == old(position) == |channel.sent| && !channel.open
              case Nothing => position == old(position) == |channel.sent| && channel.open
    {
      if position + ATTACH_CHANNEL_CAPACITY < |channel.sent| {
        received := Lagged(|channel.sent| - ATTACH_CHANNEL_CAPACITY - position);
        position := |channel.sent| - ATTACH_CHANNEL_CAPACITY;
      } else if position < |channel.sent| {
        received := Got(channel.sent[position]);
        position := position + 1;
      } else {
        received := if channel.open then Nothing else Closed;
      }
    }
  }

  /** `JobEventBroadcaster`: one channel per job that is emitting or watched. */
  class JobEventBroadcaster {
    var channels: map<string, Channel>
    ghost var created: set<Channel>        // every channel there ever was

    ghost predicate Valid()
      reads this, created
    {
      && (forall a :: a in channels ==> channels[a] in created && channels[a].open)
      && (forall a, b :: a in channels && b in channels && a != b ==> channels[a] != channels[b])
    }

    /** Everything sent on a job's current channel. */
    ghost function SentTo(jobId: string): seq<Event>
      requires Valid()
      reads this, created
    {
      if jobId in channels then channels[jobId].sent else []
    }

    constructor ()
      ensures Valid() && channels == map[] && created == {}
    {
      channels := map[];
      created := {};
    }

    method Sender(jobId: string) returns (channel: Channel)
      requires Valid()
      modifies this
      ensures Valid() && jobId in channels && channels[jobId] == channel && channel in created
      ensures old(created) <= created && fresh(created - old(created))
      ensures if jobId in old(channels) then channels == old(channels) && created == old(created)
              else fresh(channel) && channel.sent == [] && channels == old(channels)[jobId := channel]
    {
      if jobId !in channels {
        channel := new Channel();
        channels := channels[jobId := channel];
        created := created + {channel};
      }
      channel := channels[jobId];
    }

    /** A subscription can be opened before the job emits anything. */
    method Subscribe(jobId: string) returns (subscription: Receiver)
      requires Valid()
      modifies this
      ensures Valid() && fresh(subscription) && jobId in channels && subscription.channel == channels[jobId]
      ensures old(created) <= created && fresh(created - old(created))
      ensures jobId in old(channels) ==> channels == old(channels)
      ensures forall a :: a in old(channels) ==> a in channels && channels[a] == old(channels[a])
      ensures subscription.position == |SentTo(jobId)| && SentTo(jobId) == old(SentTo(jobId))
    {
      var channel := Sender(jobId);
      subscription := new Receiver(channel);
    }

    /** Sending never fails and never waits, whoever is or is not listening; no other channel notices. */
    method Send(jobId: string, event: Event)
      requires Valid()
      modifies this, created
      ensures Valid() && channels.Keys == old(channels.Keys) + {jobId}
      ensures old(created) <= created && fresh(created - old(created))
      ensures forall a :: a in old(channels) ==> channels[a] == old(channels[a])
      ensures forall a :: a in channels && a !in old(channels) ==> fresh(channels[a])
      ensures SentTo(jobId) == old(SentTo(jobId)) + [event]
      ensures forall c :: c in old(created) && c != channels[jobId] ==> c.sent == old(c.sent)
      ensures forall c :: c in old(created) ==> c.open == old(c.open)
    {
      var channel := Sender(jobId);
      channel.sent := channel.sent + [event];
    }

    /** Attached clients see the stream end; a later emission opens a new channel. */
    method Release(jobId: string)
      requires Valid()
      modifies this, created
      ensures Valid() && channels == old(channels) - {jobId} && created == old(created)
      ensures jobId in old(channels) ==> !old(channels[jobId]).open
      ensures forall c :: c in created ==>
                && c.sent == old(c.sent)
                && c.open == (old(c.open) && !(jobId in old(channels) && c == old(channels[jobId])))
    {
      if jobId in channels {
        channels[jobId].open := false;
        channels := channels - {jobId};
      }
    }
  }

  /** `BroadcastEventSink`: an event reaches the chain's stream, and that of its own job when it is another one. */
  class BroadcastEventSink {
    const broadcaster: JobEventBroadcaster
    const chain: string

    constructor (broadcaster: JobEventBroadcaster, chain: string)
      ensures this.broadcaster == broadcaster && this.chain == chain
    {
      this.broadcaster := broadcaster;
      this.chain := chain;
    }

    method Emit(event: Event)
      requires broadcaster.Valid()
      modifies broadcaster, broadcaster.created
      ensures broadcaster.Valid()
      ensures old(broadcaster.created) <= broadcaster.created
      ensures fresh(broadcaster.created - old(broadcaster.created))
      ensures broadcaster.channels.Keys == old(broadcaster.channels.Keys) + {chain, event.jobId}
      ensures forall a :: a in old(broadcaster.channels) ==> broadcaster.channels[a] == old(broadcaster.channels[a])
      ensures forall a :: a in broadcaster.channels.Keys - old(broadcaster.channels.Keys) ==>
                fresh(broadcaster.channels[a])
      ensures forall a :: a in {chain, event.jobId} ==>
                broadcaster.SentTo(a) == old(broadcaster.SentTo(a)) + [event]
      ensures forall c ::
                c in old(broadcaster.created) - {broadcaster.channels[chain], broadcaster.channels[event.jobId]} ==>
                  c.sent == old(c.sent)
      ensures forall c :: c in old(broadcaster.created) ==> c.open == old(c.open)
    {
      broadcaster.Send(chain, event);
      if event.jobId != chain {
        broadcaster.Send(event.jobId, event);
      }
    }
  }

  /**
   The emitting side of one chain in the daemon: its `events.jsonl`, and the broadcast that follows every append.
   `unsent` is what was appended but not broadcast yet; viewers run between the two.
   */
  class DrivenJob {
    const sink: BroadcastEventSink
    var file: LogFile
    var unsent: seq<Event>
    ghost var base: seq<Event>             // what the log held before the chain's current channel
    ghost var intact: bool                 // every append so far was clean

    ghost function Log(): seq<Event>
      reads this
    {
      file.Contents()
    }

    /** Everything broadcast on the chain's channel, and what is about to be. */
    ghost function Announced(): seq<Event>
      requires sink.broadcaster.Valid()
      reads this, sink.broadcaster, sink.broadcaster.created
    {
      sink.broadcaster.SentTo(sink.chain) + unsent
    }

    /** An intact log holds exactly what it held before, followed by every event of the chain's channel, in order. */
    ghost predicate Valid()
      reads this, sink.broadcaster, sink.broadcaster.created
    {
      && sink.broadcaster.Valid() && |unsent| <= 1
      && (intact ==> base + Announced() == Log())
    }

    constructor (broadcaster: JobEventBroadcaster, jobId: string, file: LogFile)
      requires broadcaster.Valid() && jobId !in broadcaster.channels
      ensures Valid() && this.file == file && unsent == [] && intact
      ensures sink.chain == jobId && sink.broadcaster == broadcaster
    {
      sink := new BroadcastEventSink(broadcaster, jobId);
      this.file := file;
      unsent := [];
      base := file.Contents();
      intact := true;
    }

    /** An intact log only ever gets longer. */
    ghost predicate OnlyGrew(log: seq<Event>, wasIntact: bool)
      reads this
    {
      intact ==> wasIntact && log <= Log()
    }

    /** A viewer's channel is the chain's current one, or one whose sender is gone. */
    ghost predicate Watched(channel: Channel, from: seq<Event>)
      reads this, channel, sink.broadcaster
    {
      && channel in sink.broadcaster.created && (intact ==> from + channel.sent <= Log())
      && (channel.open ==> sink.chain in sink.broadcaster.channels && from == base
                           && sink.broadcaster.channels[sink.chain] == channel)
    }

    /**
     `JsonlEventSink::emit`. Only a success is broadcast; but what a reader then finds depends on how the file ended
     and on how far a failing append came. Log and channel stay in step exactly when the append is clean.
     */
    method Append(event: Event) returns (outcome: Outcome)
      requires Valid() && unsent == []
      modifies this
      ensures Valid() && base == old(base) && file == Write(old(file), event, outcome)
      ensures unsent == Heard(event, outcome) && intact == (old(intact) && Clean(old(file), outcome))
      ensures old(base + Announced() == Log()) ==> (base + Announced() == Log() <==> Clean(old(file), outcome))
      ensures intact ==> old(Log()) <= Log()
    {
      outcome := *;
      if base + Announced() == Log() {
        StaysInStep(base, sink.broadcaster.SentTo(sink.chain), file, event, outcome);
      }
      intact := intact && Clean(file, outcome);
      file, unsent := Write(file, event, outcome), Heard(event, outcome);
    }

    /** The second half of `CompositeEventSink::emit`: what was appended is broadcast. */
    method Broadcast(channel: Channel, ghost from: seq<Event>)
      requires Valid() && unsent != [] && Watched(channel, from)
      modifies this, sink.broadcaster, sink.broadcaster.created
      ensures Valid() && Watched(channel, from) && unsent == [] && base == old(base)
      ensures file == old(file) && intact == old(intact)
      ensures old(channel.sent) <= channel.sent
      ensures sink.broadcaster.SentTo(sink.chain) == old(sink.broadcaster.SentTo(sink.chain) + unsent)
      ensures old(sink.broadcaster.created) <= sink.broadcaster.created
      ensures fresh(sink.broadcaster.created - old(sink.broadcaster.created))
    {
      sink.Emit(unsent[0]);
      unsent := [];
    }

    /** The chain is over in this process: its channel is forgotten. */
    method Release(channel: Channel, ghost from: seq<Event>)
      requires Valid() && unsent == [] && Watched(channel, from)
      modifies this, sink.broadcaster, sink.broadcaster.created
      ensures Valid() && Watched(channel, from) && unsent == [] && base == Log()
      ensures file == old(file) && intact == old(intact)
      ensures channel.sent == old(channel.sent) && sink.chain !in sink.broadcaster.channels
      ensures sink.broadcaster.created == old(sink.broadcaster.created)
    {
      sink.broadcaster.Release(sink.chain);
      base := Log();
    }

    /** Whatever the daemon does next: an append, its broadcast, the end of the chain, or nothing. */
    method Advance(channel: Channel, ghost from: seq<Event>)
      requires Valid() && Watched(channel, from)
      modifies this, sink.broadcaster, sink.broadcaster.created
      ensures Valid() && Watched(channel, from)
      ensures old(channel.sent) <= channel.sent && OnlyGrew(old(Log()), old(intact))
      ensures old(sink.broadcaster.created) <= sink.broadcaster.created
      ensures fresh(sink.broadcaster.created - old(sink.broadcaster.created))
    {
      var choice: nat := *;
      if choice == 0 && unsent == [] {
        var event: Event := *;
        var outcome := Append(event);
      } else if choice == 1 && unsent != [] {
        Broadcast(channel, from);
      } else if choice == 2 && unsent == [] {
        Release(channel, from);
      }
    }
  }

  lemma StaysInStep(base: seq<Event>, sent: seq<Event>, file: LogFile, event: Event, outcome: Outcome)
    requires base + (sent + []) == file.Contents()
    ensures base + (sent + Heard(event, outcome)) == Write(file, event, outcome).Contents() <==> Clean(file, outcome)
    ensures Clean(file, outcome) ==> file.Contents() <= Write(file, event, outcome).Contents()
  {
    AppendKeepsStep(file, event, outcome);
    assert base + (sent + Heard(event, outcome)) == (base + (sent + [])) + Heard(event, outcome);
  }

  // ---- One viewer -------------------------------------------------------------------------------

  datatype StreamEnd =
    | ClosedDuringReplay                   // the client left while history was being written
    | ClientLeft | ShutDown | FellBehind(missed: nat) | NoLongerEmitting

  /** How much of the log a stream took in: subscribed at `b`, history read at `n`, followed up to `m`. */
  datatype Extent = Extent(b: nat, n: nat, m: nat)

  lemma LastOfLast(s: seq<Event>, k: nat, n: nat)
    requires k <= n
    ensures LastOf(LastOf(s, n), k) == LastOf(s, k)
  {
  }

  /** A viewer's subscription belongs to a channel the job feeds, or has finished with. */
  ghost predicate Subscribed(job: DrivenJob, subscription: Receiver, from: seq<Event>)
    reads subscription, subscription.channel, job, job.sink.broadcaster, job.sink.broadcaster.created
  {
    && job.Valid() && job.Watched(subscription.channel, from)
    && subscription.position <= |subscription.channel.sent|
  }

  /** The history, oldest first, as far as the client takes it; the guard remembers the end of it. */
  method ReplayHistory(history: seq<Event>, guard: ReplayGuard) returns (written: seq<Event>, complete: bool)
    requires guard.recent == []
    modifies guard
    ensures written <= history && (if complete then written == history else history != [])
    ensures complete ==> guard.recent == LastOf(history, REPLAY_GUARD_CAPACITY)
  {
    written := [];
    for i := 0 to |history|
      invariant written == history[..i] && guard.recent == LastOf(history[..i], REPLAY_GUARD_CAPACITY)
    {
      RecordedOneMore(history, i);
      guard.Record(history[i]);
      var delivered: bool := *;
      if !delivered {
        return written, false;
      }
      written := written + [history[i]];
    }
    assert history[..|history|] == history;
    complete := true;
  }

  lemma RecordedOneMore(history: seq<Event>, i: nat)
    requires i < |history|
    ensures LastOf(LastOf(history[..i], REPLAY_GUARD_CAPACITY) + [history[i]], REPLAY_GUARD_CAPACITY) ==
            LastOf(history[..i + 1], REPLAY_GUARD_CAPACITY)
    ensures history[..i + 1] == history[..i] + [history[i]]
  {
  }

  /** Arbitrarily much happens in the daemon. */
  method LetItRun(job: DrivenJob, channel: Channel, ghost from: seq<Event>)
    requires job.Valid() && job.Watched(channel, from)
    modifies job, job.sink.broadcaster, job.sink.broadcaster.created
    ensures job.Valid() && job.Watched(channel, from)
    ensures old(channel.sent) <= channel.sent && job.OnlyGrew(old(job.Log()), old(job.intact))
    ensures old(job.sink.broadcaster.created) <= job.sink.broadcaster.created
    ensures fresh(job.sink.broadcaster.created - old(job.sink.broadcaster.created))
  {
    var steps: nat := *;
    while steps > 0
      invariant job.Valid() && job.Watched(channel, from)
      invariant old(channel.sent) <= channel.sent && job.OnlyGrew(old(job.Log()), old(job.intact))
      invariant fresh(job.sink.broadcaster.created - old(job.sink.broadcaster.created))
      invariant old(job.sink.broadcaster.created) <= job.sink.broadcaster.created
    {
      steps := steps - 1;
      job.Advance(channel, from);
    }
  }

  /** The daemon runs on, and the viewer takes the next thing from its subscription. */
  method TakeNext(job: DrivenJob, subscription: Receiver, ghost from: seq<Event>) returns (received: Received)
    requires Subscribed(job, subscription, from)
    modifies job, job.sink.broadcaster, job.sink.broadcaster.created, subscription
    ensures Subscribed(job, subscription, from) && job.OnlyGrew(old(job.Log()), old(job.intact))
    ensures old(subscription.channel.sent) <= subscription.channel.sent
    ensures received.Got? ==> old(subscription.position) < |subscription.channel.sent|
                              && subscription.position == old(subscription.position) + 1
                              && received.event == subscription.channel.sent[old(subscription.position)]
    ensures received.Nothing? ==> subscription.position == old(subscription.position)
    ensures received.Closed? ==> old(subscription.position) == |subscription.channel.sent|
    ensures old(job.sink.broadcaster.created) <= job.sink.broadcaster.created
    ensures fresh(job.sink.broadcaster.created - old(job.sink.broadcaster.created))
  {
    LetItRun(job, subscription.channel, from);
    received := subscription.Receive();
  }

  /** One received event: written unless the guard recognises it. */
  method ShowLive(event: Event, guard: ReplayGuard) returns (written: seq<Event>, delivered: bool)
    modifies guard
    ensures delivered ==> guard.recent == GuardAfter(old(guard.recent), [event])
    ensures delivered ==> written == Passing(old(guard.recent), [event])
    ensures !delivered ==> written == []
  {
    assert [event][..0] == [];
    written, delivered := [], true;
    var shown := guard.AlreadyShown(event);
    if !shown {
      delivered := *;
      if delivered {
        written := [event];
      }
    }
  }

  /** What `live` is: the events the subscription has taken in since it was at `start`. */
  ghost predicate TakenIn(subscription: Receiver, start: nat, live: seq<Event>)
    reads subscription, subscription.channel
  {
    start + |live| <= |subscription.channel.sent|
    && live == subscription.channel.sent[start..start + |live|]
  }

  lemma TakenOneMore(subscription: Receiver, start: nat, live: seq<Event>, got: seq<Event>)
    requires TakenIn(subscription, start, live) && TakenIn(subscription, start + |live|, got)
    ensures TakenIn(subscription, start, live + got)
  {
  }

  /**
   One turn of the live loop: nothing yet, the end of the stream, or one event, written unless the guard recognises
   it. An event the client no longer takes is not counted as taken in.
   */
  method TakeTurn(job: DrivenJob, subscription: Receiver, guard: ReplayGuard, ghost from: seq<Event>)
      returns (written: seq<Event>, end: Option<StreamEnd>, ghost got: seq<Event>)
    requires Subscribed(job, subscription, from)
    modifies job, job.sink.broadcaster, job.sink.broadcaster.created, subscription, guard
    ensures Subscribed(job, subscription, from) && job.OnlyGrew(old(job.Log()), old(job.intact))
    ensures old(subscription.channel.sent) <= subscription.channel.sent
    ensures TakenIn(subscription, old(subscription.position), got) && written == Passing(old(guard.recent), got)
    ensures end.None? ==> subscription.position == old(subscription.position) + |got|
                          && guard.recent == GuardAfter(old(guard.recent), got)
    ensures end.Some? ==> got == [] && !end.value.ClosedDuringReplay?
                          && (end.value.NoLongerEmitting? ==>
                                old(subscription.position) == |subscription.channel.sent|)
    ensures old(job.sink.broadcaster.created) <= job.sink.broadcaster.created
    ensures fresh(job.sink.broadcaster.created - old(job.sink.broadcaster.created))
  {
    written, end, got := [], None, [];
    var received := TakeNext(job, subscription, from);
    match received {
      case Nothing =>
      case Lagged(missed) => end := Some(FellBehind(missed));
      case Closed => end := Some(NoLongerEmitting);
      case Got(event) =>
        var more, delivered := ShowLive(event, guard);
        if delivered {
          written, got := more, [event];
        } else {
          end := Some(ClientLeft);
        }
    }
  }

  /**
   The live part of a stream: what the guard does not recognise is written, one event after another, until the
   client leaves, the daemon stops, the client falls behind or the job is released. Frames the client sends are
   ignored.
   */
  method FollowLive(job: DrivenJob, subscription: Receiver, guard: ReplayGuard, ghost from: seq<Event>)
      returns (written: seq<Event>, end: StreamEnd, ghost live: seq<Event>)
    requires Subscribed(job, subscription, from)
    modifies job, job.sink.broadcaster, job.sink.broadcaster.created, subscription, guard
    ensures Subscribed(job, subscription, from) && job.OnlyGrew(old(job.Log()), old(job.intact))
    ensures TakenIn(subscription, old(subscription.position), live)
    ensures written == Passing(old(guard.recent), live)
    ensures end.NoLongerEmitting? ==> old(subscription.position) + |live| == |subscription.channel.sent|
    ensures !end.ClosedDuringReplay?
  {
    ghost var start := subscription.position;
    written, live := [], [];
    var turns: nat := *;
    while turns > 0
      invariant Subscribed(job, subscription, from)
      invariant job.OnlyGrew(old(job.Log()), old(job.intact))
      invariant subscription.position == start + |live| && TakenIn(subscription, start, live)
      invariant written == Passing(old(guard.recent), live) && guard.recent == GuardAfter(old(guard.recent), live)
      invariant fresh(job.sink.broadcaster.created - old(job.sink.broadcaster.created))
      invariant old(job.sink.broadcaster.created) <= job.sink.broadcaster.created
    {
      turns := turns - 1;
      var more, ended, got := TakeTurn(job, subscription, guard, from);
      if ended.Some? {
        return written, ended.value, live;
      }
      PassingSplits(old(guard.recent), live, got);
      TakenOneMore(subscription, start, live, got);
      written, live := written + more, live + got;
    }
    var stopping: bool := *;
    end := if stopping then ShutDown else ClientLeft;
  }

  /** The replay: a log that is not asked for, or that the system fails to read, is replayed as empty. */
  method ServeHistory(job: DrivenJob, replay: bool, readable: bool, guard: ReplayGuard)
      returns (written: seq<Event>, complete: bool, ghost log: seq<Event>)
    requires guard.recent == []
    modifies guard
    ensures log == if replay && readable then job.Log() else []
    ensures written <= LastOf(log, MAX_REPLAYED_EVENTS) && (!complete ==> log != [])
    ensures complete ==> written == LastOf(log, MAX_REPLAYED_EVENTS)
                         && guard.recent == LastOf(log, REPLAY_GUARD_CAPACITY)
  {
    var file := if replay && readable then Some(job.file) else None;
    log := if file.Some? then file.value.Contents() else [];
    LastOfLast(log, REPLAY_GUARD_CAPACITY, MAX_REPLAYED_EVENTS);
    written, complete := ReplayHistory(RecordedEvents(file), guard);
  }

  /** The subscription is opened first; the daemon may go on before anything else happens. */
  method OpenSubscription(job: DrivenJob) returns (subscription: Receiver, ghost from: seq<Event>)
    requires job.Valid()
    modifies job, job.sink.broadcaster, job.sink.broadcaster.created
    ensures Subscribed(job, subscription, from) && fresh(subscription)
    ensures job.OnlyGrew(old(job.Log()), old(job.intact))
    ensures job.intact ==> |old(job.Log())| - 1 <= |from| + subscription.position <= |job.Log()|
    ensures old(job.sink.broadcaster.created) <= job.sink.broadcaster.created
    ensures fresh(job.sink.broadcaster.created - old(job.sink.broadcaster.created))
  {
    subscription := job.sink.broadcaster.Subscribe(job.sink.chain);
    from := job.base;
    LetItRun(job, subscription.channel, from);
  }

  /**
   What a stream wrote, against the log: everything recorded before the subscription, but an event still to be
   broadcast, precedes `b`; the history, when there is one, was read at `n`, with everything before `b` in it.
   */
  ghost predicate Streamed(before: seq<Event>, log: seq<Event>, history: bool, written: seq<Event>, end: StreamEnd,
                           x: Extent)
  {
    && before <= log && |before| <= x.b + 1 && x.b <= x.m <= |log| && x.n <= |log|
    && (if history then x.b <= x.n && |before| <= x.n else x.n == 0)
    && if end.ClosedDuringReplay? then history && written <= LastOf(log[..x.n], MAX_REPLAYED_EVENTS)
       else written == Shown(log, x.b, x.n, x.m)
  }

  /**
   `stream_events`: whatever the daemon does meanwhile, a viewer that takes the whole history is shown exactly
   `Shown` of the event log, as long as every append to it was clean. `readable` is whether the system lets the daemon
   read the file.
   */
  method StreamEvents(job: DrivenJob, replay: bool, readable: bool)
      returns (written: seq<Event>, end: StreamEnd, ghost x: Extent)
    requires job.Valid()
    modifies job, job.sink.broadcaster, job.sink.broadcaster.created
    ensures job.Valid() && (job.intact ==> old(job.intact))
    ensures job.intact ==> Streamed(old(job.Log()), job.Log(), replay && readable, written, end, x)
  {
    var subscription, from := OpenSubscription(job);
    ghost var atRead := job.Log();
    written, end, x := ServeStream(job, subscription, replay, readable, from);
    if job.intact {
      StreamedSoFar(old(job.Log()), atRead, job.Log(), replay && readable, written, end, x);
    }
  }

  /** What was written to a viewer subscribed at `x.b`, when the log was `atRead` at its reading and is `later` now. */
  ghost predicate Served(atRead: seq<Event>, later: seq<Event>, history: bool, written: seq<Event>, end: StreamEnd,
                         x: Extent)
  {
    && atRead <= later && x.b <= x.m <= |later| && x.n == (if history then |atRead| else 0)
    && if end.ClosedDuringReplay? then history && written <= LastOf(atRead, MAX_REPLAYED_EVENTS)
       else written == Shown(later, x.b, x.n, x.m)
  }

  lemma StreamedSoFar(before: seq<Event>, atRead: seq<Event>, later: seq<Event>, history: bool, written: seq<Event>,
                      end: StreamEnd, x: Extent)
    requires before <= atRead && |before| <= x.b + 1 && x.b <= |atRead|
    requires Served(atRead, later, history, written, end, x)
    ensures Streamed(before, later, history, written, end, x)
  {
    Longer(before, atRead, later);
    PrefixOfLog(atRead, later);
  }

  /** The stream of an open subscription: the history first, then what follows. */
  method ServeStream(job: DrivenJob, subscription: Receiver, replay: bool, readable: bool, ghost from: seq<Event>)
      returns (written: seq<Event>, end: StreamEnd, ghost x: Extent)
    requires Subscribed(job, subscription, from)
    requires job.intact ==> |from| + subscription.position <= |job.Log()|
    modifies job, job.sink.broadcaster, job.sink.broadcaster.created, subscription
    ensures job.Valid() && job.OnlyGrew(old(job.Log()), old(job.intact))
    ensures x.b == |from| + old(subscription.position)
    ensures job.intact ==> Served(old(job.Log()), job.Log(), replay && readable, written, end, x)
  {
    ghost var b := |from| + subscription.position;
    var guard := new ReplayGuard();
    var complete: bool;
    ghost var log: seq<Event>;
    written, complete, log := ServeHistory(job, replay, readable, guard);
    x, end := Extent(b, |log|, b), ClosedDuringReplay;
    if complete {
      ghost var m: nat;
      written, end, m := JoinLive(job, subscription, guard, from, log, written);
      x := x.(m := m);
      if job.intact {
        ServedInFull(old(job.Log()), job.Log(), replay && readable, log, written, end, x);
      }
    }
  }

  /** The live part joined to a replay of `log`. */
  ghost predicate Joined(log: seq<Event>, later: seq<Event>, written: seq<Event>, b: nat, m: nat) {
    b <= m <= |later| && |log| <= |later| && written == Shown(later, b, |log|, m)
  }

  lemma ServedInFull(atRead: seq<Event>, later: seq<Event>, history: bool, log: seq<Event>, written: seq<Event>,
                     end: StreamEnd, x: Extent)
    requires atRead <= later && log == (if history then atRead else []) && x.n == |log|
    requires !end.ClosedDuringReplay? && Joined(log, later, written, x.b, x.m)
    ensures Served(atRead, later, history, written, end, x)
  {
  }

  /** The live stream joined to a complete replay of `log`. */
  method JoinLive(job: DrivenJob, subscription: Receiver, guard: ReplayGuard, ghost from: seq<Event>,
                  ghost log: seq<Event>, replayed: seq<Event>)
      returns (written: seq<Event>, end: StreamEnd, ghost m: nat)
    requires Subscribed(job, subscription, from) && (job.intact ==> log <= job.Log())
    requires replayed == LastOf(log, MAX_REPLAYED_EVENTS) && guard.recent == LastOf(log, REPLAY_GUARD_CAPACITY)
    modifies job, job.sink.broadcaster, job.sink.broadcaster.created, subscription, guard
    ensures job.Valid() && job.OnlyGrew(old(job.Log()), old(job.intact))
    ensures !end.ClosedDuringReplay?
    ensures job.intact ==> Joined(log, job.Log(), written, |from| + old(subscription.position), m)
  {
    ghost var position, before := subscription.position, job.Log();
    var followed, ending, live := FollowLive(job, subscription, guard, from);
    written, end, m := replayed + followed, ending, |from| + position + |live|;
    if job.intact {
      Longer(log, before, job.Log());
      JoinedNow(job, subscription, from, log, position, live, written);
    }
  }

  lemma JoinedNow(job: DrivenJob, subscription: Receiver, from: seq<Event>, log: seq<Event>, position: nat,
                  live: seq<Event>, written: seq<Event>)
    requires Subscribed(job, subscription, from) && job.intact && log <= job.Log()
    requires TakenIn(subscription, position, live)
    requires written == LastOf(log, MAX_REPLAYED_EVENTS) + Passing(LastOf(log, REPLAY_GUARD_CAPACITY), live)
    ensures Joined(log, job.Log(), written, |from| + position, |from| + position + |live|)
  {
    ShownSoFar(from, subscription.channel.sent, log, job.Log(), position, live, written);
  }

  lemma ShownSoFar(from: seq<Event>, sent: seq<Event>, log: seq<Event>, later: seq<Event>, position: nat,
                   live: seq<Event>, written: seq<Event>)
    requires from + sent <= later && position + |live| <= |sent| && live == sent[position..position + |live|]
    requires log <= later
    requires written == LastOf(log, MAX_REPLAYED_EVENTS) + Passing(LastOf(log, REPLAY_GUARD_CAPACITY), live)
    ensures Joined(log, later, written, |from| + position, |from| + position + |live|)
  {
    PrefixOfLog(log, later);
    LiveIsLogged(from, sent, later, position, live);
  }

  lemma Longer(a: seq<Event>, b: seq<Event>, c: seq<Event>)
    requires a <= b <= c
    ensures a <= c
  {
  }

  lemma PrefixOfLog(log: seq<Event>, later: seq<Event>)
    requires log <= later
    ensures later[..|log|] == log
  {
  }

  lemma LiveIsLogged(from: seq<Event>, sent: seq<Event>, log: seq<Event>, position: nat, live: seq<Event>)
    requires from + sent <= log && position + |live| <= |sent| && live == sent[position..position + |live|]
    ensures |from| + position + |live| <= |log|
    ensures live == log[|from| + position..|from| + position + |live|]
  {
    assert (from + sent)[|from| + position..|from| + position + |live|] == live;
  }

  /** `replay_terminal_job`: the tail of the history, and nothing else. */
  method ReplayTerminalJob(file: Option<LogFile>)
      returns (written: seq<Event>, recorded: nat, complete: bool)
    ensures recorded == |RecordedEvents(file)|
    ensures written <= RecordedEvents(file) && (complete ==> written == RecordedEvents(file))
  {
    var history := RecordedEvents(file);
    recorded := |history|;
    written := [];
    for i := 0 to |history|
      invariant written == history[..i]
    {
      var delivered: bool := *;
      if !delivered {
        return written, recorded, false;
      }
      written := written + [history[i]];
    }
    complete := true;
  }

  /** Without a replay a viewer is shown exactly what is emitted after it subscribed. */
  lemma LiveOnly(log: seq<Event>, b: nat, m: nat)
    requires b <= m <= |log|
    ensures Shown(log, b, 0, m) == log[b..m]
  {
    assert log[..0] == [];
    PassingAll([], log[b..m]);
    assert Passing([], log[b..m]) == log[b..m];
  }
}
