/** A recorded history joined to a live stream through a bounded duplicate guard. */
module Replay {
  import opened Wrappers
  import opened EventLogs

  const MAX_REPLAYED_EVENTS: nat := 500
  const REPLAY_GUARD_CAPACITY: nat := 256

  function LastOf(s: seq<Event>, n: nat): seq<Event> {
    if |s| > n then s[|s| - n..] else s
  }

  /** `recorded_events`: nothing when the file cannot be read, otherwise the tail of what parses, as long as may be. */
  function RecordedEvents(file: Option<LogFile>): (events: seq<Event>)
    ensures file.None? ==> events == []
    ensures file.Some? ==>
              var all := file.value.Contents();
              && |events| == (if |all| < MAX_REPLAYED_EVENTS then |all| else MAX_REPLAYED_EVENTS)
              && events == all[|all| - |events|..]
  {
    match file
    case None => []
    case Some(log) => LastOf(log.Contents(), MAX_REPLAYED_EVENTS)
  }

  // ---- The guard --------------------------------------------------------------------------------

  function FirstIndex(s: seq<Event>, e: Event): (i: nat)
    requires e in s
    ensures i < |s| && s[i] == e && e !in s[..i]
  {
    if s[0] == e then 0
    else
      assert s == [s[0]] + s[1..];
      var i := FirstIndex(s[1..], e);
      assert s[..i + 1] == [s[0]] + s[1..][..i];
      i + 1
  }

  function Without(s: seq<Event>, e: Event): (r: seq<Event>)
    requires e in s
    ensures multiset(r) == multiset(s) - multiset{e}
  {
    var i := FirstIndex(s, e);
    assert s == s[..i] + [e] + s[i + 1..];
    s[..i] + s[i + 1..]
  }

  class ReplayGuard {
    var recent: seq<Event>

    constructor ()
      ensures recent == []
    {
      recent := [];
    }

    /** Only the latest events are remembered. */
    method Record(event: Event)
      requires |recent| <= REPLAY_GUARD_CAPACITY
      modifies this
      ensures recent == LastOf(old(recent) + [event], REPLAY_GUARD_CAPACITY)
    {
      if |recent| == REPLAY_GUARD_CAPACITY {
        recent := recent[1..];
      }
      recent := recent + [event];
    }

    /** An event is recognised once for every time it is remembered. */
    method AlreadyShown(event: Event) returns (shown: bool)
      modifies this
      ensures shown <==> event in old(recent)
      ensures recent == if shown then Without(old(recent), event) else old(recent)
    {
      shown := event in recent;
      if shown {
        var index := FirstIndex(recent, event);
        recent := recent[..index] + recent[index + 1..];
      }
    }
  }

  // ---- What a viewer is shown -------------------------------------------------------------------

  /** What the guard still remembers after a stretch of live events. */
  function GuardAfter(guard: seq<Event>, live: seq<Event>): seq<Event> {
    if live == [] then guard
    else
      var before, e := GuardAfter(guard, live[..|live| - 1]), live[|live| - 1];
      if e in before then Without(before, e) else before
  }

  /** The live events that pass the guard. */
  function Passing(guard: seq<Event>, live: seq<Event>): seq<Event> {
    if live == [] then []
    else
      var front, e := live[..|live| - 1], live[|live| - 1];
      Passing(guard, front) + if e in GuardAfter(guard, front) then [] else [e]
  }

  /** Replaying the first `n` events of a log and then following events `b` to `m` of it live. */
  function Shown(log: seq<Event>, b: nat, n: nat, m: nat): seq<Event>
    requires b <= m <= |log| && n <= |log|
  {
    LastOf(log[..n], MAX_REPLAYED_EVENTS) + Passing(LastOf(log[..n], REPLAY_GUARD_CAPACITY), log[b..m])
  }

  lemma {:induction false} PassingSplits(guard: seq<Event>, a: seq<Event>, b: seq<Event>)
    ensures Passing(guard, a + b) == Passing(guard, a) + Passing(GuardAfter(guard, a), b)
    ensures GuardAfter(guard, a + b) == GuardAfter(GuardAfter(guard, a), b)
  {
    if b == [] {
      assert a + b == a;
    } else {
      assert (a + b)[..|a + b| - 1] == a + b[..|b| - 1];
      PassingSplits(guard, a, b[..|b| - 1]);
    }
  }

  /** Events the guard remembers often enough are all suppressed, and used up. */
  lemma {:induction false} Remembered(guard: seq<Event>, live: seq<Event>)
    requires multiset(live) <= multiset(guard)
    ensures Passing(guard, live) == []
    ensures multiset(GuardAfter(guard, live)) == multiset(guard) - multiset(live)
  {
    if live != [] {
      var front, e := live[..|live| - 1], live[|live| - 1];
      assert live == front + [e];
      Remembered(guard, front);
      assert multiset(front)[e] < multiset(guard)[e];
      assert e in multiset(GuardAfter(guard, front));
    }
  }

  /** Everything passes exactly when nothing is remembered. */
  lemma {:induction false} PassingAll(guard: seq<Event>, live: seq<Event>)
    ensures |Passing(guard, live)| <= |live|
    ensures Passing(guard, live) == live <==> forall k :: 0 <= k < |live| ==> live[k] !in guard
    ensures Passing(guard, live) == live ==> GuardAfter(guard, live) == guard
    ensures |Passing(guard, live)| == |live| ==> Passing(guard, live) == live
  {
    if live != [] {
      var front, e := live[..|live| - 1], live[|live| - 1];
      assert live == front + [e];
      PassingAll(guard, front);
      if Passing(guard, live) == live {
        assert |Passing(guard, front)| == |front|;
      }
    }
  }

  lemma SameMembers(a: seq<Event>, b: seq<Event>, e: Event)
    requires multiset(a) == multiset(b)
    ensures e in a <==> e in b
  {
    assert e in a <==> e in multiset(a);
    assert e in b <==> e in multiset(b);
  }

  /** Where the last `bound` of the first `n` events begin. */
  function Start(n: nat, bound: nat): nat {
    if n > bound then n - bound else 0
  }

  lemma LastOfPrefix(log: seq<Event>, n: nat, bound: nat)
    requires n <= |log|
    ensures LastOf(log[..n], bound) == log[Start(n, bound)..n]
  {
  }

  lemma Adjacent(log: seq<Event>, i: nat, j: nat, k: nat)
    requires i <= j <= k <= |log|
    ensures log[i..j] + log[j..k] == log[i..k]
  {
  }

  lemma Minus(a: multiset<Event>, b: multiset<Event>)
    ensures (a + b) - b == a && b <= a + b
  {
  }

  /** What was replayed last is suppressed entirely; the guard then remembers what was replayed before it. */
  lemma OverlapIsSuppressed(older: seq<Event>, overlap: seq<Event>, later: seq<Event>) returns (rest: seq<Event>)
    ensures multiset(rest) == multiset(older)
    ensures Passing(older + overlap, overlap + later) == Passing(rest, later)
  {
    var guard := older + overlap;
    assert multiset(guard) == multiset(older) + multiset(overlap);
    Minus(multiset(older), multiset(overlap));
    Remembered(guard, overlap);
    rest := GuardAfter(guard, overlap);
    PassingSplits(guard, overlap, later);
    assert [] + Passing(rest, later) == Passing(rest, later);
  }

  /** After the overlap only later events are left, against a guard that holds the older ones. */
  lemma AfterOverlap(log: seq<Event>, b: nat, n: nat, m: nat) returns (rest: seq<Event>)
    requires b <= n <= m <= |log| && n - b <= REPLAY_GUARD_CAPACITY
    ensures multiset(rest) == multiset(log[Start(n, REPLAY_GUARD_CAPACITY)..b])
    ensures Passing(LastOf(log[..n], REPLAY_GUARD_CAPACITY), log[b..m]) == Passing(rest, log[n..m])
  {
    var oldest := Start(n, REPLAY_GUARD_CAPACITY);
    LastOfPrefix(log, n, REPLAY_GUARD_CAPACITY);
    Adjacent(log, oldest, b, n);
    Adjacent(log, b, n, m);
    rest := OverlapIsSuppressed(log[oldest..b], log[b..n], log[n..m]);
  }

  lemma SameTail(a: seq<Event>, b: seq<Event>, c: seq<Event>)
    ensures a + b == a + c <==> b == c
  {
    assert b == (a + b)[|a|..] && c == (a + c)[|a|..];
  }

  lemma PassesUnless(rest: seq<Event>, older: seq<Event>, live: seq<Event>)
    requires multiset(rest) == multiset(older)
    ensures Passing(rest, live) == live <==> forall k :: 0 <= k < |live| ==> live[k] !in older
  {
    PassingAll(rest, live);
    forall k | 0 <= k < |live|
      ensures live[k] in rest <==> live[k] in older
    {
      SameMembers(rest, older, live[k]);
    }
  }

  /**
   The join is exact. If at most as many events as the guard holds fall between the subscription (`b`) and the log
   read (`n`), a viewer that followed the stream to `m` was shown one contiguous run of the log from its replayed
   tail on, without gap, repeat or reordering, exactly when no later event equals one of the older events the guard
   still remembers.
   */
  lemma ExactJoin(log: seq<Event>, b: nat, n: nat, m: nat)
    requires b <= n <= m <= |log| && n - b <= REPLAY_GUARD_CAPACITY
    ensures Shown(log, b, n, m) == log[Start(n, MAX_REPLAYED_EVENTS)..m] <==>
            forall k :: n <= k < m ==> log[k] !in log[Start(n, REPLAY_GUARD_CAPACITY)..b]
  {
    var rest := AfterOverlap(log, b, n, m);
    var older, later := log[Start(n, REPLAY_GUARD_CAPACITY)..b], log[n..m];
    PassesUnless(rest, older, later);
    LaterMembers(log, n, m, older);
    ShownIsContiguous(log, b, n, m, Passing(rest, later));
  }

  /** A viewer is shown a run of the log exactly when everything after the replayed tail passed. */
  lemma ShownIsContiguous(log: seq<Event>, b: nat, n: nat, m: nat, passing: seq<Event>)
    requires b <= n <= m <= |log| && Passing(LastOf(log[..n], REPLAY_GUARD_CAPACITY), log[b..m]) == passing
    ensures Shown(log, b, n, m) == log[Start(n, MAX_REPLAYED_EVENTS)..m] <==> passing == log[n..m]
  {
    var tail := log[Start(n, MAX_REPLAYED_EVENTS)..n];
    LastOfPrefix(log, n, MAX_REPLAYED_EVENTS);
    Adjacent(log, Start(n, MAX_REPLAYED_EVENTS), n, m);
    SameTail(tail, passing, log[n..m]);
  }

  lemma LaterMembers(log: seq<Event>, n: nat, m: nat, older: seq<Event>)
    requires n <= m <= |log|
    ensures (forall k :: 0 <= k < |log[n..m]| ==> log[n..m][k] !in older) <==>
            (forall k :: n <= k < m ==> log[k] !in older)
  {
    if forall k :: 0 <= k < |log[n..m]| ==> log[n..m][k] !in older {
      forall k | n <= k < m
        ensures log[k] !in older
      {
        assert log[n..m][k - n] == log[k];
      }
    }
  }

  /** Within what the guard remembers of the replay, nothing passes. */
  lemma EarlyDetachPasses(log: seq<Event>, b: nat, n: nat, m: nat)
    requires b <= m <= n <= |log| && (b == m || n - b <= REPLAY_GUARD_CAPACITY)
    ensures Passing(LastOf(log[..n], REPLAY_GUARD_CAPACITY), log[b..m]) == []
  {
    if b < m {
      var guard := LastOf(log[..n], REPLAY_GUARD_CAPACITY);
      LastOfPrefix(log, n, REPLAY_GUARD_CAPACITY);
      assert guard == log[Start(n, REPLAY_GUARD_CAPACITY)..b] + log[b..m] + log[m..n];
      Remembered(guard, log[b..m]);
    }
  }

  /** Nothing passes exactly when everything is remembered often enough. */
  lemma {:induction false} PassingNone(guard: seq<Event>, live: seq<Event>)
    ensures Passing(guard, live) == [] <==> multiset(live) <= multiset(guard)
  {
    if live != [] {
      var front, e := live[..|live| - 1], live[|live| - 1];
      assert live == front + [e];
      PassingNone(guard, front);
      if multiset(front) <= multiset(guard) {
        Remembered(guard, front);
        OneMoreRemembered(guard, front, e, GuardAfter(guard, front));
      }
    }
  }

  lemma OneMoreRemembered(guard: seq<Event>, front: seq<Event>, e: Event, rest: seq<Event>)
    requires multiset(front) <= multiset(guard) && multiset(rest) == multiset(guard) - multiset(front)
    ensures e in rest <==> multiset(front + [e]) <= multiset(guard)
  {
    assert e in rest <==> e in multiset(rest);
    assert multiset(front + [e]) == multiset(front)[e := multiset(front)[e] + 1];
  }

  /**
   A viewer that leaves before it has caught up with the log read was shown exactly the replayed tail, if and only if
   all it took in live is among the events the guard remembers; which is so when at most 256 fall in between.
   */
  lemma EarlyDetach(log: seq<Event>, b: nat, n: nat, m: nat)
    requires b <= m <= n <= |log|
    ensures Shown(log, b, n, m) == log[Start(n, MAX_REPLAYED_EVENTS)..n] <==>
            multiset(log[b..m]) <= multiset(log[Start(n, REPLAY_GUARD_CAPACITY)..n])
    ensures n - b <= REPLAY_GUARD_CAPACITY ==> Shown(log, b, n, m) == log[Start(n, MAX_REPLAYED_EVENTS)..n]
  {
    var guard := LastOf(log[..n], REPLAY_GUARD_CAPACITY);
    LastOfPrefix(log, n, REPLAY_GUARD_CAPACITY);
    PassingNone(guard, log[b..m]);
    NothingAfterTail(log[Start(n, MAX_REPLAYED_EVENTS)..n], Passing(guard, log[b..m]));
    LastOfPrefix(log, n, MAX_REPLAYED_EVENTS);
    if n - b <= REPLAY_GUARD_CAPACITY {
      EarlyDetachPasses(log, b, n, m);
    }
  }

  lemma NothingAfterTail(tail: seq<Event>, more: seq<Event>)
    ensures tail + more == tail <==> more == []
  {
    assert |tail + more| == |tail| + |more|;
  }

  // ---- Distinct events --------------------------------------------------------------------------

  ghost predicate Distinct(log: seq<Event>) {
    forall i, k :: 0 <= i < k < |log| ==> log[i] != log[k]
  }

  /** Where the overlap begins that the guard still remembers. */
  function Guarded(b: nat, n: nat): nat
    requires b <= n
  {
    if n - b > REPLAY_GUARD_CAPACITY then n - REPLAY_GUARD_CAPACITY else b
  }

  /** `min`, for positions in a log. */
  function Earlier(i: nat, k: nat): nat {
    if i < k then i else k
  }

  /**
   Without a bound on the overlap, and wherever the viewer leaves (`m`), for distinct events: the part of the overlap
   that the guard no longer remembers is shown live as well, and everything else once.
   */
  lemma DistinctJoin(log: seq<Event>, b: nat, n: nat, m: nat)
    requires Distinct(log) && b <= n <= |log| && b <= m <= |log|
    ensures Shown(log, b, n, m) ==
            log[Start(n, MAX_REPLAYED_EVENTS)..n] + (log[b..Earlier(Guarded(b, n), m)] + log[Earlier(n, m)..m])
  {
    var split, guard := Earlier(Guarded(b, n), m), LastOf(log[..n], REPLAY_GUARD_CAPACITY);
    LastOfPrefix(log, n, REPLAY_GUARD_CAPACITY);
    Adjacent(log, b, split, m);
    PassingSplits(guard, log[b..split], log[split..m]);
    ForgottenPasses(log, b, n, split);
    if m < n {
      EarlyDetachPasses(log, split, n, m);
    } else {
      RememberedThenPasses(log, split, n, m);
    }
  }

  lemma ForgottenPasses(log: seq<Event>, b: nat, n: nat, to: nat)
    requires Distinct(log) && b <= n <= |log| && b <= to <= Guarded(b, n)
    ensures var guard, forgotten := log[Start(n, REPLAY_GUARD_CAPACITY)..n], log[b..to];
            Passing(guard, forgotten) == forgotten && GuardAfter(guard, forgotten) == guard
  {
    if to > b {
      Unremembered(log, Start(n, REPLAY_GUARD_CAPACITY), n, b, to);
    }
    PassingAll(log[Start(n, REPLAY_GUARD_CAPACITY)..n], log[b..to]);
  }

  lemma RememberedThenPasses(log: seq<Event>, b: nat, n: nat, m: nat)
    requires Distinct(log) && b <= n <= m <= |log| && n - b <= REPLAY_GUARD_CAPACITY
    ensures Passing(LastOf(log[..n], REPLAY_GUARD_CAPACITY), log[b..m]) == log[n..m]
  {
    var rest := AfterOverlap(log, b, n, m);
    Unremembered(log, Start(n, REPLAY_GUARD_CAPACITY), b, n, m);
    PassesUnless(rest, log[Start(n, REPLAY_GUARD_CAPACITY)..b], log[n..m]);
  }

  lemma Unremembered(log: seq<Event>, i: nat, k: nat, from: nat, to: nat)
    requires Distinct(log) && i <= k <= |log| && from <= to <= |log| && (to <= i || k <= from)
    ensures forall x :: 0 <= x < to - from ==> log[from..to][x] !in log[i..k]
  {
    forall x | 0 <= x < to - from
      ensures log[from..to][x] !in log[i..k]
    {
      assert forall y :: 0 <= y < k - i ==> log[i..k][y] == log[i + y];
    }
  }

  /** How often a viewer was shown an event. */
  function Times(shown: seq<Event>, e: Event): nat {
    multiset(shown)[e]
  }

  lemma NotInSlice(log: seq<Event>, i: nat, k: nat, x: nat)
    requires Distinct(log) && i <= k <= |log| && x < |log| && !(i <= x < k)
    ensures Times(log[i..k], log[x]) == 0
  {
    forall y | 0 <= y < k - i
      ensures log[i..k][y] != log[x]
    {
      assert log[i..k][y] == log[i + y];
    }
    assert log[x] !in log[i..k];
  }

  lemma CountInSlice(log: seq<Event>, i: nat, k: nat, x: nat)
    requires Distinct(log) && i <= k <= |log| && x < |log|
    ensures Times(log[i..k], log[x]) == if i <= x < k then 1 else 0
  {
    if i <= x < k {
      NotInSlice(log, i, x, x);
      NotInSlice(log, x + 1, k, x);
      CountJoined(log[i..x], log[x], log[x + 1..k]);
      assert log[i..k] == log[i..x] + [log[x]] + log[x + 1..k];
    } else {
      NotInSlice(log, i, k, x);
    }
  }

  lemma CountJoined(front: seq<Event>, e: Event, rest: seq<Event>)
    ensures Times(front + [e] + rest, e) == Times(front, e) + 1 + Times(rest, e)
  {
  }

  /**
   For distinct events nothing from the replayed tail, or from the subscription, up to where the viewer left is
   lost, and an event is shown twice exactly when it was replayed, followed and already forgotten by the guard: of an
   overlap of `o` events followed to its end that is `min(o, 500) - 256` of them, if positive. Earlier ones are shown
   once, but late.
   */
  lemma ShownTimes(log: seq<Event>, b: nat, n: nat, m: nat, x: nat)
    requires Distinct(log) && b <= n <= |log| && b <= m <= |log| && x < |log|
    ensures Times(Shown(log, b, n, m), log[x]) ==
            (if Start(n, MAX_REPLAYED_EVENTS) <= x < n || n <= x < m then 1 else 0)
            + (if b <= x < m && x + REPLAY_GUARD_CAPACITY < n then 1 else 0)
  {
    DistinctJoin(log, b, n, m);
    CountInSlice(log, Start(n, MAX_REPLAYED_EVENTS), n, x);
    CountInSlice(log, b, Earlier(Guarded(b, n), m), x);
    CountInSlice(log, Earlier(n, m), m, x);
  }

  // ---- A long overlap ---------------------------------------------------------------------------

  /** 700 distinct events. */
  function Long(): (log: seq<Event>)
    ensures |log| == 700 && Distinct(log)
  {
    var log := seq(700, (i: nat) => Event("job", seq(i, _ => 'x')));
    assert forall i :: 0 <= i < 700 ==> |log[i].content| == i;
    log
  }

  /**
   A viewer subscribed after 100 of them, and the log was read after all 700: the event at 150 precedes the replayed
   tail and is shown once, but after the whole tail; the one at 300 is shown twice.
   */
  lemma LongOverlapIsShownLate()
    ensures LateAndTwice(Long())
  {
    LongOverlap(Long());
  }

  ghost predicate LateAndTwice(log: seq<Event>)
    requires |log| == 700
  {
    var shown := Shown(log, 100, 700, 700);
    && shown == log[200..] + log[100..444]
    && Times(shown, log[150]) == 1 && Times(shown, log[300]) == 2
  }

  lemma LongOverlap(log: seq<Event>)
    requires |log| == 700 && Distinct(log)
    ensures LateAndTwice(log)
  {
    ShownTimes(log, 100, 700, 700, 150);
    ShownTimes(log, 100, 700, 700, 300);
    LongOverlapShown(log);
  }

  lemma LongOverlapShown(log: seq<Event>)
    requires |log| == 700 && Distinct(log)
    ensures Shown(log, 100, 700, 700) == log[200..] + log[100..444]
  {
    DistinctJoin(log, 100, 700, 700);
    assert log[100..444] + log[700..700] == log[100..444];
  }
}
