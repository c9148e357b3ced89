/** The event log against the record: every durable write and every command is answered at once, and in full. */
module Announcements {
  import opened Wrappers
  import opened Protocol
  import opened Provenance

  function Listed(due: Due): seq<JobEventKind> {
    match due
    case AllTold => []
    case Tell(kind, rest) => [kind] + Listed(rest)
  }

  /** The events owed right after action `i`. */
  function OwedAfter(h: seq<Action>, i: nat): seq<JobEventKind>
    requires i < |h|
  {
    Listed(After(h[..i + 1]).o.due)
  }

  /** The first `j` events owed after action `i` have been written and nothing else has happened. */
  ghost predicate WrittenSince(h: seq<Action>, i: nat, j: nat)
    requires i + j < |h|
  {
    j <= |OwedAfter(h, i)| && forall k :: 0 <= k < j ==> h[i + 1 + k] == Emitted(OwedAfter(h, i)[k])
  }

  lemma {:induction false} StillOwed(h: seq<Action>, i: nat, j: nat)
    requires i + j < |h| && WrittenSince(h, i, j)
    ensures Listed(After(h[..i + 1 + j]).o.due) == OwedAfter(h, i)[j..]
  {
    if j > 0 {
      assert WrittenSince(h, i, j - 1) by {
        assert forall k :: 0 <= k < j - 1 ==> h[i + 1 + k] == Emitted(OwedAfter(h, i)[k]);
      }
      StillOwed(h, i, j - 1);
      assert h[..i + 1 + j][..i + j] == h[..i + j];
      assert h[i + 1 + (j - 1)] == Emitted(OwedAfter(h, i)[j - 1]);
      assert OwedAfter(h, i)[j - 1..][1..] == OwedAfter(h, i)[j..];
    }
  }

  /**
   As long as an action still owes events, the only thing that can happen next is that the next one of them is
   written, that the sink refuses it, or that the process dies.
   */
  lemma {:induction false} NothingOvertakesAnEvent(h: seq<Action>, i: nat, j: nat)
    requires Lawful(h) && i + j + 1 < |h| && WrittenSince(h, i, j) && j < |OwedAfter(h, i)|
    ensures h[i + 1 + j] in {Emitted(OwedAfter(h, i)[j]), Refused(OwedAfter(h, i)[j]), Booted}
  {
    StillOwed(h, i, j);
    LawfulStep(h, i + 1 + j);
    var due := After(h[..i + 1 + j]).o.due;
    assert due.Tell? && due.kind == OwedAfter(h, i)[j..][0];
  }

  /** Every instruction taken from a command is queued durably before anything else happens. */
  lemma TakenInstructionIsQueuedNext(h: seq<Action>, i: nat)
    requires Lawful(h) && i + 1 < |h| && h[i].Handled? && Taken(After(h[..i]).m, h[i].command).Some?
    ensures h[i + 1].Booted? || (h[i + 1].Saved? && h[i + 1].why.InstructionQueued?
                                 && Latest(h[i + 1].job.pendingUserInstructions) == h[i].command.instruction)
  {
    LawfulStep(h, i + 1);
    assert h[..i + 1][..i] == h[..i];
  }

  /** A refused event fails the job: the next thing to happen, if anything does before the process ends, is FAILED. */
  lemma RefusedEventFailsTheJob(h: seq<Action>, i: nat)
    requires Lawful(h) && i + 1 < |h| && h[i].Refused? && !After(h[..i]).m.work.InPublish?
    ensures h[i + 1].Booted? || (h[i + 1].Saved? && (h[i + 1].job.status.Failed? || Stored(h[..i]).None?))
  {
    LawfulStep(h, i + 1);
    assert h[..i + 1][..i] == h[..i];
  }
}
