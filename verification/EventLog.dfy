/** `events.jsonl`: one line per event, appended without looking at how the file ends. */
module EventLogs {
  import opened Wrappers

  /** One job event; `content` stands for everything but the job it belongs to. */
  datatype Event = Event(jobId: string, content: string)

  /** How the file ends: with a newline, inside a line, or with a whole event that only lacks its newline. */
  datatype Tail = Whole | Partial | Unterminated(event: Event)

  /** A line that does not parse is `None`. `decodes` says whether the bytes of the whole file are UTF-8. */
  datatype LogFile = LogFile(lines: seq<Option<Event>>, tail: Tail, decodes: bool) {
    /** The events a reader finds; what is left of a torn line is skipped, and a file that is not UTF-8 not read. */
    function Contents(): seq<Event> {
      if !decodes then [] else Parsed(lines) + if tail.Unterminated? then [tail.event] else []
    }
  }

  function Parsed(lines: seq<Option<Event>>): seq<Event> {
    if lines == [] then []
    else Parsed(lines[..|lines| - 1]) + match lines[|lines| - 1] case Some(e) => [e] case None => []
  }

  /**
   How an append can end. Only `Appended` is reported as a success, and only then is the event broadcast. The others
   fail: before anything was written, between two characters of the event, inside one, before its newline, or when the
   finished line was synced. A process that dies while appending leaves one of these behind too.
   */
  datatype Outcome = Appended | NothingWritten | PartlyWritten | CharacterCut | NewlineMissing | Unsynced

  /** What is written continues an unfinished line, and then neither of the two parses. */
  function Write(file: LogFile, event: Event, outcome: Outcome): LogFile {
    match outcome
    case NothingWritten => file
    case PartlyWritten => file.(tail := Partial)
    case CharacterCut => file.(tail := Partial, decodes := false)
    case NewlineMissing => file.(tail := if file.tail.Whole? then Unterminated(event) else Partial)
    case _ => file.(lines := file.lines + [if file.tail.Whole? then Some(event) else None], tail := Whole)
  }

  function Heard(event: Event, outcome: Outcome): seq<Event> {
    if outcome.Appended? then [event] else []
  }

  /** Whether an append leaves a log and its channel in step, decided by the file before it and by how it ended. */
  predicate Clean(file: LogFile, outcome: Outcome) {
    match outcome
    case Appended => file.tail.Whole? && file.decodes
    case NothingWritten => true
    case PartlyWritten => !file.tail.Unterminated? || !file.decodes
    case CharacterCut => file.Contents() == []
    case NewlineMissing => file.tail.Partial? || !file.decodes
    case Unsynced => file.tail.Partial? || !file.decodes
  }

  lemma ParsedAppend(lines: seq<Option<Event>>, line: Option<Event>)
    ensures Parsed(lines + [line]) == Parsed(lines) + match line case Some(e) => [e] case None => []
  {
    assert (lines + [line])[..|lines|] == lines;
  }

  /** From a log that agrees with what was broadcast, an append keeps the two in step if and only if it is clean. */
  lemma AppendKeepsStep(file: LogFile, event: Event, outcome: Outcome)
    ensures Write(file, event, outcome).Contents() == file.Contents() + Heard(event, outcome) <==>
            Clean(file, outcome)
  {
    ParsedAppend(file.lines, if file.tail.Whole? then Some(event) else None);
    assert |Write(file, event, outcome).Contents()| == |file.Contents()| + |Heard(event, outcome)| ==>
             Clean(file, outcome);
  }

  // ---- Any number of appends --------------------------------------------------------------------

  datatype Attempt = Attempt(event: Event, outcome: Outcome)

  /** The file after the first `n` attempts. */
  function FileAfter(file: LogFile, attempts: seq<Attempt>, n: nat): LogFile
    requires n <= |attempts|
  {
    if n == 0 then file
    else Write(FileAfter(file, attempts, n - 1), attempts[n - 1].event, attempts[n - 1].outcome)
  }

  /** What the first `n` attempts broadcast, in order. */
  function HeardOf(attempts: seq<Attempt>, n: nat): seq<Event>
    requires n <= |attempts|
  {
    if n == 0 then [] else HeardOf(attempts, n - 1) + Heard(attempts[n - 1].event, attempts[n - 1].outcome)
  }

  /** The log a reader finds then is what it held before and everything broadcast since. */
  ghost predicate InStepAt(file: LogFile, attempts: seq<Attempt>, n: nat)
    requires n <= |attempts|
  {
    FileAfter(file, attempts, n).Contents() == file.Contents() + HeardOf(attempts, n)
  }

  predicate CleanAt(file: LogFile, attempts: seq<Attempt>, k: nat)
    requires k < |attempts|
  {
    Clean(FileAfter(file, attempts, k), attempts[k].outcome)
  }

  /** Something that holds at first and is kept exactly by good steps always holds if and only if all steps are good. */
  lemma {:induction false} KeptThroughout(holds: nat -> bool, good: nat -> bool, n: nat)
    requires holds(0) && forall k :: 0 <= k < n && holds(k) ==> (holds(k + 1) <==> good(k))
    ensures (forall k :: 0 <= k <= n ==> holds(k)) <==> (forall k :: 0 <= k < n ==> good(k))
  {
    if n > 0 {
      KeptThroughout(holds, good, n - 1);
      assert holds(n - 1) ==> (holds(n - 1 + 1) <==> good(n - 1));
    }
  }

  /** The log and its channel are in step at every moment if and only if every append was clean. */
  lemma InStepThroughout(file: LogFile, attempts: seq<Attempt>)
    ensures (forall k :: 0 <= k <= |attempts| ==> InStepAt(file, attempts, k)) <==>
            (forall k :: 0 <= k < |attempts| ==> CleanAt(file, attempts, k))
  {
    var holds := (k: nat) => k <= |attempts| && InStepAt(file, attempts, k);
    var good := (k: nat) => k < |attempts| && CleanAt(file, attempts, k);
    forall k | 0 <= k < |attempts| && holds(k)
      ensures holds(k + 1) <==> good(k)
    {
      OneMore(file, attempts, k);
    }
    assert InStepAt(file, attempts, 0);
    KeptThroughout(holds, good, |attempts|);
    assert forall k :: 0 <= k <= |attempts| ==> (holds(k) <==> InStepAt(file, attempts, k));
    assert forall k :: 0 <= k < |attempts| ==> (good(k) <==> CleanAt(file, attempts, k));
  }

  lemma OneMore(file: LogFile, attempts: seq<Attempt>, n: nat)
    requires n < |attempts|
    ensures InStepAt(file, attempts, n) ==> (InStepAt(file, attempts, n + 1) <==> CleanAt(file, attempts, n))
  {
    if InStepAt(file, attempts, n) {
      var last := attempts[n];
      AppendKeepsStep(FileAfter(file, attempts, n), last.event, last.outcome);
      var heard, more := HeardOf(attempts, n), Heard(last.event, last.outcome);
      assert file.Contents() + (heard + more) == file.Contents() + heard + more;
    }
  }

  // ---- How a log and its channel part -----------------------------------------------------------

  /** After a crash inside a line the next event is broadcast and never logged. */
  lemma TornLineSwallowsTheNextEvent(lines: seq<Option<Event>>, e: Event)
    ensures var torn, attempts := LogFile(lines, Partial, true), [Attempt(e, Appended)];
            FileAfter(torn, attempts, 1).Contents() == torn.Contents() && HeardOf(attempts, 1) == [e]
  {
    ParsedAppend(lines, None);
  }

  /** An event whose line was written but not synced is logged and never broadcast; the job goes on to report it. */
  lemma UnsyncedEventIsNeverBroadcast(lines: seq<Option<Event>>, stage: Event, failed: Event)
    ensures var file, attempts := LogFile(lines, Whole, true), [Attempt(stage, Unsynced), Attempt(failed, Appended)];
            FileAfter(file, attempts, 2).Contents() == file.Contents() + [stage, failed]
            && HeardOf(attempts, 2) == [failed]
  {
    var file, attempts := LogFile(lines, Whole, true), [Attempt(stage, Unsynced), Attempt(failed, Appended)];
    assert FileAfter(file, attempts, 1) == LogFile(lines + [Some(stage)], Whole, true);
    assert HeardOf(attempts, 0) == [] && HeardOf(attempts, 1) == [];
    ParsedAppend(lines, Some(stage));
    ParsedAppend(lines + [Some(stage)], Some(failed));
  }

  /** An event that lacks only its newline is read until the next append, and lost by it together with that one. */
  lemma UnterminatedEventVanishes(lines: seq<Option<Event>>, e: Event, next: Event)
    ensures var file, attempts := LogFile(lines, Unterminated(e), true), [Attempt(next, Appended)];
            file.Contents() == FileAfter(file, attempts, 1).Contents() + [e] && HeardOf(attempts, 1) == [next]
  {
    ParsedAppend(lines, None);
  }

  /** After a write that stopped inside a character no event is read any more, earlier and later ones included. */
  lemma CutCharacterHidesTheHistory(lines: seq<Option<Event>>, past: Event, cut: Event, next: Event)
    ensures var file := LogFile(lines + [Some(past)], Whole, true);
            var attempts := [Attempt(cut, CharacterCut), Attempt(next, Appended)];
            && file.Contents() == Parsed(lines) + [past]
            && FileAfter(file, attempts, 1).Contents() == FileAfter(file, attempts, 2).Contents() == []
            && HeardOf(attempts, 2) == [next]
  {
    ParsedAppend(lines, Some(past));
    var attempts := [Attempt(cut, CharacterCut), Attempt(next, Appended)];
    assert HeardOf(attempts, 0) == [] && HeardOf(attempts, 1) == [];
  }
}
