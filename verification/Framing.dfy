/** One message per line over a byte stream that arrives in arbitrary chunks. */
module Framing {
  import opened Wrappers
  import opened Utf8

  const MAX_MESSAGE_BYTES: nat := 1024 * 1024
  const NEWLINE: Byte := 10

  datatype TransportError = Io(detail: string) | FrameTooLong | Truncated | Encoding

  /** How the stream ends once every byte has arrived. */
  datatype Ending = Closed | Broken(detail: string)

  /** Every line of a stream, and the error it ended with, if any. */
  type Lines = (seq<string>, Option<TransportError>)

  type Frame = Result<Option<string>, TransportError>

  // ---- What one frame is, without chunks --------------------------------------------------------

  /** Where the first newline is, or the length if there is none. */
  function FirstNewline(bytes: seq<Byte>): (n: nat)
    ensures n <= |bytes|
    ensures forall i :: 0 <= i < n ==> bytes[i] != NEWLINE
    ensures n < |bytes| ==> bytes[n] == NEWLINE
  {
    if bytes == [] || bytes[0] == NEWLINE then 0 else 1 + FirstNewline(bytes[1..])
  }

  /** `trim_end_matches('\r')`. */
  function TrimReturns(line: string): string {
    if line != "" && line[|line| - 1] == '\r' then TrimReturns(line[..|line| - 1]) else line
  }

  function LineOf(bytes: seq<Byte>): Frame {
    match Decode(bytes)
    case None => Failure(Encoding)
    case Some(line) => Success(Some(TrimReturns(line)))
  }

  /** The frame at the front of everything still to come. */
  function FrameOf(bytes: seq<Byte>, ending: Ending): Frame {
    var n := FirstNewline(bytes);
    if n > MAX_MESSAGE_BYTES then Failure(FrameTooLong)
    else if n < |bytes| then LineOf(bytes[..n])
    else if ending.Broken? then Failure(Io(ending.detail))
    else if bytes == [] then Success(None)
    else Failure(Truncated)
  }

  /** A reader that meets a complete frame leaves exactly what follows its newline. */
  predicate HasFrame(bytes: seq<Byte>) {
    FirstNewline(bytes) < |bytes| && FirstNewline(bytes) <= MAX_MESSAGE_BYTES
  }

  lemma FirstNewlineUnique(bytes: seq<Byte>, n: nat)
    requires n <= |bytes| && (forall i :: 0 <= i < n ==> bytes[i] != NEWLINE)
    requires n == |bytes| || bytes[n] == NEWLINE
    ensures FirstNewline(bytes) == n
  {
  }

  // ---- The reader -------------------------------------------------------------------------------

  function Flat(chunks: seq<seq<Byte>>): seq<Byte> {
    if chunks == [] then [] else chunks[0] + Flat(chunks[1..])
  }

  /** `DaemonReader`: a buffered reader over whatever chunks the operating system delivers. */
  class DaemonReader {
    const capacity: nat                    // of the buffered reader
    const ending: Ending
    var buffer: seq<Byte>
    var incoming: seq<seq<Byte>>

    ghost predicate Valid()
      reads this
    {
      |buffer| <= capacity && forall i :: 0 <= i < |incoming| ==> 0 < |incoming[i]| <= capacity
    }

    /** Every byte not yet consumed, however it is or will be chunked. */
    function Remaining(): seq<Byte>
      reads this
    {
      buffer + Flat(incoming)
    }

    constructor (capacity: nat, chunks: seq<seq<Byte>>, ending: Ending)
      requires forall i :: 0 <= i < |chunks| ==> 0 < |chunks[i]| <= capacity
      ensures Valid() && Remaining() == Flat(chunks) && this.ending == ending && this.capacity == capacity
    {
      this.capacity := capacity;
      this.ending := ending;
      buffer := [];
      incoming := chunks;
    }

    /** `fill_buf`: what is buffered, or the next chunk; empty at the end of the stream, failing if it broke. */
    method FillBuf() returns (r: Result<seq<Byte>, string>)
      requires Valid()
      modifies this
      ensures Valid() && Remaining() == old(Remaining())
      ensures r.Success? ==> r.value == buffer && (r.value == [] ==> Remaining() == [] && ending.Closed?)
      ensures r.Failure? ==> Remaining() == [] && ending == Broken(r.error)
    {
      if buffer == [] {
        if incoming == [] {
          return if ending.Broken? then Failure(ending.detail) else Success([]);
        }
        buffer := incoming[0];
        incoming := incoming[1..];
      }
      r := Success(buffer);
    }

    method Consume(n: nat)
      requires Valid() && n <= |buffer|
      modifies this
      ensures Valid() && buffer == old(buffer)[n..] && Remaining() == old(Remaining())[n..]
    {
      assert Remaining()[n..] == buffer[n..] + Flat(incoming);
      buffer := buffer[n..];
    }

    /** What the buffer holds up to the first newline, or all of it; the newline itself is consumed too. */
    method TakePart() returns (part: seq<Byte>, complete: bool)
      requires Valid() && buffer != []
      modifies this
      ensures Valid() && |part| <= capacity && NEWLINE !in part
      ensures old(Remaining()) == part + (if complete then [NEWLINE] else []) + Remaining()
      ensures |Remaining()| < |old(Remaining())|
    {
      var index := FirstNewline(buffer);
      complete := index < |buffer|;
      part := buffer[..index];
      Consume(if complete then index + 1 else index);
    }

    /**
     The next frame is the one at the front of the flat byte stream, whatever the chunks are; exactly that frame and
     its newline are consumed, and what is held while reading never exceeds the limit by more than one chunk.
     */
    method ReadFrame() returns (r: Frame, ghost peak: nat)
      requires Valid()
      modifies this
      ensures Valid() && r == FrameOf(old(Remaining()), ending)
      ensures HasFrame(old(Remaining())) ==> Remaining() == old(Remaining())[FirstNewline(old(Remaining())) + 1..]
      ensures r.Success? && r.value.None? ==> Remaining() == []
      ensures peak <= MAX_MESSAGE_BYTES + capacity
    {
      var frame := [];
      peak := 0;
      ghost var stream := Remaining();
      while true
        invariant Valid() && frame + Remaining() == stream
        invariant |frame| <= MAX_MESSAGE_BYTES && NEWLINE !in frame
        invariant peak <= MAX_MESSAGE_BYTES + capacity
        decreases |Remaining()|
      {
        var available := FillBuf();
        if available.Failure? || available.value == [] {
          FirstNewlineUnique(stream, |frame|);
          return match available
                 case Failure(detail) => Failure(Io(detail))
                 case Success(_) => if frame == [] then Success(None) else Failure(Truncated), peak;
        }
        var part, complete := TakePart();
        frame := frame + part;
        if peak < |frame| {
          peak := |frame|;
        }
        if |frame| > MAX_MESSAGE_BYTES {
          TooLong(stream, frame);
          return Failure(FrameTooLong), peak;
        }
        if complete {
          CompleteFrame(stream, frame, Remaining());
          return LineOf(frame), peak;
        }
      }
    }

    /** Frame after frame until the stream ends: exactly the frames of the flat byte stream. */
    method ReadAll() returns (lines: seq<string>, error: Option<TransportError>)
      requires Valid()
      modifies this
      ensures Valid() && lines == AllFrames(old(Remaining()), ending).0
      ensures error == AllFrames(old(Remaining()), ending).1
    {
      lines := [];
      ghost var all := AllFrames(Remaining(), ending);
      while true
        invariant Valid() && SplitAt(all, lines, AllFrames(Remaining(), ending))
        decreases |Remaining()|
      {
        ghost var before := Remaining();
        var frame, _ := ReadFrame();
        match frame {
          case Failure(failure) => return lines, Some(failure);
          case Success(None) => return lines, None;
          case Success(Some(line)) =>
            assert HasFrame(before);
            SplitFurther(all, lines, line, AllFrames(Remaining(), ending));
            lines := lines + [line];
        }
      }
    }
  }

  /** The lines read so far, then the rest. */
  ghost predicate SplitAt(all: Lines, lines: seq<string>, rest: Lines) {
    all.0 == lines + rest.0 && all.1 == rest.1
  }

  lemma SplitFurther(all: Lines, lines: seq<string>, line: string, rest: Lines)
    requires SplitAt(all, lines, ([line] + rest.0, rest.1))
    ensures SplitAt(all, lines + [line], rest)
  {
  }

  lemma TooLong(stream: seq<Byte>, frame: seq<Byte>)
    requires frame <= stream && |frame| > MAX_MESSAGE_BYTES && NEWLINE !in frame
    ensures FirstNewline(stream) > MAX_MESSAGE_BYTES
  {
    assert forall i :: 0 <= i < |frame| ==> stream[i] == frame[i];
  }

  lemma CompleteFrame(stream: seq<Byte>, frame: seq<Byte>, rest: seq<Byte>)
    requires stream == frame + [NEWLINE] + rest && NEWLINE !in frame
    ensures FirstNewline(stream) == |frame| && stream[..|frame|] == frame && stream[|frame| + 1..] == rest
  {
    FirstNewlineUnique(stream, |frame|);
  }

  // ---- Reading back what was written ------------------------------------------------------------

  /** One encoded message as it is written: its text, then a newline. */
  function FrameBytes(text: string): seq<Byte> {
    Encode(text) + [NEWLINE]
  }

  function Wire(texts: seq<string>): seq<Byte> {
    if texts == [] then [] else FrameBytes(texts[0]) + Wire(texts[1..])
  }

  predicate Sendable(text: string) {
    '\n' !in text && |Encode(text)| <= MAX_MESSAGE_BYTES
  }

  /** Reading frames until the stream ends: the lines, and how it ended. */
  function AllFrames(bytes: seq<Byte>, ending: Ending): Lines
    decreases |bytes|
  {
    match FrameOf(bytes, ending)
    case Failure(error) => ([], Some(error))
    case Success(None) => ([], None)
    case Success(Some(line)) =>
      var rest := AllFrames(bytes[FirstNewline(bytes) + 1..], ending);
      ([line] + rest.0, rest.1)
  }

  lemma FirstFrame(text: string, rest: seq<Byte>, ending: Ending)
    requires Sendable(text)
    ensures FirstNewline(FrameBytes(text) + rest) == |Encode(text)|
    ensures FrameOf(FrameBytes(text) + rest, ending) == Success(Some(TrimReturns(text)))
  {
    var bytes := FrameBytes(text) + rest;
    AsciiStaysAscii(text, '\n');
    CompleteFrame(bytes, Encode(text), rest);
    DecodeEncode(text);
  }

  function TrimmedLines(texts: seq<string>): seq<string> {
    if texts == [] then [] else [TrimReturns(texts[0])] + TrimmedLines(texts[1..])
  }

  /** Frames come back one for one and in order; only trailing carriage returns are lost. */
  lemma {:induction false} FramesComeBack(texts: seq<string>, ending: Ending)
    requires forall i :: 0 <= i < |texts| ==> Sendable(texts[i])
    ensures AllFrames(Wire(texts), ending) ==
            (TrimmedLines(texts), if ending.Broken? then Some(Io(ending.detail)) else None)
  {
    if texts != [] {
      var rest := Wire(texts[1..]);
      FirstFrame(texts[0], rest, ending);
      assert Wire(texts)[|Encode(texts[0])| + 1..] == rest;
      FramesComeBack(texts[1..], ending);
    }
  }

  lemma {:induction false} NothingToTrim(texts: seq<string>)
    ensures TrimmedLines(texts) == texts <==>
            forall i :: 0 <= i < |texts| ==> texts[i] == "" || texts[i][|texts[i]| - 1] != '\r'
  {
    if texts != [] {
      NothingToTrim(texts[1..]);
      TrimShortens(texts[0]);
      assert [texts[0]] + texts[1..] == texts;
      assert forall i :: 1 <= i < |texts| ==> texts[i] == texts[1..][i - 1];
      assert TrimmedLines(texts)[1..] == TrimmedLines(texts[1..]);
    }
  }

  lemma {:induction false} TrimShortens(line: string)
    ensures |TrimReturns(line)| <= |line|
    ensures TrimReturns(line) == line <==> line == "" || line[|line| - 1] != '\r'
  {
    if line != "" && line[|line| - 1] == '\r' {
      TrimShortens(line[..|line| - 1]);
    }
  }

  /** The round trip over a cleanly closed stream is exact if and only if no frame ends in a carriage return. */
  lemma RoundTrip(texts: seq<string>)
    requires forall i :: 0 <= i < |texts| ==> Sendable(texts[i])
    ensures AllFrames(Wire(texts), Closed) == (texts, None) <==>
            forall i :: 0 <= i < |texts| ==> texts[i] == "" || texts[i][|texts[i]| - 1] != '\r'
  {
    FramesComeBack(texts, Closed);
    NothingToTrim(texts);
  }
}
