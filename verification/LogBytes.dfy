/** The bytes of an event log, and when they can be read as text at all. */
module LogBytes {
  import opened Wrappers
  import opened Utf8
  import opened EventLogs

  /**
   What one append left in the file: the first `written` bytes of its line, which is a JSON object and so begins with
   a brace.
   */
  datatype Cut = Cut(line: string, written: nat)

  type Piece = p: Cut | p.line != "" && p.line[0] == '{' && p.written <= |Encode(p.line)| witness Cut("{", 0)

  /** The file after the first `n` appends. */
  function Bytes(pieces: seq<Piece>, n: nat): seq<Byte>
    requires n <= |pieces|
  {
    if n == 0 then []
    else Bytes(pieces, n - 1) + Encode(pieces[n - 1].line)[..pieces[n - 1].written]
  }

  ghost predicate CutInside(piece: Piece) {
    !BetweenCharacters(piece.line, piece.written)
  }

  lemma PieceDecodes(before: seq<Byte>, piece: Piece)
    ensures Decode(before + Encode(piece.line)[..piece.written]).Some? <==> Decode(before).Some? && !CutInside(piece)
  {
    var added := Encode(piece.line)[..piece.written];
    assert added == [] || added[0] == ('{' as int);
    DecodeAppend(before, added);
    CutDecodes(piece.line, piece.written);
  }

  /** None of the first `n` appends stopped inside a character. */
  ghost predicate Uncut(pieces: seq<Piece>, n: nat)
    requires n <= |pieces|
  {
    n == 0 || (Uncut(pieces, n - 1) && !CutInside(pieces[n - 1]))
  }

  /**
   A log that began empty can be read as text exactly when none of its appends stopped inside a character; nothing
   that is appended later repairs it.
   */
  lemma {:induction false} ReadableUnlessCut(pieces: seq<Piece>, n: nat)
    requires n <= |pieces|
    ensures Decode(Bytes(pieces, n)).Some? <==> Uncut(pieces, n)
  {
    if n > 0 {
      ReadableUnlessCut(pieces, n - 1);
      PieceDecodes(Bytes(pieces, n - 1), pieces[n - 1]);
    }
  }

  /** The appends that left these pieces. */
  ghost predicate LeftBy(attempts: seq<Attempt>, pieces: seq<Piece>) {
    && |attempts| == |pieces|
    && forall i :: 0 <= i < |pieces| ==> (attempts[i].outcome.CharacterCut? <==> CutInside(pieces[i]))
  }

  lemma {:induction false} CutsAreRemembered(attempts: seq<Attempt>, pieces: seq<Piece>, n: nat)
    requires LeftBy(attempts, pieces) && n <= |pieces|
    ensures FileAfter(LogFile([], Whole, true), attempts, n).decodes <==> Uncut(pieces, n)
  {
    if n > 0 {
      CutsAreRemembered(attempts, pieces, n - 1);
      assert attempts[n - 1].outcome.CharacterCut? <==> CutInside(pieces[n - 1]);
    }
  }

  /** At every moment what the file says of its bytes is so. */
  lemma DecodesAsBytes(attempts: seq<Attempt>, pieces: seq<Piece>, n: nat)
    requires LeftBy(attempts, pieces) && n <= |pieces|
    ensures FileAfter(LogFile([], Whole, true), attempts, n).decodes <==> Decode(Bytes(pieces, n)).Some?
  {
    ReadableUnlessCut(pieces, n);
    CutsAreRemembered(attempts, pieces, n);
  }
}
