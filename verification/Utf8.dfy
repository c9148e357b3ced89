/** UTF-8 as `String::from_utf8` accepts it: shortest forms only, no surrogates, nothing above U+10FFFF. */
module Utf8 {
  import opened Wrappers
  import opened Text

  type Byte = n: nat | n < 256

  function EncodeChar(c: char): (bytes: seq<Byte>)
    ensures |bytes| == Utf8Width(c)
  {
    var n := c as int;
    var (n1, n2, n3) := (n / 0x40, n / 0x40 / 0x40, n / 0x40 / 0x40 / 0x40);
    if n < 0x80 then [n]
    else if n < 0x800 then [0xC0 + n1, 0x80 + n % 0x40]
    else if n < 0x10000 then [0xE0 + n2, 0x80 + n1 % 0x40, 0x80 + n % 0x40]
    else [0xF0 + n3, 0x80 + n2 % 0x40, 0x80 + n1 % 0x40, 0x80 + n % 0x40]
  }

  function Encode(text: string): (bytes: seq<Byte>) {
    if text == "" then [] else EncodeChar(text[0]) + Encode(text[1..])
  }

  predicate Continues(b: Byte) {
    0x80 <= b < 0xC0
  }

  /** `high` extended by the six bits a continuation byte carries. */
  function Extend(high: int, b: Byte): int {
    high * 0x40 + (b as int - 0x80)
  }

  predicate IsScalar(n: int) {
    0 <= n < 0xD800 || 0xE000 <= n <= 0x10FFFF
  }

  datatype Decoded = Decoded(value: char, width: nat)

  /** The character at the front of a non-empty byte sequence, if one is well formed there. */
  function DecodeChar(b: seq<Byte>): (d: Option<Decoded>)
    requires b != []
    ensures d.Some? ==> 1 <= d.value.width <= |b|
  {
    var lead: int := b[0];
    if lead < 0x80 then Some(Decoded(lead as char, 1))
    else if 0xC2 <= lead < 0xE0 && |b| >= 2 && Continues(b[1]) then
      Some(Decoded(Extend(lead - 0xC0, b[1]) as char, 2))
    else if 0xE0 <= lead < 0xF0 && |b| >= 3 && Continues(b[1]) && Continues(b[2]) then
      var n := Extend(Extend(lead - 0xE0, b[1]), b[2]);
      if 0x800 <= n && IsScalar(n) then Some(Decoded(n as char, 3)) else None
    else if 0xF0 <= lead < 0xF5 && |b| >= 4 && Continues(b[1]) && Continues(b[2]) && Continues(b[3]) then
      var n := Extend(Extend(Extend(lead - 0xF0, b[1]), b[2]), b[3]);
      if 0x10000 <= n && IsScalar(n) then Some(Decoded(n as char, 4)) else None
    else None
  }

  /** The text, or `None` when any byte of it is malformed. */
  function Decode(bytes: seq<Byte>): Option<string> {
    if bytes == [] then Some("")
    else
      var first := DecodeChar(bytes);
      if first.None? then None
      else
        var rest := Decode(bytes[first.value.width..]);
        if rest.None? then None else Some([first.value.value] + rest.value)
  }

  lemma DecodeEncodedChar(c: char, rest: seq<Byte>)
    ensures DecodeChar(EncodeChar(c) + rest) == Some(Decoded(c, |EncodeChar(c)|))
  {
    var n := c as int;
    assert n == n / 0x40 * 0x40 + n % 0x40;
    assert n / 0x40 == n / 0x40 / 0x40 * 0x40 + n / 0x40 % 0x40;
  }

  /** Whatever is encoded is decoded again. */
  lemma {:induction false} DecodeEncode(text: string)
    ensures Decode(Encode(text)) == Some(text)
  {
    if text != "" {
      var front, rest := EncodeChar(text[0]), Encode(text[1..]);
      DecodeEncodedChar(text[0], rest);
      assert (front + rest)[|front|..] == rest;
      DecodeEncode(text[1..]);
      assert [text[0]] + text[1..] == text;
    }
  }

  lemma EncodeDecodedChar(b: seq<Byte>)
    requires b != [] && DecodeChar(b).Some?
    ensures EncodeChar(DecodeChar(b).value.value) == b[..DecodeChar(b).value.width]
  {
    var lead: int := b[0];
    if lead >= 0x80 {
      if lead < 0xE0 {
        ExtendSplits(lead - 0xC0, b[1]);
      } else if lead < 0xF0 {
        ExtendSplits(lead - 0xE0, b[1]);
        ExtendSplits(Extend(lead - 0xE0, b[1]), b[2]);
      } else {
        ExtendSplits(lead - 0xF0, b[1]);
        ExtendSplits(Extend(lead - 0xF0, b[1]), b[2]);
        ExtendSplits(Extend(Extend(lead - 0xF0, b[1]), b[2]), b[3]);
      }
    }
  }

  lemma ExtendSplits(high: int, b: Byte)
    requires Continues(b)
    ensures Extend(high, b) / 0x40 == high && 0x80 + Extend(high, b) % 0x40 == b
  {
  }

  lemma EncodeCons(c: char, rest: string)
    ensures Encode([c] + rest) == EncodeChar(c) + Encode(rest)
  {
    assert ([c] + rest)[1..] == rest;
  }

  /** Only one byte sequence decodes to a text: no overlong or otherwise alternative form is accepted. */
  lemma {:induction false} EncodeDecode(bytes: seq<Byte>)
    requires Decode(bytes).Some?
    ensures Encode(Decode(bytes).value) == bytes
  {
    if bytes != [] {
      var first := DecodeChar(bytes).value;
      EncodeDecodedChar(bytes);
      var rest := bytes[first.width..];
      EncodeDecode(rest);
      EncodeCons(first.value, Decode(rest).value);
      assert bytes == bytes[..first.width] + rest;
    }
  }

  /** An ASCII byte occurs in an encoded text only where its character does. */
  lemma {:induction false} AsciiStaysAscii(text: string, a: char)
    requires a < '\U{80}' && a !in text
    ensures (a as int) !in Encode(text)
  {
    if text != "" {
      AsciiStaysAscii(text[1..], a);
      assert (a as int) !in EncodeChar(text[0]);
    }
  }

  // ---- Cut and continued ------------------------------------------------------------------------

  /** Neither a well-formed first character nor an ill-formed one is changed by what follows, if that begins anew. */
  lemma DecodeCharAppend(a: seq<Byte>, b: seq<Byte>)
    requires a != [] && (b == [] || b[0] < 0x80)
    ensures DecodeChar(a + b) == DecodeChar(a)
  {
    assert forall i :: 0 <= i < |a + b| ==> (a + b)[i] == if i < |a| then a[i] else b[i - |a|];
  }

  /** What begins with an ASCII byte repairs nothing and breaks nothing. */
  lemma {:induction false} DecodeAppend(a: seq<Byte>, b: seq<Byte>)
    requires b == [] || b[0] < 0x80
    ensures Decode(a + b).Some? <==> Decode(a).Some? && Decode(b).Some?
  {
    if a == [] {
      assert a + b == b;
    } else {
      DecodeCharAppend(a, b);
      if DecodeChar(a).Some? {
        var width := DecodeChar(a).value.width;
        DecodeAppend(a[width..], b);
        assert (a + b)[width..] == a[width..] + b;
      }
    }
  }

  lemma DecodeCharLonger(a: seq<Byte>, b: seq<Byte>)
    requires a != [] && DecodeChar(a).Some?
    ensures DecodeChar(a + b) == DecodeChar(a)
  {
    var width := DecodeChar(a).value.width;
    assert (a + b)[..width] == a[..width];
    assert forall i :: 0 <= i < |a| ==> (a + b)[i] == a[i];
  }

  lemma {:induction false} EncodePrefix(text: string, j: nat)
    requires j <= |text|
    ensures Encode(text) == Encode(text[..j]) + Encode(text[j..])
  {
    if j > 0 {
      EncodePrefix(text[1..], j - 1);
      assert text[..j][1..] == text[1..][..j - 1] && text[1..][j - 1..] == text[j..];
    } else {
      assert text[..0] == "" && text[0..] == text;
    }
  }

  /** Where the `j`-th character of an encoded text begins. */
  function Offset(text: string, j: nat): nat
    requires j <= |text|
  {
    |Encode(text[..j])|
  }

  /** The first `k` bytes of a text end between two of its characters. */
  ghost predicate BetweenCharacters(text: string, k: nat) {
    exists j :: 0 <= j <= |text| && k == Offset(text, j)
  }

  /** A text cut off after `k` bytes decodes exactly when it was cut between two characters. */
  lemma CutDecodes(text: string, k: nat)
    requires k <= |Encode(text)|
    ensures Decode(Encode(text)[..k]).Some? <==> BetweenCharacters(text, k)
  {
    if BetweenCharacters(text, k) {
      var j :| 0 <= j <= |text| && k == Offset(text, j);
      EncodePrefix(text, j);
      assert Encode(text)[..k] == Encode(text[..j]);
      DecodeEncode(text[..j]);
    }
    if Decode(Encode(text)[..k]).Some? {
      var j := WholeCharacters(text, k);
    }
  }

  lemma FirstCharacter(text: string, k: nat)
    requires 0 < k <= |Encode(text)| && Decode(Encode(text)[..k]).Some?
    ensures var width := |EncodeChar(text[0])|;
            width <= k && k - width <= |Encode(text[1..])| && Decode(Encode(text[1..])[..k - width]).Some?
  {
    var front, rest := EncodeChar(text[0]), Encode(text[1..]);
    assert Encode(text)[..k] + Encode(text)[k..] == front + rest;
    DecodeCharLonger(Encode(text)[..k], Encode(text)[k..]);
    DecodeEncodedChar(text[0], rest);
    CutAfter(front, rest, k);
  }

  lemma CutAfter(front: seq<Byte>, rest: seq<Byte>, k: nat)
    requires |front| <= k <= |front| + |rest|
    ensures (front + rest)[..k][|front|..] == rest[..k - |front|]
  {
  }

  lemma OffsetNext(text: string, j: nat)
    requires j < |text|
    ensures Offset(text, j + 1) == |EncodeChar(text[0])| + Offset(text[1..], j)
  {
    assert text[..j + 1][1..] == text[1..][..j];
  }

  lemma {:induction false} WholeCharacters(text: string, k: nat) returns (j: nat)
    requires k <= |Encode(text)| && Decode(Encode(text)[..k]).Some?
    ensures j <= |text| && k == Offset(text, j)
  {
    j := 0;
    if k > 0 {
      FirstCharacter(text, k);
      j := WholeCharacters(text[1..], k - |EncodeChar(text[0])|);
      OffsetNext(text, j);
      j := j + 1;
    }
  }

  lemma {:induction false} EncodedLength(text: string)
    ensures |Encode(text)| == ByteLength(text)
  {
    if text != "" {
      EncodedLength(text[1..]);
      ByteLengthFromFront(text);
    }
  }

  lemma {:induction false} ByteLengthFromFront(text: string)
    requires text != ""
    ensures ByteLength(text) == Utf8Width(text[0]) + ByteLength(text[1..])
  {
    if |text| > 1 {
      ByteLengthFromFront(text[..|text| - 1]);
      assert text[..|text| - 1][1..] == text[1..][..|text| - 2];
    }
  }
}
