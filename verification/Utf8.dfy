/**
 * Text as Unicode scalar values: UTF-8, the lossy decoder of Rust's
 * `String::from_utf8_lossy`, and `str::trim`.
 */
module Utf8 {
  import opened Base

  type Scalar = x: int | 0 <= x < 0x11_0000 && !(0xD800 <= x < 0xE000)

  type Text = seq<Scalar>

  const REPLACEMENT: Scalar := 0xFFFD

  // ---------------------------------------------------------------- encoding

  function EncodeScalar(c: Scalar): (bytes: seq<byte>)
    ensures 1 <= |bytes| <= 4
  {
    if c < 0x80 then [c]
    else if c < 0x800 then [0xC0 + c / 64, 0x80 + c % 64]
    else if c < 0x1_0000 then [0xE0 + c / 4096, 0x80 + c / 64 % 64, 0x80 + c % 64]
    else [0xF0 + c / 262_144, 0x80 + c / 4096 % 64, 0x80 + c / 64 % 64, 0x80 + c % 64]
  }

  function Encode(text: Text): seq<byte> {
    if text == [] then [] else EncodeScalar(text[0]) + Encode(text[1..])
  }

  // ---------------------------------------------------------------- lossy decoding

  /** Past the end there is no byte that could continue a character. */
  function At(bytes: seq<byte>, i: nat): byte {
    if i < |bytes| then bytes[i] else 0
  }

  predicate Continues(b: byte) {
    0x80 <= b < 0xC0
  }

  /** The second bytes that may follow the first byte of three: no overlong form, no surrogate. */
  predicate SecondOfThree(first: byte, second: byte) {
    if first == 0xE0 then 0xA0 <= second < 0xC0
    else if first == 0xED then 0x80 <= second < 0xA0
    else Continues(second)
  }

  /** The second bytes that may follow the first byte of four: no overlong form, nothing above U+10FFFF. */
  predicate SecondOfFour(first: byte, second: byte) {
    if first == 0xF0 then 0x90 <= second < 0xC0
    else if first == 0xF4 then 0x80 <= second < 0x90
    else Continues(second)
  }

  /**
   * The first character of a nonempty byte string and how many bytes it takes. What can
   * no longer become a character is replaced, up to the byte that shows it.
   */
  function DecodeFirst(bytes: seq<byte>): (r: (Scalar, nat))
    requires bytes != []
    ensures 1 <= r.1 <= |bytes|
  {
    var a, b, c, d := bytes[0] as int, At(bytes, 1) as int, At(bytes, 2) as int, At(bytes, 3) as int;
    if a < 0x80 then (a, 1)
    else if 0xC2 <= a < 0xE0 then
      if !Continues(b) then (REPLACEMENT, 1)
      else ((a - 0xC0) * 64 + (b - 0x80), 2)
    else if 0xE0 <= a < 0xF0 then
      if !SecondOfThree(a, b) then (REPLACEMENT, 1)
      else if !Continues(c) then (REPLACEMENT, 2)
      else ((a - 0xE0) * 4096 + (b - 0x80) * 64 + (c - 0x80), 3)
    else if 0xF0 <= a < 0xF5 then
      if !SecondOfFour(a, b) then (REPLACEMENT, 1)
      else if !Continues(c) then (REPLACEMENT, 2)
      else if !Continues(d) then (REPLACEMENT, 3)
      else ((a - 0xF0) * 262_144 + (b - 0x80) * 4096 + (c - 0x80) * 64 + (d - 0x80), 4)
    else (REPLACEMENT, 1)
  }

  /** Every byte string is some text. */
  function Lossy(bytes: seq<byte>): Text
    decreases |bytes|
  {
    if bytes == [] then []
    else
      var (c, used) := DecodeFirst(bytes);
      [c] + Lossy(bytes[used..])
  }

  lemma DecodesTwo(x: nat, y: nat, rest: seq<byte>)
    requires 2 <= x < 32 && y < 64
    ensures DecodeFirst([0xC0 + x, 0x80 + y] + rest) == (x * 64 + y, 2)
  {
  }

  lemma DecodesThree(x: nat, y: nat, z: nat, rest: seq<byte>)
    requires x < 16 && y < 64 && z < 64
    requires (x == 0 ==> y >= 32) && (x == 13 ==> y < 32)
    ensures DecodeFirst([0xE0 + x, 0x80 + y, 0x80 + z] + rest) == (x * 4096 + y * 64 + z, 3)
  {
    var bytes := [0xE0 + x, 0x80 + y, 0x80 + z] + rest;
    assert bytes[0] == 0xE0 + x && At(bytes, 1) == 0x80 + y && At(bytes, 2) == 0x80 + z;
  }

  lemma DecodesFour(x: nat, y: nat, z: nat, w: nat, rest: seq<byte>)
    requires x < 5 && y < 64 && z < 64 && w < 64
    requires (x == 0 ==> y >= 16) && (x == 4 ==> y < 16)
    ensures DecodeFirst([0xF0 + x, 0x80 + y, 0x80 + z, 0x80 + w] + rest)
         == (x * 262_144 + y * 4096 + z * 64 + w, 4)
  {
    var bytes := [0xF0 + x, 0x80 + y, 0x80 + z, 0x80 + w] + rest;
    assert bytes[0] == 0xF0 + x && At(bytes, 1) == 0x80 + y && At(bytes, 2) == 0x80 + z && At(bytes, 3) == 0x80 + w;
  }

  lemma Digits(c: nat)
    ensures c == c / 64 * 64 + c % 64
    ensures c == c / 4096 * 4096 + c / 64 % 64 * 64 + c % 64
    ensures c == c / 262_144 * 262_144 + c / 4096 % 64 * 4096 + c / 64 % 64 * 64 + c % 64
  {
    Twice(c);
    Twice(c / 64);
    assert c / 64 / 4096 == c / 262_144;
  }

  lemma Twice(c: nat)
    ensures c / 4096 == c / 64 / 64 && c / 64 == c / 4096 * 64 + c / 64 % 64
  {
  }

  /** An encoded character is read back, whatever follows it. */
  lemma DecodesScalar(c: Scalar, rest: seq<byte>)
    ensures DecodeFirst(EncodeScalar(c) + rest) == (c, |EncodeScalar(c)|)
  {
    Digits(c);
    if c >= 0x80 {
      hide DecodeFirst;
      if c < 0x800 {
        DecodesTwo(c / 64, c % 64, rest);
      } else if c < 0x1_0000 {
        DecodesThree(c / 4096, c / 64 % 64, c % 64, rest);
      } else {
        DecodesFour(c / 262_144, c / 4096 % 64, c / 64 % 64, c % 64, rest);
      }
    }
  }

  /** Lossy decoding loses nothing of encoded text. */
  lemma {:induction false} LossyEncode(text: Text)
    ensures Lossy(Encode(text)) == text
  {
    if text == [] {
    } else {
      var first, rest := EncodeScalar(text[0]), Encode(text[1..]);
      DecodesScalar(text[0], rest);
      assert (first + rest)[|first|..] == rest;
      LossyEncode(text[1..]);
      assert text == [text[0]] + text[1..];
    }
  }

  /** A character that is cut off is one replacement. */
  lemma DecodesCutScalar(c: Scalar, n: nat)
    requires 0 < n < |EncodeScalar(c)|
    ensures Lossy(EncodeScalar(c)[..n]) == [REPLACEMENT]
  {
    var bytes := EncodeScalar(c)[..n];
    Digits(c);
    assert bytes[0] == EncodeScalar(c)[0] && (n > 1 ==> bytes[1] == EncodeScalar(c)[1]);
    assert n > 2 ==> bytes[2] == EncodeScalar(c)[2];
    assert DecodeFirst(bytes) == (REPLACEMENT, n);
    assert bytes[n..] == [];
  }

  /** Encoded text that is cut by four bytes or more decodes to fewer characters. */
  lemma {:induction false} CutTextIsShorter(text: Text, n: nat)
    requires n <= |Encode(text)|
    ensures |Lossy(Encode(text)[..n])| <= |text|
    ensures n + 4 <= |Encode(text)| ==> |Lossy(Encode(text)[..n])| < |text|
  {
    if n == 0 {
      assert Encode(text)[..0] == [];
    } else {
      var first, rest := EncodeScalar(text[0]), Encode(text[1..]);
      if n < |first| {
        assert (first + rest)[..n] == first[..n];
        DecodesCutScalar(text[0], n);
      } else {
        var m := n - |first|;
        CutTextIsShorter(text[1..], m);
        assert (first + rest)[..n] == first + rest[..m];
        DecodesScalar(text[0], rest[..m]);
        assert (first + rest[..m])[|first|..] == rest[..m];
      }
    }
  }

  // ---------------------------------------------------------------- what is replaced

  /** Some characters in their bytes. */
  lemma SampleCharacters()
    ensures EncodeScalar(0x24) == [0x24] && EncodeScalar(0xE9) == [0xC3, 0xA9]
    ensures EncodeScalar(0x20AC) == [0xE2, 0x82, 0xAC] && EncodeScalar(0x1F600) == [0xF0, 0x9F, 0x98, 0x80]
  {
  }

  /** The first n bytes begin some character. */
  ghost predicate BeginsCharacter(bytes: seq<byte>, n: nat)
    requires n <= |bytes|
  {
    exists c: Scalar :: n <= |EncodeScalar(c)| && EncodeScalar(c)[..n] == bytes[..n]
  }

  /** The bytes of a character: the first tells how many there are, and restricts the second. */
  lemma ScalarBytes(c: Scalar)
    ensures var e := EncodeScalar(c);
      && (e[0] < 0x80 ==> |e| == 1)
      && !(0x80 <= e[0] < 0xC2) && e[0] < 0xF5
      && (0xC2 <= e[0] < 0xE0 ==> |e| == 2 && Continues(e[1]))
      && (0xE0 <= e[0] < 0xF0 ==> |e| == 3 && SecondOfThree(e[0], e[1]) && Continues(e[2]))
      && (0xF0 <= e[0] ==> |e| == 4 && SecondOfFour(e[0], e[1]) && Continues(e[2]) && Continues(e[3]))
  {
  }

  lemma EncodesTwo(x: nat, y: nat)
    requires 2 <= x < 32 && y < 64
    ensures EncodeScalar(x * 64 + y) == [0xC0 + x, 0x80 + y]
  {
  }

  lemma EncodesThree(x: nat, y: nat, z: nat)
    requires x < 16 && y < 64 && z < 64 && (x == 0 ==> y >= 32) && (x == 13 ==> y < 32)
    ensures EncodeScalar(x * 4096 + y * 64 + z) == [0xE0 + x, 0x80 + y, 0x80 + z]
  {
    var c := x * 4096 + y * 64 + z;
    assert c / 4096 == x && c / 64 == x * 64 + y && c % 64 == z;
  }

  lemma EncodesFour(x: nat, y: nat, z: nat, w: nat)
    requires x < 5 && y < 64 && z < 64 && w < 64 && (x == 0 ==> y >= 16) && (x == 4 ==> y < 16)
    ensures EncodeScalar(x * 262_144 + y * 4096 + z * 64 + w) == [0xF0 + x, 0x80 + y, 0x80 + z, 0x80 + w]
  {
    FourDigits(x, y, z, w);
  }

  lemma FourDigits(x: nat, y: nat, z: nat, w: nat)
    requires y < 64 && z < 64 && w < 64
    ensures var c := x * 262_144 + y * 4096 + z * 64 + w;
      c / 262_144 == x && c / 4096 % 64 == y && c / 64 % 64 == z && c % 64 == w
  {
    var c := x * 262_144 + y * 4096 + z * 64 + w;
    assert c / 4096 == x * 64 + y && c / 64 == (x * 64 + y) * 64 + z;
  }

  lemma ThreeBegin(bytes: seq<byte>)
    requires |bytes| >= 2 && 0xE0 <= bytes[0] < 0xF0 && SecondOfThree(bytes[0], bytes[1])
    ensures BeginsCharacter(bytes, 2)
  {
    hide EncodeScalar;
    var x: nat, y: nat := bytes[0] as int - 0xE0, bytes[1] as int - 0x80;
    EncodesThree(x, y, 0);
    var c: Scalar := x * 4096 + y * 64;
    assert EncodeScalar(c)[..2] == bytes[..2];
  }

  lemma FourBegin(bytes: seq<byte>)
    requires |bytes| >= 2 && 0xF0 <= bytes[0] < 0xF5 && SecondOfFour(bytes[0], bytes[1])
    ensures BeginsCharacter(bytes, 2)
    ensures |bytes| >= 3 && Continues(bytes[2]) ==> BeginsCharacter(bytes, 3)
  {
    hide EncodeScalar;
    var x: nat, y: nat := bytes[0] as int - 0xF0, bytes[1] as int - 0x80;
    EncodesFour(x, y, 0, 0);
    var c: Scalar := x * 262_144 + y * 4096;
    assert EncodeScalar(c)[..2] == bytes[..2];
    if |bytes| >= 3 && Continues(bytes[2]) {
      var z: nat := bytes[2] as int - 0x80;
      EncodesFour(x, y, z, 0);
      var d: Scalar := x * 262_144 + y * 4096 + z * 64;
      assert EncodeScalar(d)[..3] == bytes[..3];
    }
  }

  /** Bytes that no character begins with more of. */
  lemma NothingLonger(bytes: seq<byte>, n: nat)
    requires n < |bytes| && DecodeFirst(bytes) == (REPLACEMENT, n) && bytes[..n] != EncodeScalar(REPLACEMENT)
    ensures !BeginsCharacter(bytes, n + 1)
  {
    hide EncodeScalar;
    forall c: Scalar | n + 1 <= |EncodeScalar(c)|
      ensures EncodeScalar(c)[..n + 1] != bytes[..n + 1]
    {
      ScalarBytes(c);
      var e := EncodeScalar(c);
      if e[..n + 1] == bytes[..n + 1] {
        assert forall i :: 0 <= i <= n ==> e[i] == e[..n + 1][i] == bytes[..n + 1][i] == bytes[i];
      }
    }
    ReplacementBytes();
  }

  lemma ReplacementBytes()
    ensures EncodeScalar(REPLACEMENT) == [0xEF, 0xBF, 0xBD]
  {
  }

  /**
   * The lossy decoder reads a character where there is one. Otherwise it replaces the longest beginning of a
   * character, or one byte that begins none (the maximal subparts of section 3.9 of the Unicode Standard).
   */
  lemma ReplacesMaximalSubparts(bytes: seq<byte>)
    requires bytes != []
    ensures var (c, n) := DecodeFirst(bytes);
      || bytes[..n] == EncodeScalar(c)
      || (&& c == 0xFFFD
          && (forall d: Scalar :: !(EncodeScalar(d) <= bytes))
          && (n == 1 || BeginsCharacter(bytes, n))
          && (n < |bytes| ==> !BeginsCharacter(bytes, n + 1)))
  {
    var (c, n) := DecodeFirst(bytes);
    if d: Scalar :| EncodeScalar(d) <= bytes {
      var rest := bytes[|EncodeScalar(d)|..];
      assert bytes == EncodeScalar(d) + rest;
      DecodesScalar(d, rest);
      assert bytes[..n] == EncodeScalar(c);
    } else {
      assert c == REPLACEMENT by {
        ReadIsThere(bytes);
      }
      if bytes[..n] != EncodeScalar(c) {
        hide EncodeScalar, BeginsCharacter;
        if n < |bytes| {
          NothingLonger(bytes, n);
        }
        if n > 1 {
          BegunIs(bytes, n);
        }
      }
    }
  }

  /** What is read without being replaced is there. */
  lemma ReadIsThere(bytes: seq<byte>)
    requires bytes != []
    ensures var (c, n) := DecodeFirst(bytes); c == REPLACEMENT || EncodeScalar(c) <= bytes
  {
    var (c, n) := DecodeFirst(bytes);
    if c != REPLACEMENT && n == 1 {
      assert EncodeScalar(c) == [bytes[0]];
    } else if c != REPLACEMENT {
      hide EncodeScalar;
      var a, b := bytes[0] as int, bytes[1] as int - 0x80;
      if n == 2 {
        EncodesTwo(a - 0xC0, b);
      } else if n == 3 {
        EncodesThree(a - 0xE0, b, bytes[2] as int - 0x80);
      } else {
        EncodesFour(a - 0xF0, b, bytes[2] as int - 0x80, bytes[3] as int - 0x80);
      }
    }
  }

  lemma BegunIs(bytes: seq<byte>, n: nat)
    requires bytes != [] && DecodeFirst(bytes) == (REPLACEMENT, n) && n > 1 && bytes[..n] != EncodeScalar(REPLACEMENT)
    ensures BeginsCharacter(bytes, n)
  {
    ReplacementBytes();
    hide BeginsCharacter, EncodeScalar;
    if 0xE0 <= bytes[0] < 0xF0 {
      ThreeBegin(bytes);
    } else {
      FourBegin(bytes);
    }
  }

  // ---------------------------------------------------------------- trimming

  /** The Unicode property White_Space. */
  predicate IsWhite(c: Scalar) {
    || 0x09 <= c <= 0x0D || c in {0x20, 0x85, 0xA0, 0x1680}
    || 0x2000 <= c <= 0x200A || c in {0x2028, 0x2029, 0x202F, 0x205F, 0x3000}
  }

  predicate AllWhite(text: Text) {
    forall i :: 0 <= i < |text| ==> IsWhite(text[i])
  }

  function TrimStart(text: Text): Text {
    if text != [] && IsWhite(text[0]) then TrimStart(text[1..]) else text
  }

  function TrimEnd(text: Text): Text {
    if text != [] && IsWhite(text[|text| - 1]) then TrimEnd(text[..|text| - 1]) else text
  }

  function Trim(text: Text): Text {
    TrimEnd(TrimStart(text))
  }

  /** No white space at either end. */
  predicate Trimmed(text: Text) {
    text == [] || (!IsWhite(text[0]) && !IsWhite(text[|text| - 1]))
  }

  lemma {:induction false} TrimStartSplits(text: Text)
    ensures exists before :: AllWhite(before) && text == before + TrimStart(text)
    ensures TrimStart(text) == [] || !IsWhite(TrimStart(text)[0])
  {
    if text == [] || !IsWhite(text[0]) {
      assert AllWhite([]) && text == [] + text;
    } else {
      TrimStartSplits(text[1..]);
      var before :| AllWhite(before) && text[1..] == before + TrimStart(text[1..]);
      assert text == ([text[0]] + before) + TrimStart(text);
    }
  }

  lemma {:induction false} TrimEndSplits(text: Text)
    ensures exists after :: AllWhite(after) && text == TrimEnd(text) + after
    ensures TrimEnd(text) == [] || !IsWhite(TrimEnd(text)[|TrimEnd(text)| - 1])
    ensures TrimEnd(text) <= text
  {
    if text == [] || !IsWhite(text[|text| - 1]) {
      assert AllWhite([]) && text == text + [];
    } else {
      var rest, last := text[..|text| - 1], text[|text| - 1];
      TrimEndSplits(rest);
      var after :| AllWhite(after) && rest == TrimEnd(rest) + after;
      assert text == TrimEnd(text) + (after + [last]);
    }
  }

  /** Trimming takes white space off both ends, all of it and nothing else. */
  lemma TrimSplits(text: Text)
    ensures exists before, after :: AllWhite(before) && AllWhite(after) && text == before + Trim(text) + after
    ensures Trimmed(Trim(text)) && |Trim(text)| <= |text|
    ensures Trim(text) == text <==> Trimmed(text)
  {
    TrimStartSplits(text);
    TrimEndSplits(TrimStart(text));
    var before :| AllWhite(before) && text == before + TrimStart(text);
    var after :| AllWhite(after) && TrimStart(text) == Trim(text) + after;
    assert text == before + Trim(text) + after;
  }
}
