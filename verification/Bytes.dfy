/** Big-endian integers over bytes, as the Rust `to_be_bytes` and `from_be_bytes`. */
module Bytes {
  import opened Base

  const U16 := 0x1_0000
  const U32 := 0x1_0000_0000
  const U64 := 0x1_0000_0000_0000_0000

  /** One more than the largest integer held by `width` bytes. */
  function Span(width: nat): (n: nat)
    ensures n >= 1
  {
    if width == 0 then 1 else 256 * Span(width - 1)
  }

  /** The low `width` bytes of an integer, most significant first. */
  function ToBe(width: nat, x: nat): (bytes: seq<byte>)
    ensures |bytes| == width
  {
    if width == 0 then [] else ToBe(width - 1, x / 256) + [x % 256]
  }

  function FromBe(bytes: seq<byte>): nat {
    if bytes == [] then 0 else FromBe(bytes[..|bytes| - 1]) * 256 + bytes[|bytes| - 1]
  }

  /** Reading an integer back from its bytes gives it modulo the span of the width. */
  lemma {:induction false} FromToBe(width: nat, x: nat)
    ensures FromBe(ToBe(width, x)) == x % Span(width)
  {
    if width == 0 {
    } else {
      var low: byte := x % 256;
      var bytes := ToBe(width - 1, x / 256) + [low];
      assert bytes[..|bytes| - 1] == ToBe(width - 1, x / 256);
      FromToBe(width - 1, x / 256);
      ModSplit(x, Span(width - 1));
    }
  }

  lemma ModSplit(x: nat, n: nat)
    requires n >= 1
    ensures x / 256 % n * 256 + x % 256 == x % (256 * n)
  {
    var q, r := x / 256 / n, x / 256 % n;
    assert x / 256 == q * n + r;
    assert x == (q * n + r) * 256 + x % 256 == q * (256 * n) + (r * 256 + x % 256);
    assert r * 256 + x % 256 < 256 * n;
    ModUnique(x, 256 * n, q, r * 256 + x % 256);
  }

  lemma ModUnique(x: int, n: int, q: int, r: int)
    requires n > 0 && x == q * n + r && 0 <= r < n
    ensures x % n == r && x / n == q
  {
    var d := x / n - q;
    assert d * n == r - x % n;
    assert d >= 1 ==> d * n >= n;
    assert d <= -1 ==> d * n <= -n;
  }

  lemma Spans()
    ensures Span(1) == 0x100 && Span(2) == U16 && Span(4) == U32 && Span(8) == U64
  {
    assert Span(4) == 256 * Span(3) && Span(3) == 256 * Span(2);
    assert Span(8) == 256 * Span(7) && Span(7) == 256 * Span(6);
    assert Span(6) == 256 * Span(5) && Span(5) == 256 * Span(4);
  }

  /** What fits is read back exactly. */
  lemma FromToBeExact(width: nat, x: nat)
    requires x < Span(width)
    ensures FromBe(ToBe(width, x)) == x
  {
    FromToBe(width, x);
  }

  // ---------------------------------------------------------------- integers in octets

  lemma FromOne(a: byte)
    ensures FromBe([a]) == a as int
  {
    assert [a][..0] == [];
  }

  lemma FromTwo(a: byte, b: byte)
    ensures FromBe([a, b]) == a as int * 0x100 + b as int
  {
    FromOne(a);
    assert [a, b][..1] == [a];
  }

  lemma FromFour(a: byte, b: byte, c: byte, d: byte)
    ensures FromBe([a, b, c, d]) == (a as int * 0x100 + b as int) * 0x1_0000 + (c as int * 0x100 + d as int)
  {
    FromTwo(a, b);
    assert [a, b, c][..2] == [a, b];
    assert [a, b, c, d][..3] == [a, b, c];
  }

  lemma ToTwo(x: nat)
    requires x < U16
    ensures ToBe(2, x) == [x / 0x100, x % 0x100]
  {
    assert ToBe(1, x / 0x100) == ToBe(0, x / 0x100 / 0x100) + [x / 0x100 % 0x100];
  }

  lemma ToFour(x: nat)
    requires x < U32
    ensures ToBe(4, x) == [x / 0x100_0000, x / 0x1_0000 % 0x100, x / 0x100 % 0x100, x % 0x100]
  {
    var high := x / 0x1_0000;
    assert x / 0x100 / 0x100 == high && high / 0x100 == x / 0x100_0000;
    ToTwo(high);
    assert ToBe(3, x / 0x100) == ToBe(2, high) + [x / 0x100 % 0x100];
  }
}
