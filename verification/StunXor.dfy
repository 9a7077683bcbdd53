/** Bitwise exclusive or on unsigned integers and on byte strings. */
module StunXor {
  import opened Base
  import opened Bytes

  function Xor(a: nat, b: nat): nat {
    if a == 0 && b == 0 then 0 else 2 * Xor(a / 2, b / 2) + if a % 2 != b % 2 then 1 else 0
  }

  /** Masking twice with the same mask gives the value back. */
  lemma {:induction false} XorTwice(a: nat, mask: nat)
    ensures Xor(Xor(a, mask), mask) == a
  {
    if a == 0 && mask == 0 {
    } else {
      XorTwice(a / 2, mask / 2);
      var x := Xor(a, mask);
      assert x / 2 == Xor(a / 2, mask / 2);
      assert x % 2 == if a % 2 != mask % 2 then 1 else 0;
    }
  }

  /** The bit of weight two to the power of i. */
  predicate Bit(n: nat, i: nat) {
    n / Power2(i) % 2 == 1
  }

  lemma HalfShiftsBits(n: nat, i: nat)
    ensures Bit(n, i + 1) <==> Bit(n / 2, i)
  {
    HalfThen(n, Power2(i));
  }

  lemma HalfThen(n: nat, m: nat)
    requires m > 0
    ensures n / (2 * m) == n / 2 / m
  {
    var q, r := n / 2 / m, n / 2 % m;
    assert n / 2 == q * m + r;
    assert n == q * (2 * m) + (2 * r + n % 2);
    ModUnique(n, 2 * m, q, 2 * r + n % 2);
  }

  lemma LowestBit(a: nat, b: nat)
    ensures Xor(a, b) / 2 == Xor(a / 2, b / 2)
    ensures Bit(Xor(a, b), 0) <==> Bit(a, 0) != Bit(b, 0)
  {
    hide Bit;
    ZeroBit(Xor(a, b));
    ZeroBit(a);
    ZeroBit(b);
  }

  lemma ZeroBit(n: nat)
    ensures Bit(n, 0) <==> n % 2 == 1
  {
    assert Power2(0) == 1;
  }

  /** A bit of the result is set exactly when the two arguments differ in it. */
  lemma {:induction false} XorBits(a: nat, b: nat, i: nat)
    ensures Bit(Xor(a, b), i) <==> Bit(a, i) != Bit(b, i)
    decreases i
  {
    hide Xor, Bit;
    LowestBit(a, b);
    if i > 0 {
      XorBits(a / 2, b / 2, i - 1);
      HalfShiftsBits(Xor(a, b), i - 1);
      HalfShiftsBits(a, i - 1);
      HalfShiftsBits(b, i - 1);
    }
  }

  lemma XorHalf(a: nat, b: nat, p: nat, q: nat)
    requires p < 2 && q < 2
    ensures Xor(2 * a + p, 2 * b + q) == 2 * Xor(a, b) + Differ(p, q)
  {
  }

  function Differ(p: nat, q: nat): nat {
    if p != q then 1 else 0
  }

  /** High and low parts are masked apart. */
  lemma {:induction false} XorSplit(k: nat, m: nat, a: nat, b: nat, x: nat, y: nat)
    requires m == Power2(k) && x < m && y < m
    ensures Xor(a * m + x, b * m + y) == Xor(a, b) * m + Xor(x, y)
  {
    hide Xor;
    if k == 0 {
      XorNothing();
    } else {
      var h := Power2(k - 1);
      XorSplit(k - 1, h, a, b, x / 2, y / 2);
      XorHalf(a * h + x / 2, b * h + y / 2, x % 2, y % 2);
      XorHalf(x / 2, y / 2, x % 2, y % 2);
      TwiceSplit(a, h, m, x);
      TwiceSplit(b, h, m, y);
      TwiceProduct(Xor(a, b), h, m);
    }
  }

  lemma XorNothing()
    ensures Xor(0, 0) == 0
  {
  }

  lemma TwiceProduct(a: nat, h: nat, m: nat)
    requires m == 2 * h
    ensures a * m == 2 * (a * h)
  {
  }

  lemma TwiceSplit(a: nat, h: nat, m: nat, x: nat)
    requires m == 2 * h
    ensures a * m + x == 2 * (a * h + x / 2) + x % 2
  {
    TwiceProduct(a, h, m);
  }

  /** Two bits against two. */
  lemma XorCrumbs()
    ensures Xor(0, 0) == 0 && Xor(0, 1) == 1 && Xor(0, 2) == 2 && Xor(0, 3) == 3
    ensures Xor(1, 0) == 1 && Xor(1, 1) == 0 && Xor(1, 2) == 3 && Xor(1, 3) == 2
    ensures Xor(2, 0) == 2 && Xor(2, 1) == 3 && Xor(2, 2) == 0 && Xor(2, 3) == 1
    ensures Xor(3, 0) == 3 && Xor(3, 1) == 2 && Xor(3, 2) == 1 && Xor(3, 3) == 0
  {
  }

  lemma XorQuarter(h: nat, i: nat, l: nat, m: nat)
    requires l < 4 && m < 4
    ensures Xor(4 * h + l, 4 * i + m) == 4 * Xor(h, i) + Xor(l, m)
  {
    hide Xor;
    assert Power2(2) == 2 * Power2(1);
    XorSplit(2, 4, h, i, l, m);
  }

  /** Numbers with the same bits are the same number: the bits say everything of the result. */
  lemma {:induction false} BitsDecide(x: nat, y: nat)
    requires forall i: nat :: Bit(x, i) <==> Bit(y, i)
    ensures x == y
    decreases x + y
  {
    if x != 0 || y != 0 {
      forall i: nat ensures Bit(x / 2, i) <==> Bit(y / 2, i) {
        HalfShiftsBits(x, i);
        HalfShiftsBits(y, i);
        assert Bit(x, i + 1) <==> Bit(y, i + 1);
      }
      BitsDecide(x / 2, y / 2);
      ZeroBit(x);
      ZeroBit(y);
      assert x % 2 == y % 2;
    }
  }

  /** Masking never needs more bits than its arguments. */
  lemma {:induction false} XorFits(a: nat, b: nat, bits: nat)
    requires a < Power2(bits) && b < Power2(bits)
    ensures Xor(a, b) < Power2(bits)
  {
    if a == 0 && b == 0 {
    } else {
      XorFits(a / 2, b / 2, bits - 1);
    }
  }

  lemma Powers()
    ensures Power2(8) == 0x100 && Power2(16) == 0x1_0000 && Power2(32) == 0x1_0000_0000
  {
    assert Power2(8) == 2 * Power2(7) && Power2(7) == 2 * Power2(6) && Power2(6) == 2 * Power2(5);
    assert Power2(5) == 2 * Power2(4) && Power2(4) == 2 * Power2(3);
    assert Power2(3) == 2 * Power2(2) && Power2(2) == 2 * Power2(1) && Power2(1) == 2;
    PowerSum(8, 8);
    PowerSum(16, 16);
  }

  lemma {:induction false} PowerSum(a: nat, b: nat)
    ensures Power2(a + b) == Power2(a) * Power2(b)
  {
    if a == 0 {
    } else {
      PowerSum(a - 1, b);
      assert Power2(a + b) == 2 * (Power2(a - 1) * Power2(b)) == Power2(a) * Power2(b);
    }
  }

  function XorByte(a: byte, mask: byte): (x: byte) {
    Powers();
    XorFits(a, mask, 8);
    Xor(a, mask)
  }

  /** Byte by byte, as far as both strings go. */
  function XorBytes(bytes: seq<byte>, mask: seq<byte>): (out: seq<byte>)
    ensures |out| == Min(|bytes|, |mask|)
  {
    seq(Min(|bytes|, |mask|), i requires 0 <= i < Min(|bytes|, |mask|) => XorByte(bytes[i], mask[i]))
  }

  lemma XorBytesTwice(bytes: seq<byte>, mask: seq<byte>)
    requires |bytes| <= |mask|
    ensures XorBytes(XorBytes(bytes, mask), mask) == bytes
  {
    forall i | 0 <= i < |bytes|
      ensures XorBytes(XorBytes(bytes, mask), mask)[i] == bytes[i]
    {
      XorTwice(bytes[i], mask[i]);
    }
  }
}
