/** Which texts are public IPv4 addresses (infra/cloudflare/worker/public/peer-proof.js). */
module PublicAddress {
  import opened Base
  import opened Splitting

  /** The first address and the prefix length of every range that is not public. */
  const EXCLUDED: seq<(nat, nat)> := [
    (0x0000_0000, 8), (0x0a00_0000, 8), (0x7f00_0000, 8), (0xe000_0000, 3), (0x6440_0000, 10),
    (0xa9fe_0000, 16), (0xac10_0000, 12), (0xc0a8_0000, 16), (0xc000_0000, 24), (0xc000_0200, 24),
    (0xc612_0000, 15), (0xc633_6400, 24), (0xcb00_7100, 24)]

  predicate IsDigit(c: char) {
    '0' <= c <= '9'
  }

  /** One to three digits, leading zeros included. */
  predicate IsOctetText(part: string) {
    1 <= |part| <= 3 && forall i :: 0 <= i < |part| ==> IsDigit(part[i])
  }

  function Number(part: string): nat
    requires forall i :: 0 <= i < |part| ==> IsDigit(part[i])
  {
    if part == [] then 0
    else
      assert IsDigit(part[|part| - 1]);
      Number(part[..|part| - 1]) * 10 + (part[|part| - 1] as int - '0' as int)
  }

  predicate Covers(range: (nat, nat), numeric: nat)
    requires range.1 <= 32
  {
    numeric / Power2(32 - range.1) == range.0 / Power2(32 - range.1)
  }

  predicate PublicV4(address: string) {
    var parts := Split(address, '.');
    && |parts| == 4
    && (forall k :: 0 <= k < 4 ==> IsOctetText(parts[k]))
    && (forall k :: 0 <= k < 4 ==> Number(parts[k]) <= 255)
    && var numeric := ((Number(parts[0]) * 256 + Number(parts[1])) * 256 + Number(parts[2])) * 256 + Number(parts[3]);
       forall i :: 0 <= i < |EXCLUDED| ==> !Covers(EXCLUDED[i], numeric)
  }

  // ---------------------------------------------------------------- in octets

  /** What is left when every excluded range is written in octets. */
  predicate Outside(a: nat, b: nat, c: nat, d: nat) {
    && a < 224 && a !in {0, 10, 127}
    && !(a == 100 && 64 <= b < 128)
    && !(a == 169 && b == 254)
    && !(a == 172 && 16 <= b < 32)
    && !(a == 192 && b == 168)
    && !(a == 192 && b == 0 && c in {0, 2})
    && !(a == 198 && (b in {18, 19} || (b == 51 && c == 100)))
    && !(a == 203 && b == 0 && c == 113)
  }

  predicate IsOctet(part: string) {
    IsOctetText(part) && Number(part) <= 255
  }

  lemma Powers()
    ensures Power2(8) == 0x100 && Power2(16) == 0x1_0000 && Power2(17) == 0x2_0000 && Power2(20) == 0x10_0000
    ensures Power2(22) == 0x40_0000 && Power2(24) == 0x100_0000 && Power2(29) == 0x2000_0000
  {
    assert Power2(4) == 2 * Power2(3) && Power2(3) == 2 * Power2(2) && Power2(2) == 2 * Power2(1);
    assert Power2(8) == 2 * Power2(7) && Power2(7) == 2 * Power2(6) && Power2(6) == 2 * Power2(5);
    assert Power2(12) == 2 * Power2(11) && Power2(11) == 2 * Power2(10) && Power2(10) == 2 * Power2(9);
    assert Power2(16) == 2 * Power2(15) && Power2(15) == 2 * Power2(14) && Power2(14) == 2 * Power2(13);
    assert Power2(20) == 2 * Power2(19) && Power2(19) == 2 * Power2(18) && Power2(18) == 2 * Power2(17);
    assert Power2(24) == 2 * Power2(23) && Power2(23) == 2 * Power2(22) && Power2(22) == 2 * Power2(21);
    assert Power2(28) == 2 * Power2(27) && Power2(27) == 2 * Power2(26) && Power2(26) == 2 * Power2(25);
  }

  /** The leading bits of an address, in octets. */
  lemma Leading(a: nat, b: nat, c: nat, d: nat)
    requires a < 256 && b < 256 && c < 256 && d < 256
    ensures var n := ((a * 256 + b) * 256 + c) * 256 + d;
      && n / 0x2000_0000 == a / 32 && n / 0x100_0000 == a && n / 0x40_0000 == a * 4 + b / 64
      && n / 0x10_0000 == a * 16 + b / 16 && n / 0x2_0000 == a * 128 + b / 2
      && n / 0x1_0000 == a * 256 + b && n / 0x100 == (a * 256 + b) * 256 + c
  {
  }

  lemma ExcludedInOctets(a: nat, b: nat, c: nat, d: nat)
    requires a < 256 && b < 256 && c < 256 && d < 256
    ensures var n := ((a * 256 + b) * 256 + c) * 256 + d;
      (forall i :: 0 <= i < |EXCLUDED| ==> !Covers(EXCLUDED[i], n)) <==> Outside(a, b, c, d)
  {
    var n := ((a * 256 + b) * 256 + c) * 256 + d;
    ShortPrefixes(a, b, c, d);
    LongPrefixes(a, b, c, d);
    hide Covers;
  }

  lemma CoversIn(range: (nat, nat), numeric: nat, size: nat)
    requires range.1 <= 32 && Power2(32 - range.1) == size
    ensures Covers(range, numeric) <==> numeric / size == range.0 / size
  {
  }

  lemma ShortPrefixes(a: nat, b: nat, c: nat, d: nat)
    requires a < 256 && b < 256 && c < 256 && d < 256
    ensures var n := ((a * 256 + b) * 256 + c) * 256 + d;
      && (Covers(EXCLUDED[0], n) <==> a == 0)
      && (Covers(EXCLUDED[1], n) <==> a == 10)
      && (Covers(EXCLUDED[2], n) <==> a == 127)
      && (Covers(EXCLUDED[3], n) <==> a >= 224)
      && (Covers(EXCLUDED[4], n) <==> a == 100 && 64 <= b < 128)
      && (Covers(EXCLUDED[6], n) <==> a == 172 && 16 <= b < 32)
      && (Covers(EXCLUDED[10], n) <==> a == 198 && b in {18, 19})
  {
    hide Power2, Covers;
    var n := ((a * 256 + b) * 256 + c) * 256 + d;
    Powers();
    Leading(a, b, c, d);
    CoversIn(EXCLUDED[0], n, 0x100_0000);
    CoversIn(EXCLUDED[1], n, 0x100_0000);
    CoversIn(EXCLUDED[2], n, 0x100_0000);
    CoversIn(EXCLUDED[3], n, 0x2000_0000);
    CoversIn(EXCLUDED[4], n, 0x40_0000);
    CoversIn(EXCLUDED[6], n, 0x10_0000);
    CoversIn(EXCLUDED[10], n, 0x2_0000);
  }

  lemma LongPrefixes(a: nat, b: nat, c: nat, d: nat)
    requires a < 256 && b < 256 && c < 256 && d < 256
    ensures var n := ((a * 256 + b) * 256 + c) * 256 + d;
      && (Covers(EXCLUDED[5], n) <==> a == 169 && b == 254)
      && (Covers(EXCLUDED[7], n) <==> a == 192 && b == 168)
      && (Covers(EXCLUDED[8], n) <==> a == 192 && b == 0 && c == 0)
      && (Covers(EXCLUDED[9], n) <==> a == 192 && b == 0 && c == 2)
      && (Covers(EXCLUDED[11], n) <==> a == 198 && b == 51 && c == 100)
      && (Covers(EXCLUDED[12], n) <==> a == 203 && b == 0 && c == 113)
  {
    hide Power2, Covers;
    var n := ((a * 256 + b) * 256 + c) * 256 + d;
    Powers();
    Leading(a, b, c, d);
    CoversIn(EXCLUDED[5], n, 0x1_0000);
    CoversIn(EXCLUDED[7], n, 0x1_0000);
    CoversIn(EXCLUDED[8], n, 0x100);
    CoversIn(EXCLUDED[9], n, 0x100);
    CoversIn(EXCLUDED[11], n, 0x100);
    CoversIn(EXCLUDED[12], n, 0x100);
  }

  /** Four octets outside every excluded range. */
  predicate PublicOctets(parts: seq<string>) {
    && |parts| == 4
    && (forall k :: 0 <= k < 4 ==> IsOctet(parts[k]))
    && Outside(Number(parts[0]), Number(parts[1]), Number(parts[2]), Number(parts[3]))
  }

  lemma PublicInOctets(address: string)
    ensures PublicV4(address) <==> PublicOctets(Split(address, '.'))
  {
    hide Covers, Outside, Number, Split;
    var parts := Split(address, '.');
    if |parts| == 4 && forall k :: 0 <= k < 4 ==> IsOctet(parts[k]) {
      ExcludedInOctets(Number(parts[0]), Number(parts[1]), Number(parts[2]), Number(parts[3]));
    }
  }

  lemma OctetHasNoDot(part: string)
    requires IsOctet(part)
    ensures '.' !in part
  {
  }

  /** The text is four octets between dots, outside every range that is not public. */
  ghost predicate PublicQuad(address: string) {
    exists parts: seq<string> :: parts != [] && address == Join(parts, '.') && PublicOctets(parts)
  }

  /** An address is public exactly when it is four octets between dots, outside the excluded ranges. */
  lemma PublicMeansOutside(address: string)
    ensures PublicV4(address) <==> PublicQuad(address)
  {
    hide Outside, Number, Split, Join, PublicV4, IsOctet;
    PublicInOctets(address);
    JoinSplit(address, '.');
    forall parts: seq<string> | parts != [] && address == Join(parts, '.') && PublicOctets(parts)
      ensures parts == Split(address, '.')
    {
      forall k | 0 <= k < |parts| ensures '.' !in parts[k] {
        OctetHasNoDot(parts[k]);
      }
      SplitJoin(parts, '.');
    }
  }

  // ---------------------------------------------------------------- numbers

  /** The number of one, two or three digits. */
  lemma NumberOfDigits(a: char, b: char, c: char)
    requires IsDigit(a) && IsDigit(b) && IsDigit(c)
    ensures Number([a]) == a as int - '0' as int
    ensures Number([a, b]) == 10 * (a as int - '0' as int) + (b as int - '0' as int)
    ensures Number([a, b, c])
         == 100 * (a as int - '0' as int) + 10 * (b as int - '0' as int) + (c as int - '0' as int)
  {
    assert [a][..0] == [] && [a, b][..1] == [a] && [a, b, c][..2] == [a, b];
  }
}
