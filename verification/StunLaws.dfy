/**
 * What STUN messages look like on the wire, octet by octet (RFC 8489), and which octets
 * the parsers of crates/cloudflare-stun/src/lib.rs take or refuse.
 */
module StunLaws {
  import opened Base
  import opened Bytes
  import opened StunXor
  import opened StunAttributes
  import opened Stun
  import Utf8

  /** Two octets against two, and four against four. */
  lemma XorTwo(a: byte, b: byte, c: byte, d: byte)
    ensures Xor(FromBe([a, b]), FromBe([c, d])) == Xor(a, c) * 0x100 + Xor(b, d)
  {
    hide Xor, FromBe, Power2;
    Powers();
    FromTwo(a, b);
    FromTwo(c, d);
    XorSplit(8, 0x100, a, c, b, d);
  }

  lemma XorFour(a: byte, b: byte, c: byte, d: byte, p: byte, q: byte, r: byte, s: byte)
    ensures Xor(FromBe([a, b, c, d]), FromBe([p, q, r, s]))
         == (Xor(a, p) * 0x100 + Xor(b, q)) * 0x1_0000 + (Xor(c, r) * 0x100 + Xor(d, s))
  {
    hide Xor, FromBe;
    FromPairs(a, b, c, d);
    FromPairs(p, q, r, s);
    SplitInTwo(FromBe([a, b]), FromBe([p, q]), FromBe([c, d]), FromBe([r, s]));
    XorTwo(a, b, p, q);
    XorTwo(c, d, r, s);
  }

  lemma FromPairs(a: byte, b: byte, c: byte, d: byte)
    ensures FromBe([a, b, c, d]) == FromBe([a, b]) * 0x1_0000 + FromBe([c, d])
    ensures FromBe([c, d]) < 0x1_0000
  {
    hide FromBe;
    FromFour(a, b, c, d);
    FromTwo(a, b);
    FromTwo(c, d);
  }

  lemma SplitInTwo(a: nat, b: nat, x: nat, y: nat)
    requires x < 0x1_0000 && y < 0x1_0000
    ensures Xor(a * 0x1_0000 + x, b * 0x1_0000 + y) == Xor(a, b) * 0x1_0000 + Xor(x, y)
  {
    hide Xor;
    Powers();
    XorSplit(16, 0x1_0000, a, b, x, y);
  }

  /** An octet in halves. */
  lemma XorHalves(h: nat, l: nat, i: nat, m: nat)
    requires l < 16 && m < 16
    ensures Xor(h * 16 + l, i * 16 + m) == Xor(h, i) * 16 + Xor(l, m)
  {
    hide Xor;
    assert Power2(4) == 2 * Power2(3) && Power2(3) == 2 * Power2(2) && Power2(2) == 2 * Power2(1);
    XorSplit(4, 16, h, i, l, m);
  }

  lemma SampleOctets()
    ensures Xor(0xa1, 0x21) == 0x80 && Xor(0x47, 0x12) == 0x55
    ensures Xor(0xe1, 0x21) == 0xc0 && Xor(0x12, 0x12) == 0x00 && Xor(0xa6, 0xa4) == 0x02 && Xor(0x43, 0x42) == 0x01
  {
    hide Xor;
    XorCrumbs();
    XorHalves(0xa, 0x1, 0x2, 0x1);
    XorHalves(0x4, 0x7, 0x1, 0x2);
    XorHalves(0xe, 0x1, 0x2, 0x1);
    XorHalves(0x1, 0x2, 0x1, 0x2);
    XorHalves(0xa, 0x6, 0xa, 0x4);
    XorHalves(0x4, 0x3, 0x4, 0x2);
    XorQuarter(2, 0, 2, 2);
    XorQuarter(0, 0, 1, 1);
    XorQuarter(1, 0, 0, 1);
    XorQuarter(1, 0, 3, 2);
    XorQuarter(3, 0, 2, 2);
    XorQuarter(0, 0, 2, 2);
    XorQuarter(2, 2, 2, 2);
    XorQuarter(1, 1, 2, 0);
    XorQuarter(1, 1, 0, 0);
    XorQuarter(0, 0, 3, 2);
  }

  // ---------------------------------------------------------------- sample values

  /** The value of a server's answer for 192.0.2.1 port 32853 (section 2.2 of RFC 5769). */
  lemma SampleV4(txn: seq<byte>)
    requires |txn| == 12
    ensures DecodeXorMapped([0x00, 0x01, 0xa1, 0x47, 0xe1, 0x12, 0xa6, 0x43], txn) == Some(V4(0xc000_0201, 32853))
  {
    hide Xor, FromBe;
    var value: seq<byte> := [0x00, 0x01, 0xa1, 0x47, 0xe1, 0x12, 0xa6, 0x43];
    assert value[2..4] == [0xa1, 0x47] && value[4..8] == [0xe1, 0x12, 0xa6, 0x43];
    FromTwo(0x21, 0x12);
    FromFour(0x21, 0x12, 0xa4, 0x42);
    XorTwo(0xa1, 0x47, 0x21, 0x12);
    XorFour(0xe1, 0x12, 0xa6, 0x43, 0x21, 0x12, 0xa4, 0x42);
    SampleOctets();
  }

  // ---------------------------------------------------------------- decoding, bit by bit

  /** The 16 octets a version 6 address is masked with: the cookie and the transaction. */
  function Mask(txn: seq<byte>): seq<byte> {
    [0x21, 0x12, 0xa4, 0x42] + txn
  }

  /** The bits of a decoded number are those of the transmitted one, turned over where the mask has a bit. */
  ghost predicate Unmasked(n: nat, sent: nat, mask: nat) {
    forall i: nat :: Bit(n, i) <==> Bit(sent, i) != Bit(mask, i)
  }

  lemma XorUnmasks(sent: nat, mask: nat)
    ensures Unmasked(Xor(sent, mask), sent, mask)
  {
    hide Xor, Bit;
    forall i: nat ensures Bit(Xor(sent, mask), i) <==> Bit(sent, i) != Bit(mask, i) {
      XorBits(sent, mask, i);
    }
  }

  /** A value is an address exactly if it has a known family in its second octet and the octets of that family. */
  lemma AddressIsDecoded(value: seq<byte>, txn: seq<byte>)
    requires |txn| == 12
    ensures DecodeXorMapped(value, txn).Some? <==>
      (|value| >= 8 && value[1] == 1) || (|value| >= 20 && value[1] == 2)
    ensures DecodeXorMapped(value, txn).Some? ==>
      Unmasked(DecodeXorMapped(value, txn).value.port, FromBe(value[2..4]), 0x2112)
    ensures |value| >= 8 && value[1] == 1 ==>
      && DecodeXorMapped(value, txn).value.V4?
      && Unmasked(DecodeXorMapped(value, txn).value.host, FromBe(value[4..8]), 0x2112_a442)
    ensures |value| >= 20 && value[1] == 2 ==>
      && DecodeXorMapped(value, txn).value.V6?
      && |DecodeXorMapped(value, txn).value.octets| == 16
      && forall k :: 0 <= k < 16 ==>
           Unmasked(DecodeXorMapped(value, txn).value.octets[k], value[4 + k], Mask(txn)[k])
  {
    hide Xor, Bit, FromBe, Unmasked;
    if |value| >= 4 {
      XorUnmasks(FromBe(value[2..4]), 0x2112);
    }
    if |value| >= 8 {
      XorUnmasks(FromBe(value[4..8]), 0x2112_a442);
    }
    if |value| >= 20 {
      forall k | 0 <= k < 16
        ensures Unmasked(XorBytes(value[4..20], Mask(txn))[k], value[4 + k], Mask(txn)[k])
      {
        XorUnmasks(value[4 + k], Mask(txn)[k]);
      }
    }
  }

  // ---------------------------------------------------------------- messages, octet by octet

  const COOKIE: seq<byte> := [0x21, 0x12, 0xa4, 0x42]

  lemma CookieOctets()
    ensures ToBe(4, 0x2112_a442) == COOKIE
  {
    ToFour(0x2112_a442);
  }

  /** A binding request is twenty octets. */
  lemma RequestOctets(txn: seq<byte>)
    requires |txn| == 12
    ensures EncodeBindingRequest(txn) == [0x00, 0x01, 0x00, 0x00] + COOKIE + txn
  {
    ToTwo(1);
    ToTwo(0);
    CookieOctets();
  }

  /** A success response: header, one attribute header, family, and the masked port and host. */
  lemma SuccessOctets(a: Address, txn: seq<byte>)
    requires ValidAddress(a) && |txn| == 12
    ensures var buf, n := EncodeBindingSuccess(a, txn), if a.V4? then 8 else 20;
      && |buf| == 24 + n
      && buf[..24] == [0x01, 0x01, 0x00, 4 + n] + COOKIE + txn + [0x00, 0x20, 0x00, n]
      && buf[24..26] == [0x00, if a.V4? then 1 else 2]
      && Unmasked(FromBe(buf[26..28]), a.port, 0x2112)
      && (a.V4? ==> Unmasked(FromBe(buf[28..32]), a.host, 0x2112_a442))
      && (a.V6? ==> forall k :: 0 <= k < 16 ==> Unmasked(buf[28 + k], a.octets[k], Mask(txn)[k]))
  {
    hide FromBe, Unmasked, MappedValue, EncodeBindingSuccess;
    var n := if a.V4? then 8 else 20;
    ValueOctets(a, txn);
    SuccessHead(a, txn, n);
    Behind([0x01, 0x01, 0x00, 4 + n] + COOKIE + txn + [0x00, 0x20, 0x00, n], MappedValue(a, txn));
  }

  lemma SuccessHead(a: Address, txn: seq<byte>, n: byte)
    requires ValidAddress(a) && |txn| == 12 && |MappedValue(a, txn)| == n && n < 100
    ensures EncodeBindingSuccess(a, txn)
         == [0x01, 0x01, 0x00, 4 + n] + COOKIE + txn + [0x00, 0x20, 0x00, n] + MappedValue(a, txn)
  {
    hide ToBe, MappedValue, Header;
    HeadOctets(0x0101, 4 + n, txn);
    ToTwo(0x0020);
    ToTwo(n);
    var head := [0x01, 0x01, 0x00, 4 + n] + COOKIE + txn;
    Associates(head, [0x00, 0x20], [0x00, n]);
    assert [0x00, 0x20] + [0x00, n] == [0x00, 0x20, 0x00, n];
  }

  lemma Behind(head: seq<byte>, value: seq<byte>)
    requires |head| == 24
    ensures (head + value)[..24] == head
    ensures forall i, j :: 0 <= i <= j <= |value| ==> (head + value)[24 + i..24 + j] == value[i..j]
    ensures forall i :: 0 <= i < |value| ==> (head + value)[24 + i] == value[i]
  {
  }

  lemma ValueOctets(a: Address, txn: seq<byte>)
    requires ValidAddress(a) && |txn| == 12
    ensures var value := MappedValue(a, txn);
      && |value| == (if a.V4? then 8 else 20)
      && value[..2] == [0x00, if a.V4? then 1 else 2]
      && Unmasked(FromBe(value[2..4]), a.port, 0x2112)
      && (a.V4? ==> Unmasked(FromBe(value[4..8]), a.host, 0x2112_a442))
      && (a.V6? ==> forall k :: 0 <= k < 16 ==> Unmasked(value[4 + k], a.octets[k], Mask(txn)[k]))
  {
    hide Xor, ToBe, FromBe, Unmasked, XorByte;
    PortIsMasked(a.port);
    assert MappedValue(a, txn)[2..4] == ToBe(2, Xor(a.port, 0x2112));
    match a
    case V4(host, port) =>
      HostIsMasked(host);
      assert MappedValue(a, txn)[4..8] == ToBe(4, Xor(host, 0x2112_a442));
    case V6(octets, port) =>
      forall k | 0 <= k < 16
        ensures Unmasked(MappedValue(a, txn)[4 + k], octets[k], Mask(txn)[k])
      {
        OctetIsMasked(octets[k], Mask(txn)[k]);
      }
  }

  lemma PortIsMasked(x: nat)
    requires x < U16
    ensures Unmasked(FromBe(ToBe(2, Xor(x, 0x2112))), x, 0x2112)
  {
    hide Xor, ToBe, FromBe, Unmasked;
    Spans();
    Powers();
    XorFits(x, 0x2112, 16);
    XorUnmasks(x, 0x2112);
    FromToBeExact(2, Xor(x, 0x2112));
  }

  lemma HostIsMasked(x: nat)
    requires x < U32
    ensures Unmasked(FromBe(ToBe(4, Xor(x, 0x2112_a442))), x, 0x2112_a442)
  {
    hide Xor, ToBe, FromBe, Unmasked;
    Spans();
    Powers();
    XorFits(x, 0x2112_a442, 32);
    XorUnmasks(x, 0x2112_a442);
    FromToBeExact(4, Xor(x, 0x2112_a442));
  }

  lemma OctetIsMasked(x: byte, mask: byte)
    ensures Unmasked(XorByte(x, mask), x, mask)
  {
    hide Xor, Unmasked;
    XorUnmasks(x, mask);
  }

  /** An error response that fits its length field: header, attribute header, class and number, phrase, padding. */
  lemma ErrorOctets(code: nat, reason: Utf8.Text, txn: seq<byte>)
    requires code < U16 && |txn| == 12 && FitsLength(Utf8.Encode(reason))
    ensures var phrase := Utf8.Encode(reason);
      var pad := (4 - |phrase| % 4) % 4;
      var zeros := seq(pad, i => 0 as byte);
      var n, length := 4 + |phrase|, 8 + |phrase| + pad;
      && length % 4 == 0
      && EncodeBindingError(code, reason, txn)
         == [0x01, 0x11, length / 0x100, length % 0x100] + COOKIE + txn
            + [0x00, 0x09, n / 0x100, n % 0x100] + ([0, 0, code / 100 % 8, code % 100] + phrase + zeros)
  {
    hide Header, ErrorBody, Utf8.Encode, EncodeBindingError, RoundUp4, FitsLength;
    var phrase := Utf8.Encode(reason);
    var pad := (4 - |phrase| % 4) % 4;
    var zeros, n, length := seq(pad, i => 0 as byte), 4 + |phrase|, 8 + |phrase| + pad;
    PaddedLength(phrase, pad);
    ErrorSplits(code, reason, txn);
    HeadOctets(0x0111, length, txn);
    BodyOctets(code, phrase, pad);
    Associates([0x01, 0x11, length / 0x100, length % 0x100] + COOKIE + txn, [0x00, 0x09, n / 0x100, n % 0x100],
               [0, 0, code / 100 % 8, code % 100] + phrase + zeros);
  }

  lemma PaddedLength(phrase: seq<byte>, pad: nat)
    requires pad == (4 - |phrase| % 4) % 4
    ensures 4 + RoundUp4(4 + |phrase|) == 8 + |phrase| + pad && (8 + |phrase| + pad) % 4 == 0
    ensures FitsLength(phrase) <==> 8 + |phrase| + pad < U16
  {
  }

  lemma HeadOctets(kind: nat, length: nat, txn: seq<byte>)
    requires kind < U16 && length < U16
    ensures Header(kind, length, txn) == [kind / 0x100, kind % 0x100, length / 0x100, length % 0x100] + COOKIE + txn
  {
    hide ToBe;
    ToTwo(kind);
    ToTwo(length);
    CookieOctets();
  }

  lemma BodyOctets(code: nat, phrase: seq<byte>, pad: nat)
    requires FitsLength(phrase) && pad == (4 - |phrase| % 4) % 4
    ensures var n := 4 + |phrase|;
      ErrorBody(code, phrase) == [0x00, 0x09, n / 0x100, n % 0x100]
        + ([0, 0, code / 100 % 8, code % 100] + phrase + seq(pad, i => 0 as byte))
  {
    hide ToBe;
    PaddedLength(phrase, pad);
    ToTwo(0x0009);
    ToTwo(4 + |phrase|);
    ClassBits(code / 100);
    assert pad == Padding(4 + |phrase|);
    assert Zeros(pad) == seq(pad, i => 0 as byte);
  }

  // ---------------------------------------------------------------- what the parsers take

  /** The first two octets, the cookie octets and the transaction octets of a message. */
  predicate Starts(buf: seq<byte>, high: byte, low: byte)
  {
    |buf| >= 20 && buf[0] == high && buf[1] == low
  }

  predicate HasCookie(buf: seq<byte>) {
    |buf| >= 20 && buf[4..8] == COOKIE
  }

  lemma HeaderOctets(buf: seq<byte>)
    requires |buf| >= 20
    ensures Kind(buf) == buf[0] as int * 0x100 + buf[1] as int
    ensures Length(buf) == buf[2] as int * 0x100 + buf[3] as int
    ensures Cookie(buf) == 0x2112_a442 <==> HasCookie(buf)
  {
    hide FromBe;
    assert buf[0..2] == [buf[0], buf[1]] && buf[2..4] == [buf[2], buf[3]];
    assert buf[4..8] == [buf[4], buf[5], buf[6], buf[7]];
    FromTwo(buf[0], buf[1]);
    FromTwo(buf[2], buf[3]);
    FromFour(buf[4], buf[5], buf[6], buf[7]);
  }

  /** The part of a message that its stated length covers. */
  function Stated(buf: seq<byte>): seq<byte>
    requires |buf| >= 20 && 20 + (buf[2] as int * 0x100 + buf[3] as int) <= |buf|
  {
    buf[20..20 + (buf[2] as int * 0x100 + buf[3] as int)]
  }

  predicate IsStated(buf: seq<byte>) {
    |buf| >= 20 && 20 + (buf[2] as int * 0x100 + buf[3] as int) <= |buf|
  }

  /** A binding request is taken exactly by its first two octets and its cookie. */
  lemma RequestsTaken(buf: seq<byte>, txn: seq<byte>)
    ensures ParseBindingRequest(buf) == Ok(txn) <==>
      Starts(buf, 0x00, 0x01) && HasCookie(buf) && txn == buf[8..20]
  {
    if |buf| >= 20 {
      HeaderOctets(buf);
    }
  }

  /** What decides about a response, check by check. */
  lemma ResponsesJudged(buf: seq<byte>, txn: seq<byte>)
    requires |txn| == 12 && Sliceable(buf, txn)
    ensures var r := BindingResponse(buf, txn);
      var known := Starts(buf, 0x01, 0x01) || Starts(buf, 0x01, 0x11);
      && (r == Err(TooShort) <==> |buf| < 20)
      && (r == Err(NotStun) <==> |buf| >= 20 && buf[0] >= 64)
      && (r == Err(UnexpectedType) <==> |buf| >= 20 && buf[0] < 64 && !known)
      && (r == Err(CookieMismatch) <==> known && !HasCookie(buf))
      && (r == Err(TransactionMismatch) <==> known && HasCookie(buf) && buf[8..20] != txn)
  {
    if |buf| >= 20 {
      HeaderOctets(buf);
    }
    hide Attributes, MappedAddress, ErrorCode, FromBe;
  }

  /** What comes of a response that belongs to the transaction. */
  lemma ResponsesTaken(buf: seq<byte>, txn: seq<byte>)
    requires |txn| == 12 && Sliceable(buf, txn) && HasCookie(buf) && buf[8..20] == txn
    ensures Starts(buf, 0x01, 0x01) ==>
      && IsStated(buf)
      && BindingResponse(buf, txn) == (match MappedAddress(Attributes(Stated(buf)), txn)
                                       case None => Err(NoMappedAddress)
                                       case Some(a) => Ok(a))
    ensures Starts(buf, 0x01, 0x11) ==>
      && IsStated(buf)
      && BindingResponse(buf, txn) == (match ErrorCode(Attributes(Stated(buf)))
                                       case None => Err(NoErrorCode)
                                       case Some(e) => Err(ServerError(e)))
      && AuthenticatedError(buf, txn) == (match ErrorCode(Attributes(Stated(buf)))
                                          case None => Err(NoErrorCode)
                                          case Some(e) => Ok(e))
  {
    HeaderOctets(buf);
    hide Attributes, MappedAddress, ErrorCode, FromBe;
  }

  /** The value of an error: the class in the low three bits of the third octet, the number in the fourth. */
  lemma ErrorIsDecoded(value: seq<byte>)
    requires |value| >= 4
    ensures var e := DecodeErrorCode(value);
      e.code == value[2] as int % 8 * 100 + value[3] as int
      && exists before, after ::
           Utf8.AllWhite(before) && Utf8.AllWhite(after) && Utf8.Lossy(value[4..]) == before + e.reason + after
    ensures Utf8.Trimmed(DecodeErrorCode(value).reason)
  {
    Utf8.TrimSplits(Utf8.Lossy(value[4..]));
  }
}
