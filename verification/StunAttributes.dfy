/**
 * STUN attributes (section 14 of RFC 8489): type, length, value and padding to four
 * bytes, and the two loops of crates/cloudflare-stun/src/lib.rs that walk them.
 */
module StunAttributes {
  import opened Base
  import opened Bytes
  import opened StunXor
  import Utf8

  const MAGIC_COOKIE := 0x2112_a442
  const MAGIC_HIGH := 0x2112
  const ATTR_XOR_MAPPED_ADDRESS := 0x0020
  const ATTR_ERROR_CODE := 0x0009
  const ATTR_HEADER_LEN := 4

  /** A socket address; the version 4 host is the big-endian value of its four bytes. */
  datatype Address = V4(host: nat, port: nat) | V6(octets: seq<byte>, port: nat)

  predicate ValidAddress(a: Address) {
    && a.port < U16
    && (a.V4? ==> a.host < U32)
    && (a.V6? ==> |a.octets| == 16)
  }

  /** One parsed failure reason. */
  datatype StunError = StunError(code: nat, reason: Utf8.Text)

  // ---------------------------------------------------------------- layout

  /** One attribute as it lies in a message, with whatever bytes pad it. */
  datatype Attr = Attr(kind: nat, value: seq<byte>, pad: seq<byte>)

  predicate ValidAttr(a: Attr) {
    a.kind < U16 && |a.value| < U16
  }

  function Padding(length: nat): nat {
    (4 - length % 4) % 4
  }

  function AttrBytes(a: Attr): seq<byte> {
    ToBe(2, a.kind) + ToBe(2, |a.value|) + a.value + a.pad
  }

  function Layout(attrs: seq<Attr>): seq<byte> {
    if attrs == [] then [] else AttrBytes(attrs[0]) + Layout(attrs[1..])
  }

  /** Bytes in which no further attribute fits. */
  predicate Junk(bytes: seq<byte>) {
    |bytes| < ATTR_HEADER_LEN || |bytes| < ATTR_HEADER_LEN + FromBe(bytes[2..4])
  }

  /** Attributes padded to four bytes; the padding of the last may be cut short by the end. */
  predicate Laid(attrs: seq<Attr>, tail: seq<byte>) {
    && Junk(tail)
    && forall i :: 0 <= i < |attrs| ==>
         && ValidAttr(attrs[i])
         && |attrs[i].pad| <= Padding(|attrs[i].value|)
         && (i < |attrs| - 1 || tail != [] ==> |attrs[i].pad| == Padding(|attrs[i].value|))
  }

  /** `next_multiple_of(4)`. */
  function RoundUp4(n: nat): nat {
    n + Padding(n)
  }

  /** Where the walkers go on after the attribute at the front. */
  function Skip(bytes: seq<byte>): (n: nat)
    requires !Junk(bytes)
    ensures ATTR_HEADER_LEN <= n <= |bytes|
  {
    Min(RoundUp4(ATTR_HEADER_LEN + FromBe(bytes[2..4])), |bytes|)
  }

  /** The attribute at the front of a byte string. */
  function Front(bytes: seq<byte>): Attr
    requires !Junk(bytes)
  {
    var end := ATTR_HEADER_LEN + FromBe(bytes[2..4]);
    Attr(FromBe(bytes[..2]), bytes[ATTR_HEADER_LEN..end], bytes[end..Skip(bytes)])
  }

  /** The attributes of any byte string, in order. */
  function Attributes(bytes: seq<byte>): seq<Attr>
    decreases |bytes|
  {
    if Junk(bytes) then [] else [Front(bytes)] + Attributes(bytes[Skip(bytes)..])
  }

  /** What is left behind the last attribute. */
  function Leftover(bytes: seq<byte>): seq<byte>
    decreases |bytes|
  {
    if Junk(bytes) then bytes else Leftover(bytes[Skip(bytes)..])
  }

  lemma {:induction false} FromBeBound(bytes: seq<byte>)
    ensures FromBe(bytes) < Span(|bytes|)
  {
    if bytes == [] {
    } else {
      FromBeBound(bytes[..|bytes| - 1]);
    }
  }

  lemma {:induction false} ToFromBe(bytes: seq<byte>)
    ensures ToBe(|bytes|, FromBe(bytes)) == bytes
  {
    if bytes == [] {
    } else {
      var init, last := bytes[..|bytes| - 1], bytes[|bytes| - 1];
      ToFromBe(init);
      var x := FromBe(bytes);
      ModUnique(x, 256, FromBe(init), last);
      assert bytes == init + [last];
    }
  }

  lemma TwoBytes(bytes: seq<byte>)
    requires |bytes| == 2
    ensures FromBe(bytes) < U16 && ToBe(2, FromBe(bytes)) == bytes
  {
    Spans();
    FromBeBound(bytes);
    ToFromBe(bytes);
  }

  lemma FrontShape(bytes: seq<byte>)
    requires !Junk(bytes)
    ensures ValidAttr(Front(bytes))
    ensures |Front(bytes).pad| <= Padding(|Front(bytes).value|)
    ensures Skip(bytes) < |bytes| ==> |Front(bytes).pad| == Padding(|Front(bytes).value|)
  {
    TwoBytes(bytes[..2]);
    TwoBytes(bytes[2..4]);
    hide FromBe, ToBe;
  }

  lemma FrontBytes(bytes: seq<byte>)
    requires !Junk(bytes)
    ensures AttrBytes(Front(bytes)) == bytes[..Skip(bytes)]
  {
    hide FromBe, ToBe, Skip, RoundUp4;
    var end := ATTR_HEADER_LEN + FromBe(bytes[2..4]);
    TwoBytes(bytes[..2]);
    TwoBytes(bytes[2..4]);
    SkipBound(bytes);
    FourParts(bytes, end, Skip(bytes));
  }

  lemma SkipBound(bytes: seq<byte>)
    requires !Junk(bytes)
    ensures ATTR_HEADER_LEN + FromBe(bytes[2..4]) <= Skip(bytes)
  {
  }

  lemma FourParts(bytes: seq<byte>, end: nat, skip: nat)
    requires 4 <= end <= skip <= |bytes|
    ensures bytes[..2] + bytes[2..4] + bytes[4..end] + bytes[end..skip] == bytes[..skip]
  {
  }

  /** Every byte string is a list of attributes and a leftover too short for another. */
  lemma EveryStringIsLaid(bytes: seq<byte>)
    ensures Laid(Attributes(bytes), Leftover(bytes))
    ensures bytes == Layout(Attributes(bytes)) + Leftover(bytes)
  {
    AttributesAreLaid(bytes);
    AttributesCover(bytes);
  }

  lemma {:induction false} AttributesCover(bytes: seq<byte>)
    ensures bytes == Layout(Attributes(bytes)) + Leftover(bytes)
    decreases |bytes|
  {
    hide Attributes, Leftover, Layout, AttrBytes, Front, Skip, Junk;
    if Junk(bytes) {
      JunkCover(bytes);
    } else {
      var rest := bytes[Skip(bytes)..];
      AttributesCover(rest);
      FrontBytes(bytes);
      UnrollCover(bytes);
      LayoutCons(Front(bytes), Attributes(rest));
      Associates(bytes[..Skip(bytes)], Layout(Attributes(rest)), Leftover(rest));
      assert bytes == bytes[..Skip(bytes)] + rest;
    }
  }

  lemma JunkCover(bytes: seq<byte>)
    requires Junk(bytes)
    ensures bytes == Layout(Attributes(bytes)) + Leftover(bytes)
  {
    assert Layout(Attributes(bytes)) == [];
  }

  lemma UnrollCover(bytes: seq<byte>)
    requires !Junk(bytes)
    ensures Attributes(bytes) == [Front(bytes)] + Attributes(bytes[Skip(bytes)..])
    ensures Leftover(bytes) == Leftover(bytes[Skip(bytes)..])
  {
  }

  lemma LayoutCons(a: Attr, attrs: seq<Attr>)
    ensures Layout([a] + attrs) == AttrBytes(a) + Layout(attrs)
  {
    assert ([a] + attrs)[1..] == attrs;
  }

  lemma {:induction false} AttributesAreLaid(bytes: seq<byte>)
    ensures Laid(Attributes(bytes), Leftover(bytes))
    decreases |bytes|
  {
    if Junk(bytes) {
    } else {
      var rest := bytes[Skip(bytes)..];
      AttributesAreLaid(rest);
      FrontShape(bytes);
      NothingLaid();
      assert Attributes(bytes) == [Front(bytes)] + Attributes(rest);
      hide Front, Skip, Padding, Junk, ValidAttr, Attributes, Leftover;
    }
  }

  lemma NothingLaid()
    ensures Attributes([]) == [] && Leftover([]) == []
  {
  }

  lemma FrontOfAttr(a: Attr, rest: seq<byte>)
    requires ValidAttr(a) && |a.pad| <= Padding(|a.value|)
    requires rest != [] ==> |a.pad| == Padding(|a.value|)
    ensures !Junk(AttrBytes(a) + rest)
    ensures Front(AttrBytes(a) + rest) == a
    ensures (AttrBytes(a) + rest)[Skip(AttrBytes(a) + rest)..] == rest
  {
    var bytes := AttrBytes(a) + rest;
    var n := |a.value|;
    HeaderOfAttr(a, rest);
    hide ToBe, FromBe;
    ValueOfAttr(a, rest);
    assert Skip(bytes) == 4 + n + |a.pad| by {
      assert RoundUp4(4 + n) == 4 + n + Padding(n);
    }
  }

  lemma HeaderOfAttr(a: Attr, rest: seq<byte>)
    requires ValidAttr(a)
    ensures |AttrBytes(a)| == 4 + |a.value| + |a.pad|
    ensures FromBe((AttrBytes(a) + rest)[..2]) == a.kind
    ensures FromBe((AttrBytes(a) + rest)[2..4]) == |a.value|
  {
    var bytes := AttrBytes(a) + rest;
    assert bytes[..2] == ToBe(2, a.kind) && bytes[2..4] == ToBe(2, |a.value|);
    Spans();
    FromToBeExact(2, a.kind);
    FromToBeExact(2, |a.value|);
  }

  lemma ValueOfAttr(a: Attr, rest: seq<byte>)
    ensures var bytes, n, m := AttrBytes(a) + rest, |a.value|, |a.pad|;
      && |bytes| == 4 + n + m + |rest|
      && bytes[4..4 + n] == a.value && bytes[4 + n..4 + n + m] == a.pad && bytes[4 + n + m..] == rest
  {
  }

  /** Reading a laid-out list of attributes gives that list back, whatever bytes pad it. */
  lemma {:induction false} LayoutIsRead(attrs: seq<Attr>, tail: seq<byte>)
    requires Laid(attrs, tail)
    ensures Attributes(Layout(attrs) + tail) == attrs && Leftover(Layout(attrs) + tail) == tail
    decreases |attrs|
  {
    if attrs == [] {
      assert Layout(attrs) + tail == tail;
    } else {
      var rest := Layout(attrs[1..]) + tail;
      LayoutIsRead(attrs[1..], tail);
      assert Layout(attrs) + tail == AttrBytes(attrs[0]) + rest;
      if rest != [] && |attrs| == 1 {
        assert tail != [];
      }
      FrontOfAttr(attrs[0], rest);
    }
  }

  // ---------------------------------------------------------------- values

  function CookieBytes(): seq<byte> {
    [0x21, 0x12, 0xa4, 0x42]
  }

  /** The value of an XOR-MAPPED-ADDRESS attribute (section 14.2 of RFC 8489). */
  function DecodeXorMapped(value: seq<byte>, txn: seq<byte>): Option<Address>
    requires |txn| == 12
  {
    if |value| < 4 then None
    else
      var port := Xor(FromBe(value[2..4]), MAGIC_HIGH);
      if value[1] == 1 then
        if |value| < 8 then None else Some(V4(Xor(FromBe(value[4..8]), MAGIC_COOKIE), port))
      else if value[1] == 2 then
        if |value| < 20 then None else Some(V6(XorBytes(value[4..20], CookieBytes() + txn), port))
      else None
  }

  /** Masks the bytes of an array in place, as far as the mask goes. */
  method XorInPlace(octets: array<byte>, mask: seq<byte>)
    requires octets.Length <= |mask|
    modifies octets
    ensures octets[..] == XorBytes(old(octets[..]), mask)
  {
    for i := 0 to octets.Length
      invariant forall k :: 0 <= k < i ==> octets[k] == XorByte(old(octets[k]), mask[k])
      invariant forall k :: i <= k < octets.Length ==> octets[k] == old(octets[k])
    {
      octets[i] := XorByte(octets[i], mask[i]);
    }
  }

  method DecodeValue(value: seq<byte>, txn: seq<byte>) returns (r: Option<Address>)
    requires |txn| == 12
    ensures r == DecodeXorMapped(value, txn)
  {
    if |value| < 4 {
      return None;
    }
    var port := Xor(FromBe(value[2..4]), MAGIC_HIGH);
    match value[1] {
      case 1 =>
        if |value| < 8 {
          return None;
        }
        return Some(V4(Xor(FromBe(value[4..8]), MAGIC_COOKIE), port));
      case 2 =>
        if |value| < 20 {
          return None;
        }
        var octets := new byte[16](i requires 0 <= i < 16 => value[4 + i]);
        assert octets[..] == value[4..20];
        XorInPlace(octets, CookieBytes() + txn);
        return Some(V6(octets[..], port));
      case _ =>
        return None;
    }
  }

  /** The value of an ERROR-CODE attribute (section 14.8 of RFC 8489). */
  function DecodeErrorCode(value: seq<byte>): StunError
    requires |value| >= 4
  {
    StunError(value[2] as int % 8 * 100 + value[3] as int, Utf8.Trim(Utf8.Lossy(value[4..])))
  }

  // ---------------------------------------------------------------- the walkers

  predicate IsMapped(a: Attr) {
    a.kind == ATTR_XOR_MAPPED_ADDRESS
  }

  predicate IsErrorCode(a: Attr) {
    a.kind == ATTR_ERROR_CODE && |a.value| >= 4
  }

  /** Position i is the first attribute that satisfies the predicate. */
  predicate First(attrs: seq<Attr>, p: Attr -> bool, i: nat) {
    i < |attrs| && p(attrs[i]) && forall j :: 0 <= j < i ==> !p(attrs[j])
  }

  predicate Nowhere(attrs: seq<Attr>, p: Attr -> bool) {
    forall j :: 0 <= j < |attrs| ==> !p(attrs[j])
  }

  /** The address of the first XOR-MAPPED-ADDRESS attribute, decodable or not. */
  function MappedAddress(attrs: seq<Attr>, txn: seq<byte>): Option<Address>
    requires |txn| == 12
  {
    if attrs == [] then None
    else if IsMapped(attrs[0]) then DecodeXorMapped(attrs[0].value, txn)
    else MappedAddress(attrs[1..], txn)
  }

  /** The first ERROR-CODE attribute with at least four bytes. */
  function ErrorCode(attrs: seq<Attr>): Option<StunError> {
    if attrs == [] then None
    else if IsErrorCode(attrs[0]) then Some(DecodeErrorCode(attrs[0].value))
    else ErrorCode(attrs[1..])
  }

  lemma {:induction false} MappedAddressIsFirst(attrs: seq<Attr>, txn: seq<byte>)
    requires |txn| == 12
    ensures forall i: nat | First(attrs, IsMapped, i) ::
      MappedAddress(attrs, txn) == DecodeXorMapped(attrs[i].value, txn)
    ensures Nowhere(attrs, IsMapped) ==> MappedAddress(attrs, txn).None?
  {
    if attrs == [] || IsMapped(attrs[0]) {
    } else {
      MappedAddressIsFirst(attrs[1..], txn);
      forall i: nat | First(attrs, IsMapped, i)
        ensures MappedAddress(attrs, txn) == DecodeXorMapped(attrs[i].value, txn)
      {
        assert First(attrs[1..], IsMapped, i - 1);
      }
    }
  }

  lemma {:induction false} ErrorCodeIsFirst(attrs: seq<Attr>)
    ensures forall i: nat | First(attrs, IsErrorCode, i) :: ErrorCode(attrs) == Some(DecodeErrorCode(attrs[i].value))
    ensures ErrorCode(attrs).None? <==> Nowhere(attrs, IsErrorCode)
  {
    if attrs == [] || IsErrorCode(attrs[0]) {
    } else {
      ErrorCodeIsFirst(attrs[1..]);
      forall i: nat | First(attrs, IsErrorCode, i)
        ensures ErrorCode(attrs) == Some(DecodeErrorCode(attrs[i].value))
      {
        assert First(attrs[1..], IsErrorCode, i - 1);
      }
      assert Nowhere(attrs, IsErrorCode) <==> Nowhere(attrs[1..], IsErrorCode) by {
        assert forall j :: 0 <= j < |attrs| - 1 ==> attrs[1..][j] == attrs[j + 1];
        assert forall j :: 0 < j < |attrs| ==> attrs[1..][j - 1] == attrs[j];
      }
    }
  }

  /** Walks to the first XOR-MAPPED-ADDRESS attribute of any byte string. */
  method ParseXorMappedAddress(bytes: seq<byte>, txn: seq<byte>) returns (r: Option<Address>)
    requires |txn| == 12
    ensures r == MappedAddress(Attributes(bytes), txn)
  {
    var attrs := bytes;
    while true
      invariant MappedAddress(Attributes(attrs), txn) == MappedAddress(Attributes(bytes), txn)
      decreases |attrs|
    {
      if |attrs| < ATTR_HEADER_LEN {
        return None;
      }
      var kind := FromBe(attrs[0..2]);
      var end := ATTR_HEADER_LEN + FromBe(attrs[2..4]);
      if |attrs| < end {
        return None;
      }
      if kind == ATTR_XOR_MAPPED_ADDRESS {
        r := DecodeValue(attrs[ATTR_HEADER_LEN..end], txn);
        return;
      }
      attrs := attrs[Min(RoundUp4(end), |attrs|)..];
    }
  }

  /** Walks to the first ERROR-CODE attribute long enough to hold a code. */
  method ParseErrorCode(bytes: seq<byte>) returns (r: Option<StunError>)
    ensures r == ErrorCode(Attributes(bytes))
  {
    var attrs := bytes;
    while true
      invariant ErrorCode(Attributes(attrs)) == ErrorCode(Attributes(bytes))
      decreases |attrs|
    {
      if |attrs| < ATTR_HEADER_LEN {
        return None;
      }
      var kind := FromBe(attrs[0..2]);
      var end := ATTR_HEADER_LEN + FromBe(attrs[2..4]);
      if |attrs| < end {
        return None;
      }
      var value := attrs[ATTR_HEADER_LEN..end];
      if kind == ATTR_ERROR_CODE && |value| >= 4 {
        var reason := Utf8.Trim(Utf8.Lossy(value[4..]));
        return Some(StunError(value[2] as int % 8 * 100 + value[3] as int, reason));
      }
      attrs := attrs[Min(RoundUp4(end), |attrs|)..];
    }
  }
}
