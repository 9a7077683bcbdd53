/** STUN messages (crates/cloudflare-stun/src/lib.rs, a subset of RFC 8489). */
module Stun {
  import opened Base
  import opened Bytes
  import opened StunXor
  import opened StunAttributes
  import Utf8

  const BINDING_REQUEST := 0x0001
  const BINDING_SUCCESS := 0x0101
  const BINDING_ERROR := 0x0111
  const HEADER_LEN := 20

  datatype Failure =
    | TooShort
    | NotStun
    | UnexpectedType
    | CookieMismatch
    | TransactionMismatch
    | NoErrorCode
    | NoMappedAddress
    | ServerError(error: StunError)

  // ---------------------------------------------------------------- header fields

  function Kind(buf: seq<byte>): nat
    requires |buf| >= HEADER_LEN
  {
    FromBe(buf[0..2])
  }

  function Length(buf: seq<byte>): nat
    requires |buf| >= HEADER_LEN
  {
    FromBe(buf[2..4])
  }

  function Cookie(buf: seq<byte>): nat
    requires |buf| >= HEADER_LEN
  {
    FromBe(buf[4..8])
  }

  function Transaction(buf: seq<byte>): (txn: seq<byte>)
    requires |buf| >= HEADER_LEN
    ensures |txn| == 12
  {
    buf[8..20]
  }

  /** The top two bits of a STUN message are zero (section 5 of RFC 8489). */
  predicate IsStunPacket(buf: seq<byte>) {
    |buf| >= HEADER_LEN && buf[0] < 0x40
  }

  function Header(kind: nat, length: nat, txn: seq<byte>): seq<byte> {
    ToBe(2, kind) + ToBe(2, length) + ToBe(4, MAGIC_COOKIE) + txn
  }

  // ---------------------------------------------------------------- encoding

  /** `as u16`. */
  function Narrow16(n: nat): (x: nat)
    ensures x < U16 && x <= n
    ensures n < U16 ==> x == n
    ensures n >= U16 ==> x + U16 <= n
  {
    n % 0x1_0000
  }

  function EncodeBindingRequest(txn: seq<byte>): seq<byte> {
    Header(BINDING_REQUEST, 0, txn)
  }

  /** The XOR-MAPPED-ADDRESS value of an address. */
  function MappedValue(a: Address, txn: seq<byte>): seq<byte>
    requires ValidAddress(a) && |txn| == 12
  {
    match a
    case V4(host, port) => [0, 1] + ToBe(2, Xor(port, MAGIC_HIGH)) + ToBe(4, Xor(host, MAGIC_COOKIE))
    case V6(octets, port) => [0, 2] + ToBe(2, Xor(port, MAGIC_HIGH)) + XorBytes(octets, CookieBytes() + txn)
  }

  function EncodeBindingSuccess(a: Address, txn: seq<byte>): seq<byte>
    requires ValidAddress(a) && |txn| == 12
  {
    var value := MappedValue(a, txn);
    Header(BINDING_SUCCESS, Narrow16(ATTR_HEADER_LEN + |value|), txn)
    + ToBe(2, ATTR_XOR_MAPPED_ADDRESS) + ToBe(2, Narrow16(|value|)) + value
  }

  function Zeros(n: nat): (bytes: seq<byte>)
    ensures |bytes| == n
  {
    seq(n, i => 0)
  }

  /** The ERROR-CODE value: the class is narrowed to a byte and then to its low three bits. */
  function ErrorValue(code: nat, phrase: seq<byte>): seq<byte> {
    [0, 0, code / 100 % 256 % 8, code % 100] + phrase
  }

  function EncodeBindingError(code: nat, reason: Utf8.Text, txn: seq<byte>): seq<byte>
    requires code < U16 && |txn| == 12
  {
    var value := ErrorValue(code, Utf8.Encode(reason));
    var padded := value + Zeros(Padding(|value|));
    Header(BINDING_ERROR, Narrow16(ATTR_HEADER_LEN + |padded|), txn)
    + ToBe(2, ATTR_ERROR_CODE) + ToBe(2, Narrow16(|value|)) + padded
  }

  /** Masking a version 6 address while appending it to a value. */
  method AppendMasked(value: seq<byte>, octets: seq<byte>, mask: seq<byte>) returns (out: seq<byte>)
    ensures out == value + XorBytes(octets, mask)
  {
    out := value;
    var n := Min(|octets|, |mask|);
    for i := 0 to n
      invariant |out| == |value| + i && out[..|value|] == value
      invariant forall k :: 0 <= k < i ==> out[|value| + k] == XorByte(octets[k], mask[k])
    {
      out := out + [XorByte(octets[i], mask[i])];
    }
  }

  /** Builds a success response piece by piece. */
  method BuildBindingSuccess(a: Address, txn: seq<byte>) returns (buf: seq<byte>)
    requires ValidAddress(a) && |txn| == 12
    ensures buf == EncodeBindingSuccess(a, txn)
  {
    var value: seq<byte>;
    match a {
      case V4(host, port) =>
        value := [0, 1];
        value := value + ToBe(2, Xor(port, MAGIC_HIGH));
        value := value + ToBe(4, Xor(host, MAGIC_COOKIE));
      case V6(octets, port) =>
        value := [0, 2];
        value := value + ToBe(2, Xor(port, MAGIC_HIGH));
        value := AppendMasked(value, octets, CookieBytes() + txn);
    }
    buf := Header(BINDING_SUCCESS, Narrow16(ATTR_HEADER_LEN + |value|), txn);
    buf := buf + ToBe(2, ATTR_XOR_MAPPED_ADDRESS);
    buf := buf + ToBe(2, Narrow16(|value|));
    buf := buf + value;
  }

  // ---------------------------------------------------------------- parsing

  function ParseBindingRequest(buf: seq<byte>): Result<seq<byte>, Failure> {
    if |buf| < HEADER_LEN then Err(TooShort)
    else if !IsStunPacket(buf) then Err(NotStun)
    else if Kind(buf) != BINDING_REQUEST then Err(UnexpectedType)
    else if Cookie(buf) != MAGIC_COOKIE then Err(CookieMismatch)
    else Ok(Transaction(buf))
  }

  /** The header checks of a response that belongs to our transaction. */
  predicate IsResponse(buf: seq<byte>, txn: seq<byte>) {
    && |buf| >= HEADER_LEN
    && Kind(buf) in {BINDING_SUCCESS, BINDING_ERROR}
    && Cookie(buf) == MAGIC_COOKIE
    && Transaction(buf) == txn
  }

  /** What the parsers rely on once they slice: the stated length is there. */
  predicate Sliceable(buf: seq<byte>, txn: seq<byte>) {
    IsResponse(buf, txn) ==> HEADER_LEN + Length(buf) <= |buf|
  }

  function Body(buf: seq<byte>): seq<byte>
    requires |buf| >= HEADER_LEN && HEADER_LEN + Length(buf) <= |buf|
  {
    buf[HEADER_LEN..HEADER_LEN + Length(buf)]
  }

  method ParseBindingResponse(buf: seq<byte>, txn: seq<byte>) returns (r: Result<Address, Failure>)
    requires |txn| == 12 && Sliceable(buf, txn)
    ensures r == BindingResponse(buf, txn)
  {
    if |buf| < HEADER_LEN {
      return Err(TooShort);
    }
    if !IsStunPacket(buf) {
      return Err(NotStun);
    }
    var kind := FromBe(buf[0..2]);
    var length := FromBe(buf[2..4]);
    if kind != BINDING_SUCCESS && kind != BINDING_ERROR {
      return Err(UnexpectedType);
    }
    if FromBe(buf[4..8]) != MAGIC_COOKIE {
      return Err(CookieMismatch);
    }
    if kind == BINDING_ERROR {
      if buf[8..20] != txn {
        return Err(TransactionMismatch);
      }
      var error := ParseErrorCode(buf[HEADER_LEN..HEADER_LEN + length]);
      return match error case None => Err(NoErrorCode) case Some(e) => Err(ServerError(e));
    }
    if buf[8..20] != txn {
      return Err(TransactionMismatch);
    }
    var address := ParseXorMappedAddress(buf[HEADER_LEN..HEADER_LEN + length], txn);
    return match address case None => Err(NoMappedAddress) case Some(a) => Ok(a);
  }

  method ParseAuthenticatedError(buf: seq<byte>, txn: seq<byte>) returns (r: Result<StunError, Failure>)
    requires |txn| == 12 && Sliceable(buf, txn)
    ensures r == AuthenticatedError(buf, txn)
  {
    if |buf| < HEADER_LEN {
      return Err(TooShort);
    }
    if FromBe(buf[0..2]) != BINDING_ERROR {
      return Err(UnexpectedType);
    }
    if FromBe(buf[4..8]) != MAGIC_COOKIE {
      return Err(CookieMismatch);
    }
    if buf[8..20] != txn {
      return Err(TransactionMismatch);
    }
    var error := ParseErrorCode(buf[HEADER_LEN..HEADER_LEN + FromBe(buf[2..4])]);
    return match error case None => Err(NoErrorCode) case Some(e) => Ok(e);
  }

  /** What a datagram is to a client waiting on the transaction. */
  function BindingResponse(buf: seq<byte>, txn: seq<byte>): Result<Address, Failure>
    requires |txn| == 12 && Sliceable(buf, txn)
  {
    if |buf| < HEADER_LEN then Err(TooShort)
    else if !IsStunPacket(buf) then Err(NotStun)
    else if Kind(buf) !in {BINDING_SUCCESS, BINDING_ERROR} then Err(UnexpectedType)
    else if Cookie(buf) != MAGIC_COOKIE then Err(CookieMismatch)
    else if Transaction(buf) != txn then Err(TransactionMismatch)
    else if Kind(buf) == BINDING_ERROR then
      match ErrorCode(Attributes(Body(buf))) case None => Err(NoErrorCode) case Some(e) => Err(ServerError(e))
    else
      match MappedAddress(Attributes(Body(buf)), txn) case None => Err(NoMappedAddress) case Some(a) => Ok(a)
  }

  function AuthenticatedError(buf: seq<byte>, txn: seq<byte>): Result<StunError, Failure>
    requires |txn| == 12 && Sliceable(buf, txn)
  {
    if |buf| < HEADER_LEN then Err(TooShort)
    else if Kind(buf) != BINDING_ERROR then Err(UnexpectedType)
    else if Cookie(buf) != MAGIC_COOKIE then Err(CookieMismatch)
    else if Transaction(buf) != txn then Err(TransactionMismatch)
    else match ErrorCode(Attributes(Body(buf))) case None => Err(NoErrorCode) case Some(e) => Ok(e)
  }

  /** A datagram is an explicit rejection exactly when the response parser reports one. */
  lemma RejectionIsOneThing(buf: seq<byte>, txn: seq<byte>, e: StunError)
    requires |txn| == 12 && Sliceable(buf, txn)
    ensures AuthenticatedError(buf, txn) == Ok(e) <==> BindingResponse(buf, txn) == Err(ServerError(e))
  {
    if |buf| >= HEADER_LEN && Kind(buf) == BINDING_ERROR {
      TopBits(buf);
    }
  }

  lemma TopBits(buf: seq<byte>)
    requires |buf| >= HEADER_LEN && Kind(buf) < 0x4000
    ensures buf[0] < 0x40
  {
    var two := buf[0..2];
    assert two[..1] == [buf[0]] && two == [buf[0], buf[1]];
    assert [buf[0]][..0] == [];
    assert FromBe([buf[0]]) == buf[0] as int;
    assert FromBe(two) == buf[0] as int * 256 + buf[1] as int;
  }

  // ---------------------------------------------------------------- round trips

  lemma HeaderIsRead(kind: nat, length: nat, txn: seq<byte>, body: seq<byte>)
    requires kind < U16 && length < U16 && |txn| == 12
    ensures var buf := Header(kind, length, txn) + body;
      && |buf| == HEADER_LEN + |body|
      && Kind(buf) == kind && Length(buf) == length && Cookie(buf) == MAGIC_COOKIE && Transaction(buf) == txn
      && (length <= |body| ==> buf[HEADER_LEN..HEADER_LEN + length] == body[..length])
  {
    var buf := Header(kind, length, txn) + body;
    Spans();
    FromToBeExact(2, kind);
    FromToBeExact(2, length);
    FromToBeExact(4, MAGIC_COOKIE);
    assert buf[0..2] == ToBe(2, kind) && buf[2..4] == ToBe(2, length) && buf[4..8] == ToBe(4, MAGIC_COOKIE);
  }

  lemma RequestRoundTrip(txn: seq<byte>)
    requires |txn| == 12
    ensures ParseBindingRequest(EncodeBindingRequest(txn)) == Ok(txn)
  {
    HeaderIsRead(BINDING_REQUEST, 0, txn, []);
    assert EncodeBindingRequest(txn) + [] == EncodeBindingRequest(txn);
    TopBits(EncodeBindingRequest(txn));
  }

  lemma ValueIsDecoded(a: Address, txn: seq<byte>)
    requires ValidAddress(a) && |txn| == 12
    ensures DecodeXorMapped(MappedValue(a, txn), txn) == Some(a)
    ensures |MappedValue(a, txn)| == if a.V4? then 8 else 20
  {
    hide Xor, XorBytes, ToBe, FromBe;
    var value := MappedValue(a, txn);
    Spans();
    Powers();
    XorFits(a.port, MAGIC_HIGH, 16);
    XorTwice(a.port, MAGIC_HIGH);
    FromToBeExact(2, Xor(a.port, MAGIC_HIGH));
    assert value[2..4] == ToBe(2, Xor(a.port, MAGIC_HIGH));
    match a
    case V4(host, port) =>
      XorFits(host, MAGIC_COOKIE, 32);
      XorTwice(host, MAGIC_COOKIE);
      FromToBeExact(4, Xor(host, MAGIC_COOKIE));
      assert value[4..8] == ToBe(4, Xor(host, MAGIC_COOKIE));
    case V6(octets, port) =>
      assert value[4..20] == XorBytes(octets, CookieBytes() + txn);
      XorBytesTwice(octets, CookieBytes() + txn);
  }

  function Message(kind: nat, a: Attr, txn: seq<byte>): seq<byte> {
    Header(kind, |AttrBytes(a)|, txn) + AttrBytes(a)
  }

  /** A message of one attribute that fills the stated length is read as that attribute. */
  lemma OneAttribute(kind: nat, a: Attr, txn: seq<byte>)
    requires kind in {BINDING_SUCCESS, BINDING_ERROR} && |txn| == 12
    requires ValidAttr(a) && |a.pad| == Padding(|a.value|) && |AttrBytes(a)| < U16
    ensures var buf := Message(kind, a, txn);
      && |buf| == HEADER_LEN + |AttrBytes(a)|
      && Kind(buf) == kind && HEADER_LEN + Length(buf) == |buf|
      && Cookie(buf) == MAGIC_COOKIE && Transaction(buf) == txn && IsStunPacket(buf)
      && Attributes(Body(buf)) == [a]
  {
    hide AttrBytes, Attributes, Header;
    var body := AttrBytes(a);
    HeaderIsRead(kind, |body|, txn, body);
    TopBits(Header(kind, |body|, txn) + body);
    assert body[..|body|] == body;
    SingleIsRead(a);
  }

  lemma SingleIsRead(a: Attr)
    requires ValidAttr(a) && |a.pad| == Padding(|a.value|)
    ensures Attributes(AttrBytes(a)) == [a]
  {
    hide AttrBytes, Attributes;
    LayoutCons(a, []);
    assert Layout([a]) == AttrBytes(a) + [] && [a] + [] == [a];
    assert Layout([a]) + [] == AttrBytes(a);
    LayoutIsRead([a], []);
  }

  /**
   * Parsing an encoded success response gives the address back, for every address of
   * either family, port and transaction; under any other transaction it is rejected.
   */
  lemma SuccessRoundTrip(a: Address, txn: seq<byte>, other: seq<byte>)
    requires ValidAddress(a) && |txn| == 12 && |other| == 12
    ensures var buf := EncodeBindingSuccess(a, txn);
      && Sliceable(buf, other)
      && BindingResponse(buf, other) == (if other == txn then Ok(a) else Err(TransactionMismatch))
      && |buf| == HEADER_LEN + Length(buf) && Length(buf) % 4 == 0
  {
    hide MappedAttr, EncodeBindingSuccess, Message, AttrBytes, Attributes, DecodeXorMapped, Padding, FromBe;
    var attr := MappedAttr(a, txn);
    SuccessIsOneAttribute(a, txn);
    OneAttribute(BINDING_SUCCESS, attr, txn);
    SuccessIsRead(Message(BINDING_SUCCESS, attr, txn), attr, a, txn, other);
  }

  function MappedAttr(a: Address, txn: seq<byte>): Attr
    requires ValidAddress(a) && |txn| == 12
  {
    Attr(ATTR_XOR_MAPPED_ADDRESS, MappedValue(a, txn), [])
  }

  lemma SuccessIsOneAttribute(a: Address, txn: seq<byte>)
    requires ValidAddress(a) && |txn| == 12
    ensures var attr := MappedAttr(a, txn);
      && EncodeBindingSuccess(a, txn) == Message(BINDING_SUCCESS, attr, txn)
      && ValidAttr(attr) && |attr.pad| == Padding(|attr.value|) && |AttrBytes(attr)| in {12, 24}
      && IsMapped(attr) && DecodeXorMapped(attr.value, txn) == Some(a)
  {
    hide ToBe, Header, MappedValue, DecodeXorMapped, AttrBytes, Narrow16;
    var value := MappedValue(a, txn);
    ValueIsDecoded(a, txn);
    AttrUnpadded(ATTR_XOR_MAPPED_ADDRESS, value);
    MessageSplits(Header(BINDING_SUCCESS, ATTR_HEADER_LEN + |value|, txn),
                  ToBe(2, ATTR_XOR_MAPPED_ADDRESS), ToBe(2, |value|), value);
  }

  lemma AttrUnpadded(kind: nat, value: seq<byte>)
    ensures AttrBytes(Attr(kind, value, [])) == ToBe(2, kind) + ToBe(2, |value|) + value
    ensures |AttrBytes(Attr(kind, value, []))| == ATTR_HEADER_LEN + |value|
  {
  }

  lemma SuccessIsRead(buf: seq<byte>, attr: Attr, a: Address, txn: seq<byte>, other: seq<byte>)
    requires |txn| == 12 && |other| == 12
    requires IsStunPacket(buf) && Kind(buf) == BINDING_SUCCESS && HEADER_LEN + Length(buf) == |buf|
    requires Cookie(buf) == MAGIC_COOKIE && Transaction(buf) == txn && Attributes(Body(buf)) == [attr]
    requires IsMapped(attr) && DecodeXorMapped(attr.value, txn) == Some(a)
    ensures Sliceable(buf, other)
    ensures BindingResponse(buf, other) == if other == txn then Ok(a) else Err(TransactionMismatch)
  {
  }

  lemma MessageSplits(header: seq<byte>, a: seq<byte>, b: seq<byte>, c: seq<byte>)
    ensures header + a + b + c == header + (a + b + c)
  {
  }

  /** The whole message fits its 16-bit length field. */
  predicate FitsLength(phrase: seq<byte>) {
    ATTR_HEADER_LEN + RoundUp4(4 + |phrase|) < U16
  }

  /** The attribute of an encoded error response, as it lies after the header. */
  function ErrorBody(code: nat, phrase: seq<byte>): seq<byte> {
    var value := ErrorValue(code, phrase);
    ToBe(2, ATTR_ERROR_CODE) + ToBe(2, Narrow16(|value|)) + (value + Zeros(Padding(|value|)))
  }

  lemma ErrorSplits(code: nat, reason: Utf8.Text, txn: seq<byte>)
    requires code < U16 && |txn| == 12
    ensures var body := ErrorBody(code, Utf8.Encode(reason));
      && |body| == ATTR_HEADER_LEN + RoundUp4(4 + |Utf8.Encode(reason)|)
      && EncodeBindingError(code, reason, txn) == Header(BINDING_ERROR, Narrow16(|body|), txn) + body
  {
    hide Header, Zeros, ToBe, Padding, Narrow16, Utf8.Encode;
    var value := ErrorValue(code, Utf8.Encode(reason));
    var padded := value + Zeros(Padding(|value|));
    assert |value| == 4 + |Utf8.Encode(reason)|;
    MessageSplits(Header(BINDING_ERROR, Narrow16(|ErrorBody(code, Utf8.Encode(reason))|), txn),
                  ToBe(2, ATTR_ERROR_CODE), ToBe(2, Narrow16(|value|)), padded);
  }

  /** The code a reader makes of an encoded one: the class has lost all but its low three bits. */
  function ReadCode(code: nat): nat {
    code / 100 % 8 * 100 + code % 100
  }

  /** An encoded error response whose length fits is read as its one ERROR-CODE attribute. */
  lemma ErrorMessageShape(code: nat, reason: Utf8.Text, txn: seq<byte>)
    requires code < U16 && |txn| == 12 && FitsLength(Utf8.Encode(reason))
    ensures var buf := EncodeBindingError(code, reason, txn);
      && IsResponse(buf, txn) && Sliceable(buf, txn) && IsStunPacket(buf)
      && Kind(buf) == BINDING_ERROR
      && ErrorCode(Attributes(Body(buf))) == Some(StunError(ReadCode(code), Utf8.Trim(reason)))
  {
    hide ErrorAttr, EncodeBindingError, Message, AttrBytes, Attributes, ErrorValue, Padding, FromBe;
    hide Utf8.Encode, Utf8.Lossy, Utf8.Trim;
    var attr := ErrorAttr(code, Utf8.Encode(reason));
    ErrorIsOneAttribute(code, reason, txn);
    OneAttribute(BINDING_ERROR, attr, txn);
    ErrorIsRead(Message(BINDING_ERROR, attr, txn), attr, code, reason, txn);
  }

  function ErrorAttr(code: nat, phrase: seq<byte>): Attr {
    var value := ErrorValue(code, phrase);
    Attr(ATTR_ERROR_CODE, value, Zeros(Padding(|value|)))
  }

  lemma ErrorIsOneAttribute(code: nat, reason: Utf8.Text, txn: seq<byte>)
    requires code < U16 && |txn| == 12 && FitsLength(Utf8.Encode(reason))
    ensures var attr := ErrorAttr(code, Utf8.Encode(reason));
      && EncodeBindingError(code, reason, txn) == Message(BINDING_ERROR, attr, txn)
      && ValidAttr(attr) && |attr.pad| == Padding(|attr.value|) && |AttrBytes(attr)| < U16
      && attr.value == ErrorValue(code, Utf8.Encode(reason))
      && attr.kind == ATTR_ERROR_CODE
  {
    var phrase := Utf8.Encode(reason);
    var value := ErrorValue(code, phrase);
    ErrorSplits(code, reason, txn);
    hide Zeros, Padding, ErrorValue, Utf8.Encode;
    assert AttrBytes(ErrorAttr(code, phrase)) == ErrorBody(code, phrase) by {
      Associates(ToBe(2, ATTR_ERROR_CODE) + ToBe(2, |value|), value, Zeros(Padding(|value|)));
    }
  }

  /** The value of an encoded error is decoded to its code and its trimmed reason. */
  lemma ErrorValueIsDecoded(code: nat, reason: Utf8.Text)
    requires code < U16
    ensures DecodeErrorCode(ErrorValue(code, Utf8.Encode(reason))) == StunError(ReadCode(code), Utf8.Trim(reason))
  {
    hide Utf8.Encode, Utf8.Lossy, Utf8.Trim;
    assert ErrorValue(code, Utf8.Encode(reason))[4..] == Utf8.Encode(reason);
    ClassBits(code / 100);
    Utf8.LossyEncode(reason);
  }

  lemma ClassBits(n: nat)
    ensures n % 256 % 8 == n % 8
  {
  }

  lemma ErrorIsRead(buf: seq<byte>, attr: Attr, code: nat, reason: Utf8.Text, txn: seq<byte>)
    requires |txn| == 12 && code < U16
    requires IsStunPacket(buf) && Kind(buf) == BINDING_ERROR && HEADER_LEN + Length(buf) == |buf|
    requires Cookie(buf) == MAGIC_COOKIE && Transaction(buf) == txn && Attributes(Body(buf)) == [attr]
    requires attr.value == ErrorValue(code, Utf8.Encode(reason)) && attr.kind == ATTR_ERROR_CODE
    ensures IsResponse(buf, txn) && Sliceable(buf, txn)
    ensures ErrorCode(Attributes(Body(buf))) == Some(StunError(ReadCode(code), Utf8.Trim(reason)))
  {
    ErrorValueIsDecoded(code, reason);
    hide Utf8.Encode, Utf8.Trim, DecodeErrorCode;
  }

  // ---------------------------------------------------------------- lengths that wrap

  /** What a prefix of at least four bytes shows of three pieces, the first two of two bytes each. */
  lemma FrontBytesOf(a: seq<byte>, b: seq<byte>, c: seq<byte>, n: nat)
    requires |a| == 2 && |b| == 2 && 4 <= n <= 4 + |c|
    ensures (a + b + c)[..n][..2] == a && (a + b + c)[..n][2..4] == b
    ensures forall k :: 4 <= k <= n ==> (a + b + c)[..n][4..k] == c[..k - 4]
  {
  }

  /** The attribute header of a wrapped message, and the part of its value that the stated lengths leave. */
  lemma WrappedFront(code: nat, phrase: seq<byte>)
    requires code < U16 && !FitsLength(phrase)
    ensures var body := ErrorBody(code, phrase);
      var bytes, length := body[..Narrow16(|body|)], Narrow16(4 + |phrase|);
      !Junk(bytes) ==>
        && length + U16 <= 4 + |phrase| && 4 + length <= |bytes|
        && FromBe(bytes[..2]) == ATTR_ERROR_CODE && FromBe(bytes[2..4]) == length
        && bytes[4..4 + length] == ErrorValue(code, phrase)[..length]
  {
    var value := ErrorValue(code, phrase);
    var body := ErrorBody(code, phrase);
    var bytes, length := body[..Narrow16(|body|)], Narrow16(|value|);
    var padded := value + Zeros(Padding(|value|));
    assert |value| == 4 + |phrase| && |body| == ATTR_HEADER_LEN + RoundUp4(|value|);
    hide Zeros, ErrorValue, ToBe, FromBe, Narrow16, Padding;
    assert body == ToBe(2, ATTR_ERROR_CODE) + ToBe(2, length) + padded;
    hide ErrorBody;
    if |bytes| >= 4 {
      FrontBytesOf(ToBe(2, ATTR_ERROR_CODE), ToBe(2, length), padded, |bytes|);
      Spans();
      FromToBeExact(2, ATTR_ERROR_CODE);
      FromToBeExact(2, length);
      if !Junk(bytes) {
        RoundsUp(|value|);
        assert length + U16 <= |value|;
        assert bytes[4..4 + length] == padded[..length] == value[..length];
      }
    }
  }

  /** A stated length too short for a code leaves nothing behind its attribute. */
  lemma ShortLengthEnds(n: nat)
    requires Narrow16(n) < 4
    ensures Narrow16(ATTR_HEADER_LEN + RoundUp4(n)) == RoundUp4(ATTR_HEADER_LEN + Narrow16(n))
  {
    var q, r := n / 0x1_0000, n % 0x1_0000;
    RoundShift(q, r);
    hide RoundUp4;
    RoundShort(r);
    ModUnique(ATTR_HEADER_LEN + RoundUp4(n), 0x1_0000, q, ATTR_HEADER_LEN + RoundUp4(r));
  }

  lemma RoundShift(q: nat, r: nat)
    ensures RoundUp4(q * 0x1_0000 + r) == q * 0x1_0000 + RoundUp4(r)
  {
    assert (q * 0x1_0000 + r) % 4 == r % 4;
  }

  lemma RoundShort(r: nat)
    requires r < 4
    ensures RoundUp4(r) <= 4 && ATTR_HEADER_LEN + RoundUp4(r) == RoundUp4(ATTR_HEADER_LEN + r)
  {
  }

  /** What is read from attributes whose first is an error code, or that hold none. */
  lemma FirstIsCode(bytes: seq<byte>)
    ensures Junk(bytes) ==> ErrorCode(Attributes(bytes)).None?
    ensures !Junk(bytes) && FromBe(bytes[..2]) == ATTR_ERROR_CODE && FromBe(bytes[2..4]) >= 4 ==>
              ErrorCode(Attributes(bytes)) == Some(DecodeErrorCode(bytes[4..4 + FromBe(bytes[2..4])]))
  {
    hide FromBe, DecodeErrorCode, Skip;
    if !Junk(bytes) {
      UnrollCover(bytes);
    }
  }

  /** A value cut inside its phrase is decoded to what is left of the phrase. */
  lemma CutValueIsDecoded(code: nat, phrase: seq<byte>, length: nat)
    requires code < U16 && 4 <= length <= 4 + |phrase|
    ensures 4 <= |ErrorValue(code, phrase)[..length]|
         && DecodeErrorCode(ErrorValue(code, phrase)[..length]).reason
         == Utf8.Trim(Utf8.Lossy(phrase[..length - 4]))
  {
    hide Utf8.Trim, Utf8.Lossy;
    assert ErrorValue(code, phrase)[..length][4..] == phrase[..length - 4];
  }

  /** Whatever a wrapped message is read as, its reason is read from a prefix of the phrase. */
  lemma WrappedReason(code: nat, phrase: seq<byte>, e: StunError)
    requires code < U16 && !FitsLength(phrase)
    requires var body := ErrorBody(code, phrase); ErrorCode(Attributes(body[..Narrow16(|body|)])) == Some(e)
    ensures exists n: nat :: n + 4 <= |phrase| && e.reason == Utf8.Trim(Utf8.Lossy(phrase[..n]))
  {
    hide Utf8.Lossy, Utf8.Trim, ErrorBody, ErrorValue, ErrorCode, DecodeErrorCode, Attributes, Junk, FromBe;
    var body := ErrorBody(code, phrase);
    var bytes, length := body[..Narrow16(|body|)], Narrow16(4 + |phrase|);
    WrappedFront(code, phrase);
    FirstIsCode(bytes);
    if length >= 4 {
      CutValueIsDecoded(code, phrase, length);
    } else {
      ShortLengthHoldsNone(code, phrase);
    }
  }

  /** An attribute too short for a code is the only one, so there is no code. */
  lemma ShortLengthHoldsNone(code: nat, phrase: seq<byte>)
    requires code < U16 && !FitsLength(phrase) && Narrow16(4 + |phrase|) < 4
    ensures var body := ErrorBody(code, phrase); ErrorCode(Attributes(body[..Narrow16(|body|)])).None?
  {
    var body := ErrorBody(code, phrase);
    var bytes := body[..Narrow16(|body|)];
    WrappedFront(code, phrase);
    assert |body| == ATTR_HEADER_LEN + RoundUp4(4 + |phrase|);
    hide ErrorBody, FromBe, Narrow16;
    if !Junk(bytes) {
      ShortLengthEnds(4 + |phrase|);
      assert bytes[Skip(bytes)..] == [];
      NothingLaid();
      assert Attributes(bytes) == [Front(bytes)];
    }
  }

  /** When the length wraps, whatever is read has a shorter reason. */
  lemma WrappedLengthLoses(code: nat, reason: Utf8.Text, txn: seq<byte>)
    requires code < U16 && |txn| == 12 && !FitsLength(Utf8.Encode(reason))
    ensures var buf := EncodeBindingError(code, reason, txn);
      && Sliceable(buf, txn)
      && forall e: StunError :: AuthenticatedError(buf, txn) == Ok(e) ==> |e.reason| < |reason|
  {
    hide ErrorBody, EncodeBindingError, Header, Attributes, Narrow16, ToBe, FromBe;
    hide Utf8.Encode, Utf8.Lossy, Utf8.Trim;
    var phrase := Utf8.Encode(reason);
    var body := ErrorBody(code, phrase);
    var buf := EncodeBindingError(code, reason, txn);
    ErrorSplits(code, reason, txn);
    HeaderIsRead(BINDING_ERROR, Narrow16(|body|), txn, body);
    forall e: StunError | ErrorCode(Attributes(Body(buf))) == Some(e)
      ensures |e.reason| < |reason|
    {
      WrappedReason(code, phrase, e);
      var n: nat :| n + 4 <= |phrase| && e.reason == Utf8.Trim(Utf8.Lossy(phrase[..n]));
      Utf8.CutTextIsShorter(reason, n);
      Utf8.TrimSplits(Utf8.Lossy(phrase[..n]));
    }
  }

  /**
   * The error parser undoes the error encoder exactly for codes below 800 whose reason
   * fits the 16-bit message length and has no white space at its ends; the message
   * length is always a multiple of four.
   */
  lemma ErrorRoundTrip(code: nat, reason: Utf8.Text, txn: seq<byte>)
    requires code < U16 && |txn| == 12
    ensures var buf := EncodeBindingError(code, reason, txn);
      && Sliceable(buf, txn)
      && (AuthenticatedError(buf, txn) == Ok(StunError(code, reason)) <==>
            code < 800 && FitsLength(Utf8.Encode(reason)) && Utf8.Trimmed(reason))
      && Length(buf) % 4 == 0
  {
    hide Utf8.Encode, Utf8.Trim, Utf8.Trimmed;
    ErrorLength(code, reason, txn);
    if FitsLength(Utf8.Encode(reason)) {
      ErrorMessageShape(code, reason, txn);
      ClassFits(code);
      Utf8.TrimSplits(reason);
    } else {
      WrappedLengthLoses(code, reason, txn);
    }
  }

  /** White space in front of a reason is lost: 420 with " x" comes back as 420 with "x". */
  lemma UntrimmedReasonIsLost(txn: seq<byte>)
    requires |txn| == 12
    ensures var buf := EncodeBindingError(420, [0x20, 0x78], txn);
      && FitsLength(Utf8.Encode([0x20, 0x78]))
      && Sliceable(buf, txn)
      && AuthenticatedError(buf, txn) == Ok(StunError(420, [0x78]))
  {
    hide *;
    SpaceX();
    ErrorMessageShape(420, [0x20, 0x78], txn);
    ErrorCodeIsAuthenticated(EncodeBindingError(420, [0x20, 0x78], txn), txn);
  }

  lemma SpaceX()
    ensures 420 < U16 && ReadCode(420) == 420
    ensures FitsLength(Utf8.Encode([0x20, 0x78])) && Utf8.Trim([0x20, 0x78]) == [0x78]
  {
    var reason: Utf8.Text := [0x20, 0x78];
    assert reason[1..] == [0x78] && reason[1..][1..] == [];
    assert Utf8.Encode(reason) == [0x20, 0x78];
    assert Utf8.TrimStart(reason) == [0x78] && Utf8.TrimEnd([0x78]) == [0x78];
  }

  lemma ErrorCodeIsAuthenticated(buf: seq<byte>, txn: seq<byte>)
    requires |txn| == 12 && IsResponse(buf, txn) && Sliceable(buf, txn) && Kind(buf) == BINDING_ERROR
    requires ErrorCode(Attributes(Body(buf))).Some?
    ensures AuthenticatedError(buf, txn) == Ok(ErrorCode(Attributes(Body(buf))).value)
  {
  }

  lemma ClassFits(code: nat)
    ensures ReadCode(code) == code <==> code < 800
  {
  }

  lemma ErrorLength(code: nat, reason: Utf8.Text, txn: seq<byte>)
    requires code < U16 && |txn| == 12
    ensures Length(EncodeBindingError(code, reason, txn)) % 4 == 0
  {
    hide ErrorBody, EncodeBindingError, Header, ToBe, FromBe, RoundUp4, Narrow16, Utf8.Encode;
    var body := ErrorBody(code, Utf8.Encode(reason));
    ErrorSplits(code, reason, txn);
    HeaderIsRead(BINDING_ERROR, Narrow16(|body|), txn, body);
    RoundsUp(4 + |Utf8.Encode(reason)|);
    NarrowKeepsFours(|body|);
  }

  lemma RoundsUp(n: nat)
    ensures RoundUp4(n) % 4 == 0 && n <= RoundUp4(n) < n + 4
  {
  }

  lemma NarrowKeepsFours(n: nat)
    requires n % 4 == 0
    ensures Narrow16(n) % 4 == 0
  {
  }

  /** An error response to our request is reported as the server's rejection, and to nobody else. */
  lemma ErrorIsAuthenticated(code: nat, reason: Utf8.Text, txn: seq<byte>, other: seq<byte>)
    requires code < U16 && |txn| == 12 && |other| == 12 && FitsLength(Utf8.Encode(reason))
    ensures var buf := EncodeBindingError(code, reason, txn);
      && Sliceable(buf, other)
      && (other != txn ==> AuthenticatedError(buf, other) == Err(TransactionMismatch)
                           && BindingResponse(buf, other) == Err(TransactionMismatch))
      && (other == txn ==> BindingResponse(buf, other)
                           == Err(ServerError(StunError(ReadCode(code), Utf8.Trim(reason)))))
  {
    ErrorMessageShape(code, reason, txn);
  }
}
