/** The relay's wire frames and room window (infra/cloudflare/worker/src/relay-protocol.js). */
module RelayProtocol {
  import opened Base

  const RELAY_TTL := 30 * 60_000
  const PING_SECONDS: seq<int> := [15, 30, 60, 120, 300]

  /** An incoming WebSocket message: text, or the bytes of an ArrayBuffer. */
  datatype Message = Text | Binary(bytes: seq<byte>)

  datatype ClientFrame =
    | PingFrame(frame: seq<byte>)
    | PongFrame(frame: seq<byte>)
    | DatagramFrame(destination: string, frame: seq<byte>)

  datatype Room = Room(expires: int, ping: int)

  // ---------------------------------------------------------------- room window

  /**
   * The room a request names. `created` is the timestamp of the room token, or None
   * when the token does not have the required shape.
   */
  function RelayRoom(created: Option<int>, ping: int, now: int, history: bool): Option<Room> {
    match created
    case None => None
    case Some(c) =>
      var expires := c + RELAY_TTL;
      if c > now + 30_000 || now >= expires + (if history then 3_600_000 else 0) || ping !in PING_SECONDS then None
      else Some(Room(expires, ping))
  }

  // ---------------------------------------------------------------- hex text

  function Digit(n: nat): (c: char)
    requires n < 16
  {
    if n < 10 then (n + '0' as int) as char else (n - 10 + 'a' as int) as char
  }

  function Nibble(c: char): nat {
    if '0' <= c <= '9' then c as int - '0' as int
    else if 'a' <= c <= 'f' then c as int - 'a' as int + 10
    else 0
  }

  predicate IsHexDigit(c: char) {
    '0' <= c <= '9' || 'a' <= c <= 'f'
  }

  predicate IsHex(text: string) {
    |text| % 2 == 0 && forall i :: 0 <= i < |text| ==> IsHexDigit(text[i])
  }

  function Hex(bytes: seq<byte>): (text: string) {
    if bytes == [] then "" else [Digit(bytes[0] / 16), Digit(bytes[0] % 16)] + Hex(bytes[1..])
  }

  /** The bytes of the pairs of characters of a text. */
  function Pairs(text: string): seq<byte> {
    if |text| < 2 then []
    else
      var high := Nibble(text[0]);
      var low := Nibble(text[1]);
      [(high * 16 + low) % 256] + Pairs(text[2..])
  }

  /** `unhex`: it throws on a text without a pair of characters. */
  function Unhex(text: string): Option<seq<byte>> {
    if |text| < 2 then None else Some(Pairs(text))
  }

  /** The text is the identity of a 32-byte key. */
  predicate IsKey(text: string) {
    Unhex(text).Some? && |Unhex(text).value| == 32
  }

  lemma DigitNibble(n: nat)
    requires n < 16
    ensures Nibble(Digit(n)) == n && IsHexDigit(Digit(n))
  {
  }

  lemma NibbleDigit(c: char)
    requires IsHexDigit(c)
    ensures Nibble(c) < 16 && Digit(Nibble(c)) == c
  {
  }

  lemma {:induction false} HexShape(bytes: seq<byte>)
    ensures |Hex(bytes)| == 2 * |bytes| && IsHex(Hex(bytes))
  {
    if bytes == [] {
    } else {
      HexShape(bytes[1..]);
      DigitNibble(bytes[0] / 16);
      DigitNibble(bytes[0] % 16);
    }
  }

  /** Each byte is written as its two digits, the high one first. */
  lemma {:induction false} HexDigits(bytes: seq<byte>, i: nat)
    requires i < |bytes|
    ensures |Hex(bytes)| == 2 * |bytes|
    ensures Hex(bytes)[2 * i] == "0123456789abcdef"[bytes[i] / 16]
         && Hex(bytes)[2 * i + 1] == "0123456789abcdef"[bytes[i] % 16]
  {
    HexShape(bytes);
    if i == 0 {
      DigitIs(bytes[0] / 16);
      DigitIs(bytes[0] % 16);
    } else {
      HexDigits(bytes[1..], i - 1);
    }
  }

  lemma DigitIs(n: nat)
    requires n < 16
    ensures Digit(n) == "0123456789abcdef"[n]
  {
  }

  lemma {:induction false} PairsHex(bytes: seq<byte>)
    ensures Pairs(Hex(bytes)) == bytes
  {
    hide Hex, Pairs;
    if bytes == [] {
      NoPairs();
    } else {
      PairsHex(bytes[1..]);
      PairsOfOne(bytes[0], Hex(bytes[1..]));
      HexCons(bytes[0], bytes[1..]);
      assert bytes == [bytes[0]] + bytes[1..];
    }
  }

  lemma NoPairs()
    ensures Pairs(Hex([])) == []
  {
  }

  lemma PairsOfOne(b: byte, rest: string)
    ensures Pairs(Hex([b]) + rest) == [b] + Pairs(rest)
  {
    var head := [Digit(b / 16), Digit(b % 16)];
    assert [b][1..] == [] && Hex([b]) == head;
    assert (head + rest)[2..] == rest;
    DigitNibble(b / 16);
    DigitNibble(b % 16);
    assert b == b / 16 * 16 + b % 16;
    hide Hex, Nibble, Digit;
  }

  lemma HexOne(high: nat, low: nat)
    requires high < 16 && low < 16
    ensures Hex([high * 16 + low]) == [Digit(high), Digit(low)]
  {
    var b: byte := high * 16 + low;
    hide Digit;
    assert b / 16 == high && b % 16 == low;
    assert [b][1..] == [];
  }

  lemma PairsHead(text: string)
    requires |text| >= 2 && IsHex(text)
    ensures IsHexDigit(text[0]) && IsHexDigit(text[1]) && IsHex(text[2..])
    ensures Pairs(text) != [] && Pairs(text)[0] == Nibble(text[0]) * 16 + Nibble(text[1])
  {
  }

  /** The first byte of a hexadecimal text. */
  lemma HexHead(text: string)
    requires |text| >= 2 && IsHex(text)
    ensures Hex([Pairs(text)[0]]) == text[..2] && IsHex(text[2..])
  {
    hide *;
    PairsHead(text);
    NibbleDigit(text[0]);
    NibbleDigit(text[1]);
    HexOne(Nibble(text[0]), Nibble(text[1]));
    assert text[..2] == [text[0], text[1]];
  }

  lemma HexCons(b: byte, rest: seq<byte>)
    ensures Hex([b] + rest) == Hex([b]) + Hex(rest)
  {
    assert ([b] + rest)[1..] == rest && [b][1..] == [];
  }

  lemma {:induction false} HexPairs(text: string)
    requires IsHex(text)
    ensures Hex(Pairs(text)) == text && |Pairs(text)| == |text| / 2
  {
    hide Hex, IsHex;
    if |text| >= 2 {
      var rest := text[2..];
      HexHead(text);
      HexPairs(rest);
      HexCons(Pairs(text)[0], Pairs(rest));
      assert text == text[..2] + rest;
    } else {
      EmptyHex(text);
    }
  }

  /** Decoding undoes encoding on every byte string but the empty one, on which it throws. */
  lemma UnhexHex(bytes: seq<byte>)
    ensures Unhex(Hex(bytes)) == if bytes == [] then None else Some(bytes)
  {
    HexShape(bytes);
    PairsHex(bytes);
  }

  /** Encoding undoes decoding on lower-case hexadecimal text, where decoding throws on the empty text only. */
  lemma HexUnhex(text: string)
    requires IsHex(text)
    ensures Unhex(text).None? <==> text == ""
    ensures Unhex(text).Some? ==> Hex(Unhex(text).value) == text && |Unhex(text).value| == |text| / 2
  {
    HexPairs(text);
  }

  lemma EmptyHex(text: string)
    requires IsHex(text) && |text| < 2
    ensures text == "" && Hex([]) == ""
  {
  }

  // ---------------------------------------------------------------- frames

  /** The fixed layout of a client authentication frame; the signature itself is not modelled. */
  predicate AuthenticationShape(frame: seq<byte>) {
    |frame| == 98 && frame[0] == 1 && frame[33] == 64
  }

  function PublicKey(frame: seq<byte>): string
    requires AuthenticationShape(frame)
  {
    Hex(frame[1..33])
  }

  function ParseClientFrame(message: seq<byte>): Option<ClientFrame> {
    if |message| > 65_537 || |message| == 0 then None
    else if message[0] == 9 || message[0] == 10 then
      if |message| != 9 then None
      else if message[0] == 9 then Some(PingFrame(message)) else Some(PongFrame(message))
    else if message[0] != 4 && message[0] != 5 then None
    else if |message| < (if message[0] == 4 then 34 else 36) || message[33] > 3 then None
    else Some(DatagramFrame(Hex(message[1..33]), message))
  }

  /** A frame a client may ask the relay to forward. */
  predicate IsDatagram(frame: seq<byte>) {
    34 <= |frame| <= 65_537 && (frame[0] == 4 || frame[0] == 5) && frame[33] <= 3 && (frame[0] == 5 ==> |frame| >= 36)
  }

  /** Exactly the well-formed datagrams parse as datagrams, and the destination is bytes 1 to 32. */
  lemma DatagramsParse(message: seq<byte>)
    ensures IsDatagram(message) <==> ParseClientFrame(message).Some? && ParseClientFrame(message).value.DatagramFrame?
    ensures IsDatagram(message) ==>
              var parsed := ParseClientFrame(message).value;
              parsed.frame == message && Pairs(parsed.destination) == message[1..33] && IsHex(parsed.destination)
  {
    if IsDatagram(message) {
      PairsHex(message[1..33]);
      HexShape(message[1..33]);
    }
  }

  /** The client tags 4 and 5 become the relay tags 6 and 7; a byte wraps at 256. */
  function Raised(tag: byte): byte {
    (tag as int + 2) % 256
  }

  /** What the receiver of a forwarded datagram sees, stated position by position. */
  ghost predicate IsForwarded(output: seq<byte>, frame: seq<byte>, source: string) {
    && |output| == |frame| >= 33
    && output[0] == Raised(frame[0])
    && output[1..33] == Pairs(source)
    && output[33..] == frame[33..]
  }

  function ForwardedFrame(frame: seq<byte>, source: string): seq<byte>
    requires |frame| >= 33 && IsKey(source)
  {
    [Raised(frame[0])] + Pairs(source) + frame[33..]
  }

  lemma ForwardedShape(frame: seq<byte>, source: string)
    requires |frame| >= 33 && IsKey(source)
    ensures IsForwarded(ForwardedFrame(frame, source), frame, source)
  {
  }

  /** The copy is overwritten in place: the tag first, then the source key. */
  method BuildForwarded(frame: array<byte>, source: string) returns (output: array<byte>)
    requires frame.Length >= 33 && IsKey(source)
    ensures fresh(output)
    ensures IsForwarded(output[..], frame[..], source)
  {
    output := new byte[frame.Length];
    forall i | 0 <= i < frame.Length {
      output[i] := frame[i];
    }
    output[0] := Raised(output[0]);
    var key := Pairs(source);
    var i := 0;
    while i < |key|
      invariant 0 <= i <= 32
      invariant output[0] == Raised(frame[0])
      invariant forall j :: 0 <= j < i ==> output[1 + j] == key[j]
      invariant forall j :: 33 <= j < frame.Length ==> output[j] == frame[j]
      invariant forall j :: 0 <= j < frame.Length ==> frame[j] == old(frame[j])
    {
      output[1 + i] := key[i];
      i := i + 1;
    }
    assert output[1..33] == key;
  }

  /** `IsForwarded` determines the frame. */
  lemma ForwardedIsUnique(output: seq<byte>, frame: seq<byte>, source: string)
    requires IsKey(source) && IsForwarded(output, frame, source)
    ensures output == ForwardedFrame(frame, source)
  {
    assert output == [output[0]] + output[1..33] + output[33..];
  }
}
