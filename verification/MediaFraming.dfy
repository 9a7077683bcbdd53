/**
 * The framed synthetic stream (crates/media-separation/src/lib.rs): what the sender
 * puts on the wire and what a reader makes of any cut of it.
 */
module MediaFraming {
  import opened Base
  import opened Bytes

  const HEADER_BYTES := 14

  /** How the byte stream ends after its last byte: a clean FIN, or a reset. */
  datatype Ending = Fin | Reset

  /** One parsed inbound frame. */
  datatype Frame = Frame(sequence: nat, wireBytes: nat, payloadBytes: nat)

  /** What one call of the frame reader yields. */
  datatype Message = GotFrame(frame: Frame) | EndOfStream | ReadError

  // ---------------------------------------------------------------- writing

  function Filler(size: nat): (bytes: seq<byte>)
    ensures |bytes| == size && forall i :: 0 <= i < size ==> bytes[i] == 171
  {
    seq(size, i => 0xAB)
  }

  function EncodeFrame(sequence: nat, sentAt: nat, payload: seq<byte>): (bytes: seq<byte>)
    ensures |bytes| == HEADER_BYTES + |payload|
  {
    ToBe(4, sequence) + ToBe(8, sentAt) + ToBe(2, |payload|) + payload
  }

  /** A frame's number as it stands in the four-byte header field. */
  function Wrap(n: nat): (w: nat)
    ensures w < U32
  {
    n % 0x1_0000_0000
  }

  /** The frames numbered from `first` on, one per sending time. */
  function WireFrom(first: nat, times: seq<nat>, size: nat): seq<byte>
    decreases |times|
  {
    if times == [] then []
    else EncodeFrame(Wrap(first), times[0], Filler(size)) + WireFrom(first + 1, times[1..], size)
  }

  /** Everything a sender has written after sending a frame at each of the times. */
  function Wire(times: seq<nat>, size: nat): seq<byte> {
    WireFrom(0, times, size)
  }

  /** Sending one more frame appends its encoding, numbered modulo 2^32. */
  lemma {:induction false} WireGrows(first: nat, times: seq<nat>, size: nat, at: nat)
    ensures WireFrom(first, times + [at], size)
         == WireFrom(first, times, size) + EncodeFrame(Wrap(first + |times|), at, Filler(size))
    decreases |times|
  {
    var frame := EncodeFrame(Wrap(first + |times|), at, Filler(size));
    if times == [] {
      assert [at][1..] == [];
      assert WireFrom(first, [at], size) == frame + [];
      assert times + [at] == [at];
    } else {
      WireGrows(first + 1, times[1..], size, at);
      assert (times + [at])[1..] == times[1..] + [at];
    }
  }

  // ---------------------------------------------------------------- reading

  /** The first message of a stream, and how many bytes it takes. */
  function ReadFrame(stream: seq<byte>, ending: Ending): (r: (Message, nat))
    ensures r.1 <= |stream|
    ensures r.0.GotFrame? ==> r.1 >= HEADER_BYTES
  {
    if |stream| < HEADER_BYTES then (if ending.Fin? then EndOfStream else ReadError, |stream|)
    else
      var length := FromBe(stream[12..14]);
      if |stream| < HEADER_BYTES + length then (ReadError, |stream|)
      else (GotFrame(Frame(FromBe(stream[..4]), HEADER_BYTES + length, length)), HEADER_BYTES + length)
  }

  /** Every message the reader task produces, up to and including its last. */
  function Messages(stream: seq<byte>, ending: Ending): (ms: seq<Message>)
    ensures ms != [] && !ms[|ms| - 1].GotFrame?
    ensures forall i :: 0 <= i < |ms| - 1 ==> ms[i].GotFrame?
    decreases |stream|
  {
    var (m, used) := ReadFrame(stream, ending);
    if m.GotFrame? then [m] + Messages(stream[used..], ending) else [m]
  }

  lemma FirstMessage(stream: seq<byte>, at: nat, ending: Ending)
    requires at <= |stream|
    ensures var (m, used) := ReadFrame(stream[at..], ending);
      Messages(stream[at..], ending)
        == if m.GotFrame? then [m] + Messages(stream[at + used..], ending) else [m]
  {
    hide ReadFrame;
    var (m, used) := ReadFrame(stream[at..], ending);
    assert stream[at..][used..] == stream[at + used..];
  }

  /** The reader task's loop, with a consumer that keeps draining its channel. */
  method ReadAll(stream: seq<byte>, ending: Ending) returns (sent: seq<Message>)
    ensures sent == Messages(stream, ending)
  {
    hide ReadFrame, Messages;
    sent := [];
    var at := 0;
    assert stream[0..] == stream;
    while true
      invariant at <= |stream|
      invariant sent + Messages(stream[at..], ending) == Messages(stream, ending)
      decreases |stream| - at
    {
      var (m, used) := ReadFrame(stream[at..], ending);
      FirstMessage(stream, at, ending);
      if m.GotFrame? {
        Associates(sent, [m], Messages(stream[at + used..], ending));
      }
      sent := sent + [m];
      if !m.GotFrame? {
        return;
      }
      at := at + used;
    }
  }

  // ---------------------------------------------------------------- reading what was written

  lemma ReadsOwnFrame(sequence: nat, sentAt: nat, payload: seq<byte>, rest: seq<byte>, ending: Ending)
    requires sequence < U32 && |payload| < U16
    ensures ReadFrame(EncodeFrame(sequence, sentAt, payload) + rest, ending)
         == (GotFrame(Frame(sequence, HEADER_BYTES + |payload|, |payload|)), HEADER_BYTES + |payload|)
  {
    var stream := EncodeFrame(sequence, sentAt, payload) + rest;
    assert stream[..4] == ToBe(4, sequence);
    assert stream[12..14] == ToBe(2, |payload|);
    Spans();
    FromToBeExact(4, sequence);
    FromToBeExact(2, |payload|);
  }

  /** A strict prefix of one frame is a clean end inside the header and an error inside the payload. */
  lemma ReadsCutFrame(sequence: nat, sentAt: nat, payload: seq<byte>, k: nat, ending: Ending)
    requires sequence < U32 && |payload| < U16 && k < HEADER_BYTES + |payload|
    ensures ReadFrame(EncodeFrame(sequence, sentAt, payload)[..k], ending).0
         == if ending.Fin? && k < HEADER_BYTES then EndOfStream else ReadError
  {
    if k >= HEADER_BYTES {
      var stream := EncodeFrame(sequence, sentAt, payload)[..k];
      assert stream[12..14] == ToBe(2, |payload|);
      Spans();
      FromToBeExact(2, |payload|);
    }
  }

  function Expected(first: nat, count: nat, size: nat): (ms: seq<Message>)
    ensures |ms| == count
  {
    seq(count, (i: nat) => GotFrame(Frame(Wrap(first + i), HEADER_BYTES + size, size)))
  }

  lemma ExpectedFirst(first: nat, count: nat, size: nat)
    requires count > 0
    ensures Expected(first, count, size)
         == [GotFrame(Frame(Wrap(first), HEADER_BYTES + size, size))] + Expected(first + 1, count - 1, size)
  {
  }

  lemma {:induction false} WireLength(first: nat, times: seq<nat>, size: nat)
    ensures |WireFrom(first, times, size)| == |times| * (HEADER_BYTES + size)
    decreases |times|
  {
    if times == [] {
    } else {
      WireLength(first + 1, times[1..], size);
      assert |times| * (HEADER_BYTES + size) == (|times| - 1) * (HEADER_BYTES + size) + HEADER_BYTES + size;
    }
  }

  lemma {:induction false} WireSplit(first: nat, times: seq<nat>, size: nat, q: nat)
    requires q <= |times|
    ensures WireFrom(first, times, size)
         == WireFrom(first, times[..q], size) + WireFrom(first + q, times[q..], size)
    decreases |times|
  {
    hide WireFrom, EncodeFrame;
    if q == 0 {
      NoWire(first, size);
      assert times[..0] == [] && times[0..] == times;
    } else {
      WireSplit(first + 1, times[1..], size, q - 1);
      assert times[..q][1..] == times[1..][..q - 1] && times[1..][q - 1..] == times[q..];
      WireCons(first, times, size);
      WireFirst(first, times[..q], size, WireFrom(first + q, times[q..], size));
    }
  }

  lemma NoWire(first: nat, size: nat)
    ensures WireFrom(first, [], size) == []
  {
  }

  lemma WireCons(first: nat, times: seq<nat>, size: nat)
    requires times != []
    ensures WireFrom(first, times, size)
         == EncodeFrame(Wrap(first), times[0], Filler(size)) + WireFrom(first + 1, times[1..], size)
  {
  }

  /** Whole frames in front of any tail are decoded one by one. */
  lemma {:induction false} WholeFramesDecode(first: nat, times: seq<nat>, size: nat, tail: seq<byte>, ending: Ending)
    requires size < U16
    ensures Messages(WireFrom(first, times, size) + tail, ending)
         == Expected(first, |times|, size) + Messages(tail, ending)
    decreases |times|
  {
    hide *;
    if times == [] {
      NothingDecodes(first, size, tail, ending);
    } else {
      var after := WireFrom(first + 1, times[1..], size) + tail;
      WholeFramesDecode(first + 1, times[1..], size, tail, ending);
      WireFirst(first, times, size, tail);
      FrameDecodes(Wrap(first), times[0], size, after, ending);
      ExpectedFirst(first, |times|, size);
      Associates([GotFrame(Frame(Wrap(first), HEADER_BYTES + size, size))],
                 Expected(first + 1, |times| - 1, size), Messages(tail, ending));
    }
  }

  lemma NothingDecodes(first: nat, size: nat, tail: seq<byte>, ending: Ending)
    ensures Messages(WireFrom(first, [], size) + tail, ending) == Expected(first, 0, size) + Messages(tail, ending)
  {
    assert WireFrom(first, [], size) + tail == tail;
  }

  lemma WireFirst(first: nat, times: seq<nat>, size: nat, tail: seq<byte>)
    requires times != []
    ensures WireFrom(first, times, size) + tail
         == EncodeFrame(Wrap(first), times[0], Filler(size)) + (WireFrom(first + 1, times[1..], size) + tail)
  {
  }

  lemma FrameDecodes(sequence: nat, sentAt: nat, size: nat, after: seq<byte>, ending: Ending)
    requires sequence < U32 && size < U16
    ensures Messages(EncodeFrame(sequence, sentAt, Filler(size)) + after, ending)
         == [GotFrame(Frame(sequence, HEADER_BYTES + size, size))] + Messages(after, ending)
  {
    var stream := EncodeFrame(sequence, sentAt, Filler(size)) + after;
    ReadsOwnFrame(sequence, sentAt, Filler(size), after, ending);
    assert stream[HEADER_BYTES + size..] == after;
  }

  function Whole(size: nat): (n: nat)
    ensures n >= HEADER_BYTES
  {
    HEADER_BYTES + size
  }

  /** How many whole frames the first k bytes hold, and how many bytes are left over. */
  function WholeFrames(k: nat, size: nat): nat {
    k / Whole(size)
  }

  function Remainder(k: nat, size: nat): nat {
    k % Whole(size)
  }

  /** The whole frames among the first k bytes, and how the stream then ends. */
  function CutMessages(k: nat, size: nat, ending: Ending): seq<Message> {
    Expected(0, WholeFrames(k, size), size)
    + [if ending.Fin? && Remainder(k, size) < HEADER_BYTES then EndOfStream else ReadError]
  }

  /**
   * The sender's equal-size frames cut at any byte k: the reader decodes exactly the
   * frames that are whole, consecutively numbered, and then ends cleanly if and only
   * if the stream was finished and the cut falls inside a header.
   */
  lemma CutDecodes(times: seq<nat>, size: nat, k: nat, ending: Ending)
    requires size < U16 && k <= |Wire(times, size)|
    ensures Messages(Wire(times, size)[..k], ending) == CutMessages(k, size, ending)
  {
    hide WholeFrames, Remainder;
    WireLength(0, times, size);
    CutPosition(k, |times|, size);
    CutDecodesAt(times, size, k, WholeFrames(k, size), Remainder(k, size), ending);
  }

  lemma CutDecodesAt(times: seq<nat>, size: nat, k: nat, q: nat, r: nat, ending: Ending)
    requires size < U16 && k <= |Wire(times, size)|
    requires k == q * Whole(size) + r && r < Whole(size)
    requires q <= |times| && (q == |times| ==> r == 0)
    ensures Messages(Wire(times, size)[..k], ending)
         == Expected(0, q, size) + [if ending.Fin? && r < HEADER_BYTES then EndOfStream else ReadError]
  {
    CutSplits(times, size, k, q, r);
    WholeFramesDecode(0, times[..q], size, WireFrom(q, times[q..], size)[..r], ending);
    TailDecodes(q, times[q..], size, r, ending);
  }

  /** A cut leaves whole frames and a strict prefix of what comes next. */
  lemma CutSplits(times: seq<nat>, size: nat, k: nat, q: nat, r: nat)
    requires k <= |Wire(times, size)|
    requires k == q * Whole(size) + r && r < Whole(size)
    requires q <= |times| && (q == |times| ==> r == 0)
    ensures r <= |WireFrom(q, times[q..], size)|
    ensures Wire(times, size)[..k] == WireFrom(0, times[..q], size) + WireFrom(q, times[q..], size)[..r]
  {
    hide WireFrom, EncodeFrame;
    WireLength(0, times[..q], size);
    WireSplit(0, times, size, q);
    TailFits(times[q..], size, q, r);
    CutConcat(WireFrom(0, times[..q], size), WireFrom(q, times[q..], size), r);
  }

  lemma TailFits(times: seq<nat>, size: nat, first: nat, r: nat)
    requires r < Whole(size) && (times == [] ==> r == 0)
    ensures r <= |WireFrom(first, times, size)|
  {
    hide WireFrom;
    WireLength(first, times, size);
    if times != [] {
      assert |times| * Whole(size) == (|times| - 1) * Whole(size) + Whole(size);
    }
  }

  lemma CutConcat(body: seq<byte>, after: seq<byte>, r: nat)
    requires r <= |after|
    ensures (body + after)[..|body| + r] == body + after[..r]
  {
  }

  lemma CutPosition(k: nat, n: nat, size: nat)
    requires k <= n * Whole(size)
    ensures k == WholeFrames(k, size) * Whole(size) + Remainder(k, size)
    ensures Remainder(k, size) < Whole(size) && WholeFrames(k, size) <= n
    ensures WholeFrames(k, size) == n ==> Remainder(k, size) == 0
  {
    var q := WholeFrames(k, size);
    assert q > n ==> q * Whole(size) >= (n + 1) * Whole(size);
  }

  lemma TailDecodes(first: nat, times: seq<nat>, size: nat, r: nat, ending: Ending)
    requires size < U16 && r < Whole(size) && r <= |WireFrom(first, times, size)|
    ensures Messages(WireFrom(first, times, size)[..r], ending)
         == [if ending.Fin? && r < HEADER_BYTES then EndOfStream else ReadError]
  {
    if times == [] {
      assert r == 0;
    } else {
      var frame := EncodeFrame(Wrap(first), times[0], Filler(size));
      assert WireFrom(first, times, size)[..r] == frame[..r];
      ReadsCutFrame(Wrap(first), times[0], Filler(size), r, ending);
    }
  }

  // ---------------------------------------------------------------- frames in octets

  /** A frame is fourteen octets of header, in which number, time and length can be read, and its payload. */
  lemma FrameOctets(sequence: nat, sentAt: nat, payload: seq<byte>)
    requires sequence < U32 && sentAt < U64 && |payload| < U16
    ensures var frame := EncodeFrame(sequence, sentAt, payload);
      && |frame| == 14 + |payload|
      && FromBe(frame[0..4]) == sequence && FromBe(frame[4..12]) == sentAt && FromBe(frame[12..14]) == |payload|
      && frame[14..] == payload
  {
    hide ToBe, FromBe;
    var frame := EncodeFrame(sequence, sentAt, payload);
    assert frame[0..4] == ToBe(4, sequence) && frame[4..12] == ToBe(8, sentAt) && frame[12..14] == ToBe(2, |payload|);
    Spans();
    FromToBeExact(4, sequence);
    FromToBeExact(8, sentAt);
    FromToBeExact(2, |payload|);
  }

  /** What a reader makes of any stream: a short header ends it, a short payload is an error, else it is a frame. */
  lemma FirstFrame(stream: seq<byte>, ending: Ending)
    ensures |stream| < 14 ==> ReadFrame(stream, ending).0 == if ending == Fin then EndOfStream else ReadError
    ensures |stream| >= 14 ==>
      var length := stream[12] as int * 256 + stream[13] as int;
      if |stream| < 14 + length then ReadFrame(stream, ending).0 == ReadError
      else ReadFrame(stream, ending) == (GotFrame(Frame(
             (stream[0] as int * 0x100 + stream[1] as int) * 0x1_0000 + (stream[2] as int * 0x100 + stream[3] as int),
             14 + length, length)), 14 + length)
  {
    hide FromBe;
    if |stream| >= 14 {
      assert stream[12..14] == [stream[12], stream[13]];
      assert stream[..4] == [stream[0], stream[1], stream[2], stream[3]];
      FromTwo(stream[12], stream[13]);
      FromFour(stream[0], stream[1], stream[2], stream[3]);
    }
  }
}
