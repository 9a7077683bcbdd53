/**
 * The receiving side (crates/media-separation/src/lib.rs): the reader task that owns
 * the stream, the bounded channel it fills, and the driving loop that empties it while
 * watching the gate.
 */
module MediaReceiver {
  import opened Base
  import opened Bytes
  import opened MediaGate
  import opened MediaFraming
  import Session = MediaSession

  const CAPACITY := 8

  datatype Reader =
    | Reading                 // inside read_frame_synced
    | Holding(held: Message)  // waiting for room in the channel
    | Quit

  datatype Result =
    | Finished(frames: nat, bytesOnWire: nat, payloadBytes: nat, stop: Option<StopReason>, counted: nat)
    | Discontinuity
    | ReadFailed

  datatype Receiver =
    | LoopHead        // about to look at the watched state
    | Selecting
    | Waiting         // a read failed: waits for the gate to latch
    | Closing         // the stream ended: about to lock the gate for the reason
    | Done(result: Result)

  datatype State = State(
    rest: seq<byte>, ending: Ending, reader: Reader,
    channel: seq<Message>, taken: seq<Message>,
    gate: Gate, receiver: Receiver,
    frames: nat, bytesOnWire: nat, payloadBytes: nat, expected: nat)

  function Start(stream: seq<byte>, ending: Ending, gate: Gate): State {
    State(stream, ending, Reading, [], [], gate, LoopHead, 0, 0, 0, 0)
  }

  datatype Event =
    | GateFed(signal: Timed)
    | ReaderReads
    | ReaderSends
    | ReceiverLooks
    | ReceiverTakes
    | ReceiverNotified
    | ReceiverGivesUp
    | ReceiverCloses

  function Finish(s: State, stop: Option<StopReason>): State {
    s.(receiver := Done(Finished(s.frames, s.bytesOnWire, s.payloadBytes, stop, s.expected)))
  }

  /** The receiver handles one message from the channel. */
  function Take(s: State, m: Message): State {
    match m
    case EndOfStream => s.(receiver := Closing)
    case ReadError => s.(receiver := Waiting)
    case GotFrame(f) =>
      if f.sequence != s.expected then s.(receiver := Done(Discontinuity))
      else s.(receiver := LoopHead,
              expected := Wrap(s.expected + 1),
              frames := s.frames + 1,
              bytesOnWire := s.bytesOnWire + f.wireBytes,
              payloadBytes := s.payloadBytes + f.payloadBytes)
  }

  function Next(s: State, e: Event): State {
    match e
    case GateFed(signal) => s.(gate := Apply(s.gate, signal))
    case ReaderReads =>
      if s.reader != Reading then s
      else
        var (m, used) := ReadFrame(s.rest, s.ending);
        s.(reader := Holding(m), rest := s.rest[used..])
    case ReaderSends =>
      if !s.reader.Holding? then s
      else if s.receiver.Done? then s.(reader := Quit)
      else if |s.channel| >= CAPACITY then s
      else s.(channel := s.channel + [s.reader.held], reader := if s.reader.held.GotFrame? then Reading else Quit)
    case ReceiverLooks =>
      if s.receiver != LoopHead then s
      else if s.gate.state.Stopped? then Finish(s, ReasonOf(s.gate.state))
      else s.(receiver := Selecting)
    case ReceiverTakes =>
      if s.receiver != Selecting then s
      else if s.channel != [] then
        Take(s.(channel := s.channel[1..], taken := s.taken + [s.channel[0]]), s.channel[0])
      else if s.reader == Quit then s.(receiver := Closing)
      else s
    case ReceiverNotified =>
      if s.receiver != Selecting && s.receiver != Waiting then s
      else if s.gate.state.Stopped? then Finish(s, ReasonOf(s.gate.state))
      else if s.receiver == Selecting then s.(receiver := LoopHead)
      else s
    case ReceiverGivesUp =>
      if s.receiver != Waiting then s else s.(receiver := Done(ReadFailed))
    case ReceiverCloses =>
      if s.receiver != Closing then s else Finish(s, ReasonOf(s.gate.state))
  }

  function Run(s: State, events: seq<Event>): State {
    if events == [] then s else Next(Run(s, events[..|events| - 1]), events[|events| - 1])
  }

  // ---------------------------------------------------------------- what is in the pipeline

  /** The messages the reader has still to deliver. */
  function Ahead(s: State): seq<Message> {
    match s.reader
    case Reading => Messages(s.rest, s.ending)
    case Holding(m) => [m] + if m.GotFrame? then Messages(s.rest, s.ending) else []
    case Quit => []
  }

  /** All messages of the stream, wherever they are on their way. */
  function Pipeline(s: State): seq<Message> {
    s.taken + (s.channel + Ahead(s))
  }

  predicate AllFrames(ms: seq<Message>) {
    forall i :: 0 <= i < |ms| ==> ms[i].GotFrame?
  }

  function WireBytes(ms: seq<Message>): nat {
    Total(ms, (m: Message) => if m.GotFrame? then m.frame.wireBytes else 0)
  }

  function PayloadBytes(ms: seq<Message>): nat {
    Total(ms, (m: Message) => if m.GotFrame? then m.frame.payloadBytes else 0)
  }

  /** The frames are numbered from zero in order, modulo 2^32. */
  predicate InOrder(ms: seq<Message>) {
    forall i: nat :: i < |ms| && ms[i].GotFrame? ==> ms[i].frame.sequence == Wrap(i)
  }

  /** The frames taken so far are in order, and the totals are theirs. */
  ghost predicate Counted(s: State, ms: seq<Message>) {
    && AllFrames(ms) && InOrder(ms)
    && s.frames == |ms| && s.expected == Wrap(|ms|)
    && s.bytesOnWire == WireBytes(ms) && s.payloadBytes == PayloadBytes(ms)
  }

  function Last(ms: seq<Message>): Message
    requires ms != []
  {
    ms[|ms| - 1]
  }

  function Init(ms: seq<Message>): seq<Message>
    requires ms != []
  {
    ms[..|ms| - 1]
  }

  /** What a finished receiver's result says of the messages of the whole stream. */
  ghost predicate Honest(all: seq<Message>, r: Result, g: GateState)
    requires all != []
  {
    match r
    case Finished(frames, bytesOnWire, payloadBytes, stop, counted) =>
      && (stop.Some? ==> g == Stopped(stop.value))
      && (stop.None? ==> frames == |all| - 1 && Last(all) == EndOfStream)
      && frames <= |all| - 1
      && InOrder(all[..frames])
      && counted == Wrap(frames)
      && bytesOnWire == WireBytes(all[..frames]) && payloadBytes == PayloadBytes(all[..frames])
    case Discontinuity => !InOrder(all)
    case ReadFailed => Last(all) == ReadError && InOrder(Init(all))
  }

  /** What the receiver knows at each place of its loop. */
  ghost predicate Knows(s: State, all: seq<Message>)
    requires all != []
  {
    match s.receiver
    case LoopHead => Counted(s, s.taken)
    case Selecting => Counted(s, s.taken)
    case Waiting => s.taken == all && Last(all) == ReadError && Counted(s, Init(all))
    case Closing => s.taken == all && Last(all) == EndOfStream && Counted(s, Init(all))
    case Done(r) => Honest(all, r, s.gate.state)
  }

  ghost predicate Inv(s: State, all: seq<Message>) {
    && all != [] && !Last(all).GotFrame? && AllFrames(Init(all))
    && |s.channel| <= CAPACITY
    && (!s.receiver.Done? ==> Pipeline(s) == all)
    && Knows(s, all)
  }

  // ---------------------------------------------------------------- every step keeps it

  lemma ReaderKeeps(s: State, all: seq<Message>, e: Event)
    requires Inv(s, all) && (e.ReaderReads? || e.ReaderSends?)
    ensures Inv(Next(s, e), all)
  {
    var t := Next(s, e);
    if e.ReaderSends? && s.reader.Holding? && !s.receiver.Done? && |s.channel| < CAPACITY {
      Associates(s.channel, [s.reader.held], Ahead(t));
    }
    assert !s.receiver.Done? ==> s.channel + Ahead(s) == t.channel + Ahead(t);
  }

  /** A prefix of all messages that stops short of the last one holds frames only. */
  lemma PrefixIsFrames(all: seq<Message>, taken: seq<Message>, more: seq<Message>)
    requires all != [] && !Last(all).GotFrame? && AllFrames(Init(all))
    requires taken + more == all
    ensures |taken| < |all| ==> AllFrames(taken) && more != []
    ensures AllFrames(taken) ==> |taken| < |all| && all[..|taken|] == taken
    ensures more != [] ==> more[0] == all[|taken|]
  {
    assert all[..|taken|] == taken;
    assert |taken| == |all| ==> taken[|all| - 1] == Last(all);
    assert forall i :: 0 <= i < |taken| && i < |all| - 1 ==> taken[i] == Init(all)[i];
  }

  lemma TakeMovesPipeline(s: State)
    requires s.channel != []
    ensures (s.taken + [s.channel[0]]) + (s.channel[1..] + Ahead(s)) == Pipeline(s)
  {
    hide Ahead;
    assert s.channel == [s.channel[0]] + s.channel[1..];
    Associates([s.channel[0]], s.channel[1..], Ahead(s));
    Associates(s.taken, [s.channel[0]], s.channel[1..] + Ahead(s));
  }

  lemma WrapStep(n: nat)
    ensures Wrap(Wrap(n) + 1) == Wrap(n + 1)
  {
  }

  /** One more frame in order keeps the totals those of the frames taken. */
  lemma FrameCounts(s: State, m: Message)
    requires Counted(s, s.taken) && m.GotFrame? && m.frame.sequence == s.expected
    ensures var t := Take(s.(taken := s.taken + [m]), m); Counted(t, t.taken)
  {
    TotalAppend(s.taken, (m: Message) => if m.GotFrame? then m.frame.wireBytes else 0, m);
    TotalAppend(s.taken, (m: Message) => if m.GotFrame? then m.frame.payloadBytes else 0, m);
    WrapStep(|s.taken|);
    hide Total, Wrap;
  }

  lemma TakeKeeps(s: State, all: seq<Message>)
    requires Inv(s, all) && s.receiver == Selecting && s.channel != []
    ensures Inv(Next(s, ReceiverTakes), all)
  {
    hide Ahead, WireBytes, PayloadBytes, Wrap;
    var m := s.channel[0];
    var moved := s.(channel := s.channel[1..], taken := s.taken + [m]);
    assert Next(s, ReceiverTakes) == Take(moved, m);
    AheadSame(s, moved);
    AheadSame(s, Take(moved, m));
    PrefixIsFrames(all, s.taken, s.channel + Ahead(s));
    TakeMovesPipeline(s);
    if m.GotFrame? && m.frame.sequence == s.expected {
      FrameCounts(moved.(taken := s.taken), m);
    } else if !m.GotFrame? {
      assert |s.taken| == |all| - 1;
      assert moved.taken == all && Init(all) == s.taken;
    }
  }

  lemma AheadSame(s: State, t: State)
    requires s.reader == t.reader && s.rest == t.rest && s.ending == t.ending
    ensures Ahead(s) == Ahead(t)
  {
  }

  lemma FinishKeeps(s: State, all: seq<Message>)
    requires Inv(s, all) && s.gate.state.Stopped? && !s.receiver.Done?
    ensures Inv(Finish(s, ReasonOf(s.gate.state)), all)
  {
    PrefixIsFrames(all, s.taken, s.channel + Ahead(s));
    assert all[..|all| - 1] == Init(all);
  }

  lemma NextKeeps(s: State, all: seq<Message>, e: Event)
    requires Inv(s, all)
    ensures Inv(Next(s, e), all)
  {
    match e
    case GateFed(signal) => assert Ahead(Next(s, e)) == Ahead(s);
    case ReaderReads => ReaderKeeps(s, all, e);
    case ReaderSends => ReaderKeeps(s, all, e);
    case ReceiverLooks =>
      if s.receiver == LoopHead && s.gate.state.Stopped? { FinishKeeps(s, all); }
    case ReceiverTakes =>
      if s.receiver == Selecting {
        if s.channel != [] {
          TakeKeeps(s, all);
        } else if s.reader == Quit {
          PrefixIsFrames(all, s.taken, []);
        }
      }
    case ReceiverNotified =>
      if s.receiver in {Selecting, Waiting} && s.gate.state.Stopped? { FinishKeeps(s, all); }
    case ReceiverGivesUp =>
    case ReceiverCloses =>
      if s.receiver == Closing { assert all[..|all| - 1] == Init(all); }
  }

  lemma {:induction false} RunKeeps(stream: seq<byte>, ending: Ending, gate: Gate, events: seq<Event>)
    ensures Inv(Run(Start(stream, ending, gate), events), Messages(stream, ending))
  {
    var all := Messages(stream, ending);
    if events == [] {
      assert Pipeline(Start(stream, ending, gate)) == all;
    } else {
      RunKeeps(stream, ending, gate, events[..|events| - 1]);
      NextKeeps(Run(Start(stream, ending, gate), events[..|events| - 1]), all, events[|events| - 1]);
    }
  }

  // ---------------------------------------------------------------- main results

  /**
   * Whatever the interleaving of reader, receiver and gate: no message is lost,
   * repeated or reordered in the channel, which never holds more than eight; a result
   * with no stop reason accounts for every frame of a cleanly ended stream, and a stop
   * reason is the one the gate latched with.
   */
  lemma ReceiverIsHonest(stream: seq<byte>, ending: Ending, gate: Gate, events: seq<Event>)
    ensures var s := Run(Start(stream, ending, gate), events);
      && |s.channel| <= CAPACITY
      && (s.receiver.Done? ==> Honest(Messages(stream, ending), s.receiver.result, s.gate.state))
      && (!s.receiver.Done? ==> Pipeline(s) == Messages(stream, ending))
  {
    RunKeeps(stream, ending, gate, events);
  }

  lemma {:induction false} ExpectedTotals(size: nat, count: nat, m: nat)
    requires m <= count
    ensures var ms := Expected(0, count, size)[..m];
      WireBytes(ms) == m * Whole(size) && PayloadBytes(ms) == m * size
  {
    var ms := Expected(0, count, size)[..m];
    if m == 0 {
    } else {
      ExpectedTotals(size, count, m - 1);
      var before := Expected(0, count, size)[..m - 1];
      assert ms == before + [ms[m - 1]];
      TotalAppend(before, (m: Message) => if m.GotFrame? then m.frame.wireBytes else 0, ms[m - 1]);
      TotalAppend(before, (m: Message) => if m.GotFrame? then m.frame.payloadBytes else 0, ms[m - 1]);
      hide Expected;
      assert m * Whole(size) == (m - 1) * Whole(size) + Whole(size);
      assert m * size == (m - 1) * size + size;
    }
  }

  /** What a receiver may report of the first k bytes of a sender's frames. */
  ghost predicate FaithfulToCut(r: Result, k: nat, size: nat, ending: Ending) {
    var clean := ending.Fin? && Remainder(k, size) < HEADER_BYTES;
    match r
    case Finished(frames, bytesOnWire, payloadBytes, stop, counted) =>
      && frames <= WholeFrames(k, size)
      && bytesOnWire == frames * Whole(size) && payloadBytes == frames * size && counted == Wrap(frames)
      && (stop.None? ==> frames == WholeFrames(k, size) && clean)
    case Discontinuity => false
    case ReadFailed => !clean
  }

  /**
   * A sender's frames cut at any byte: the receiver never sees a discontinuity, counts
   * at most the whole frames, and reports all of them without a stop reason only when
   * the stream ended cleanly inside a header.
   */
  lemma CutStreamReceived(times: seq<nat>, size: nat, k: nat, ending: Ending, gate: Gate, events: seq<Event>)
    requires size < U16 && k <= |Wire(times, size)|
    ensures var s := Run(Start(Wire(times, size)[..k], ending, gate), events);
      s.receiver.Done? ==> FaithfulToCut(s.receiver.result, k, size, ending)
  {
    hide Run, Messages, Wire, WholeFrames, Remainder;
    var s := Run(Start(Wire(times, size)[..k], ending, gate), events);
    ReceiverIsHonest(Wire(times, size)[..k], ending, gate, events);
    CutDecodes(times, size, k, ending);
    var all := CutMessages(k, size, ending);
    var count := WholeFrames(k, size);
    assert InOrder(all) && Last(all) == all[count] && !Last(all).GotFrame?;
    if s.receiver.Done? && s.receiver.result.Finished? {
      var m := s.receiver.result.frames;
      assert all[..m] == Expected(0, count, size)[..m];
      ExpectedTotals(size, count, m);
    }
  }

  /**
   * End to end: when a sender runs to its deadline and its receiver reads the finished
   * stream without a gate stop, both sides report the same frames, wire bytes and
   * payload bytes, in every interleaving on both sides.
   */
  lemma TotalsAgree(size: nat, sending: seq<Session.Event>, gate: Gate, receiving: seq<Event>)
    requires size < U16
    ensures var a := Session.Run(Session.Start(size), sending).sender;
      var b := Run(Start(Session.Run(Session.Start(size), sending).wire, Fin, gate), receiving).receiver;
      a.Returned? && a.exit == Session.AtDeadline && b.Done? && b.result.Finished? && b.result.stop.None? ==>
        && b.result.frames == a.stats.frames
        && b.result.bytesOnWire == a.stats.bytesOnWire
        && b.result.payloadBytes == a.stats.payloadBytes
  {
    hide Run, Session.Run, Wire;
    var sent := Session.Run(Session.Start(size), sending);
    Session.WireMatchesTotals(size, sending);
    if sent.sender.Returned? && sent.sender.exit == Session.AtDeadline {
      var k := |sent.wire|;
      assert Wire(sent.times, size)[..k] == sent.wire;
      CutStreamReceived(sent.times, size, k, Fin, gate, receiving);
      WireSize(sent.times, size);
      WholeCount(|sent.times|, size);
    }
  }

  lemma WireSize(times: seq<nat>, size: nat)
    ensures |Wire(times, size)| == |times| * Whole(size)
  {
    WireLength(0, times, size);
  }

  lemma WholeCount(n: nat, size: nat)
    ensures WholeFrames(n * Whole(size), size) == n
  {
    ModUnique(n * Whole(size), Whole(size), n, 0);
  }

  // ---------------------------------------------------------------- the receiving loop

  /**
   * One turn of the receiving loop: the watched state at its head, whether the select
   * took a message or a notification, and the state seen when the gate is next looked at.
   */
  datatype Turn = Turn(watched: GateState, takes: bool, later: GateState)

  /** The gate does not reopen within a turn. */
  predicate OneGate(turns: seq<Turn>) {
    forall i :: 0 <= i < |turns| ==>
      turns[i].watched.Stopped? ==> turns[i].later == turns[i].watched
  }

  lemma FramesBeforeLast(all: seq<Message>)
    requires all != [] && AllFrames(Init(all))
    ensures forall i :: 0 <= i < |all| - 1 ==> all[i].GotFrame?
  {
    assert forall i :: 0 <= i < |all| - 1 ==> all[i] == Init(all)[i];
  }

  function TakenBy(turns: seq<Turn>): nat {
    Total(turns, (t: Turn) => if t.takes then 1 else 0)
  }

  /** The loop goes on after this turn, given the message at hand. */
  predicate GoesOn(t: Turn, m: Message, expected: nat) {
    && !t.watched.Stopped?
    && if t.takes then m.GotFrame? && m.frame.sequence == expected else !t.later.Stopped?
  }

  /** What the last turn makes of the message at hand. */
  predicate EndsWith(t: Turn, m: Message, expected: nat, r: Result) {
    if t.watched.Stopped? || !t.takes then r.Finished? && r.stop == ReasonOf(t.later)
    else match m
      case EndOfStream => r.Finished? && r.stop == ReasonOf(t.later)
      case ReadError => if t.later.Stopped? then r.Finished? && r.stop == ReasonOf(t.later) else r == ReadFailed
      case GotFrame(f) => f.sequence != expected && r == Discontinuity
  }

  /** How many frames the first n turns have taken, if they all go on. */
  predicate AllGoOn(all: seq<Message>, turns: seq<Turn>, n: nat) {
    n <= |turns|
    && forall i :: 0 <= i < n ==>
         TakenBy(turns[..i]) < |all| && GoesOn(turns[i], all[TakenBy(turns[..i])], Wrap(TakenBy(turns[..i])))
  }

  /**
   * The loop of the receiver over the messages of a stream. It ends at the first turn that does
   * not go on, in the way that turn calls for, with a result that is honest about the whole
   * stream and the last state it saw; while it runs it has taken one frame for each turn that
   * took a message.
   */
  method ReceiveSynthetic(all: seq<Message>, turns: seq<Turn>) returns (result: Option<Result>, used: nat)
    requires all != [] && !Last(all).GotFrame? && AllFrames(Init(all)) && OneGate(turns)
    ensures used <= |turns|
    ensures result.Some? ==> used > 0 && Honest(all, result.value, turns[used - 1].later)
    ensures result.Some? ==>
      && AllGoOn(all, turns, used - 1) && TakenBy(turns[..used - 1]) < |all|
      && EndsWith(turns[used - 1], all[TakenBy(turns[..used - 1])], Wrap(TakenBy(turns[..used - 1])), result.value)
    ensures result.None? ==>
      used == |turns| && AllGoOn(all, turns, used) && TakenBy(turns) <= |all| - 1 && InOrder(all[..TakenBy(turns)])
  {
    FramesBeforeLast(all);
    var frames, wire, payload, expected := 0, 0, 0, 0;
    used := 0;
    while used < |turns|
      invariant used <= |turns| && frames == TakenBy(turns[..used]) <= |all| - 1
      invariant AllGoOn(all, turns, used)
      invariant InOrder(all[..frames]) && expected == Wrap(frames)
      invariant wire == WireBytes(all[..frames]) && payload == PayloadBytes(all[..frames])
    {
      hide WireBytes, PayloadBytes, Wrap;
      var turn, m := turns[used], all[frames];
      OneMoreTurn(turns, used);
      used := used + 1;
      if turn.watched.Stopped? || (!turn.takes && turn.later.Stopped?) {
        return Some(Finished(frames, wire, payload, ReasonOf(turn.later), expected)), used;
      }
      if !turn.takes {
        continue;
      }
      match m {
        case EndOfStream =>
          return Some(Finished(frames, wire, payload, ReasonOf(turn.later), expected)), used;
        case ReadError =>
          assert all[..frames] == Init(all);
          return Some(if turn.later.Stopped? then Finished(frames, wire, payload, ReasonOf(turn.later), expected)
                      else ReadFailed), used;
        case GotFrame(f) =>
          if f.sequence != expected {
            return Some(Discontinuity), used;
          }
          OneMoreFrame(all, frames);
          frames, wire, payload := frames + 1, wire + f.wireBytes, payload + f.payloadBytes;
          expected := Wrap(expected + 1);
      }
    }
    assert turns[..|turns|] == turns;
    result := None;
  }

  lemma OneMoreTurn(turns: seq<Turn>, used: nat)
    requires used < |turns|
    ensures TakenBy(turns[..used + 1]) == TakenBy(turns[..used]) + if turns[used].takes then 1 else 0
  {
    assert turns[..used + 1] == turns[..used] + [turns[used]];
    TotalAppend(turns[..used], (t: Turn) => if t.takes then 1 else 0, turns[used]);
  }

  lemma OneMoreFrame(all: seq<Message>, n: nat)
    requires n < |all| && all[n].GotFrame? && InOrder(all[..n]) && all[n].frame.sequence == Wrap(n)
    ensures InOrder(all[..n + 1]) && Wrap(Wrap(n) + 1) == Wrap(n + 1)
    ensures WireBytes(all[..n + 1]) == WireBytes(all[..n]) + all[n].frame.wireBytes
    ensures PayloadBytes(all[..n + 1]) == PayloadBytes(all[..n]) + all[n].frame.payloadBytes
  {
    assert all[..n + 1] == all[..n] + [all[n]];
    TotalAppend(all[..n], (m: Message) => if m.GotFrame? then m.frame.wireBytes else 0, all[n]);
    TotalAppend(all[..n], (m: Message) => if m.GotFrame? then m.frame.payloadBytes else 0, all[n]);
    WrapStep(n);
    hide Total, Wrap;
  }
}
