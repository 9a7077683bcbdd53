/**
 * What sender and receiver of a media session can do (crates/media-separation/src/lib.rs): any
 * number of frames can be sent and received to the end while the gate is open, and a sender
 * that finds the gate stopped leaves with its reason.
 */
module MediaLaws {
  import opened Base
  import opened Bytes
  import opened MediaGate
  import opened MediaFraming
  import Session = MediaSession
  import Receiver = MediaReceiver

  // ---------------------------------------------------------------- sending

  /** From the select to the write, past all checks. */
  lemma PassesChecks(s: Session.State) returns (events: seq<Session.Event>)
    requires s.gate.state == DirectReady && s.sender == Session.Selecting
    ensures Session.Run(s, events) == s.(sender := Session.Cleared, log := s.log + [Session.Checked])
  {
    hide Session.Run, EncodeFrame, Wrap, Filler;
    events := [Session.SenderWakes, Session.SenderWatches, Session.SenderLooksAtClock(false), Session.SenderChecks];
    Session.Four(s, events[0], events[1], events[2], events[3]);
  }

  /** The whole write of one frame. */
  lemma WritesFrame(s: Session.State, at: nat) returns (events: seq<Session.Event>)
    requires s.sender == Session.Cleared && s.frame == [] && s.written == 0
    ensures Session.Run(s, events) == s.(
      sender := Session.Selecting, times := s.times + [at], at := at, log := s.log + [Session.Began],
      wire := s.wire + EncodeFrame(Wrap(|s.times|), at, Filler(s.size)))
  {
    hide Session.Run, EncodeFrame, Wrap, Filler;
    var frame := EncodeFrame(Wrap(|s.times|), at, Filler(s.size));
    events := [Session.SenderBegins(at), Session.SenderPuts(|frame|), Session.SenderFlushes, Session.SenderCompletes];
    Session.Four(s, events[0], events[1], events[2], events[3]);
    assert frame[0..|frame|] == frame;
  }

  /** One frame, from the select back to the select. */
  lemma SendsOne(s: Session.State, at: nat) returns (events: seq<Session.Event>)
    requires s.gate.state == DirectReady && s.sender == Session.Selecting && s.frame == [] && s.written == 0
    ensures Session.Run(s, events) == s.(
      times := s.times + [at], at := at, log := s.log + [Session.Checked] + [Session.Began],
      wire := s.wire + EncodeFrame(Wrap(|s.times|), at, Filler(s.size)))
  {
    hide Session.Run, EncodeFrame, Wrap, Filler;
    var first := PassesChecks(s);
    var second := WritesFrame(Session.Run(s, first), at);
    events := first + second;
    Session.RunJoins(s, first, second);
  }

  lemma {:induction false} SendsAll(s: Session.State, times: seq<nat>) returns (events: seq<Session.Event>)
    requires s.gate.state == DirectReady && s.sender == Session.Selecting && s.frame == [] && s.written == 0
    ensures var t := Session.Run(s, events);
      && t.gate == s.gate && t.sender == Session.Selecting && t.frame == [] && t.written == 0 && t.size == s.size
      && t.times == s.times + times
  {
    hide Session.Run, EncodeFrame, Wrap, Filler;
    if times == [] {
      events := [];
      Session.RunNothing(s);
    } else {
      var before := times[..|times| - 1];
      var most := SendsAll(s, before);
      var t := Session.Run(s, most);
      var last := SendsOne(t, times[|times| - 1]);
      events := most + last;
      Session.RunJoins(s, most, last);
      assert s.times + times == s.times + before + [times[|times| - 1]];
    }
  }

  /** The monitor opens the gate and the sender comes to its select. */
  lemma ComesToSelect(size: nat) returns (events: seq<Session.Event>)
    ensures var s := Session.Run(Session.Start(size), events);
      s == Session.Start(size).(gate := Gate(DirectReady, true, Some(0), 1), sender := Session.Selecting)
  {
    hide Session.Run;
    var ready := Session.GetsReady(size);
    events := ready + [Session.SenderWaits];
    Session.RunSnoc(Session.Start(size), ready, Session.SenderWaits);
  }

  lemma ReturnsInTime(s: Session.State)
    requires s.sender == Session.Selecting
    ensures Session.Run(s, [Session.SenderPastDeadline, Session.SenderFinishes])
         == s.(sender := Session.Returned(Session.AtDeadline, Session.Totals(s, None)))
  {
    hide Session.Run;
    Session.Two(s, Session.SenderPastDeadline, Session.SenderFinishes);
  }

  /** Every sequence of sending times can be sent: some run puts exactly these frames on the wire and ends in time. */
  lemma AnyTimesAreSent(size: nat, times: seq<nat>)
    ensures exists events :: var s := Session.Run(Session.Start(size), events);
      && s.times == times && s.wire == Wire(times, size)
      && s.sender == Session.Returned(Session.AtDeadline,
                                      Session.Stats(|times|, |s.wire|, |times| * size, None))
  {
    hide Session.Run, Wire, Session.Totals;
    var first := ComesToSelect(size);
    var s := Session.Run(Session.Start(size), first);
    var most := SendsAll(s, times);
    var last := [Session.SenderPastDeadline, Session.SenderFinishes];
    ReturnsInTime(Session.Run(s, most));
    Session.RunJoins(Session.Start(size), first, most);
    Session.RunJoins(Session.Start(size), first + most, last);
    Session.WireMatchesTotals(size, first + most + last);
    assert [] + times == times;
  }

  /** With the gate stopped, each look at it leads out, and the way out carries its reason. */
  lemma StoppedSenderLeaves(s: Session.State)
    requires s.gate.state.Stopped?
    ensures var reason := s.gate.state.reason;
      && (s.sender == Session.Awaiting ==> Session.Next(s, Session.SenderWaits).sender == Session.Leaving)
      && (s.sender == Session.Woken ==> Session.Next(s, Session.SenderWatches).sender == Session.Leaving)
      && (s.sender == Session.AtCheck ==> Session.Next(s, Session.SenderChecks).sender == Session.Leaving)
      && (s.sender == Session.Leaving ==>
            Session.Next(s, Session.SenderAsksReason).sender == Session.Returned(
              Session.AtGate, Session.Stats(|s.times|, |s.times| * (14 + s.size), |s.times| * s.size, Some(reason))))
      && (s.sender == Session.Broken ==>
            Session.Next(s, Session.SenderAsksReason).sender == Session.Returned(
              Session.StreamClosed,
              Session.Stats(|s.times|, |s.times| * (14 + s.size), |s.times| * s.size, Some(reason))))
  {
  }

  // ---------------------------------------------------------------- receiving

  lemma {:induction false} RunJoins(s: Receiver.State, a: seq<Receiver.Event>, b: seq<Receiver.Event>)
    ensures Receiver.Run(s, a + b) == Receiver.Run(Receiver.Run(s, a), b)
  {
    if b == [] {
      assert a + b == a;
    } else {
      assert (a + b)[..|a + b| - 1] == a + b[..|b| - 1];
      RunJoins(s, a, b[..|b| - 1]);
    }
  }

  lemma One(s: Receiver.State, e: Receiver.Event)
    ensures Receiver.Run(s, [e]) == Receiver.Next(s, e)
  {
    assert [e][..0] == [];
  }

  lemma Four(s: Receiver.State, a: Receiver.Event, b: Receiver.Event, c: Receiver.Event, d: Receiver.Event)
    ensures Receiver.Run(s, [a, b, c, d])
         == Receiver.Next(Receiver.Next(Receiver.Next(Receiver.Next(s, a), b), c), d)
  {
    hide *;
    One(s, a);
    One(Receiver.Next(s, a), b);
    One(Receiver.Next(Receiver.Next(s, a), b), c);
    One(Receiver.Next(Receiver.Next(Receiver.Next(s, a), b), c), d);
    RunJoins(s, [a], [b]);
    RunJoins(s, [a] + [b], [c]);
    RunJoins(s, [a] + [b] + [c], [d]);
    assert [a] + [b] + [c] + [d] == [a, b, c, d];
  }

  /** The frames are numbered in order from a number on. */
  predicate Numbered(ms: seq<Message>, from: nat) {
    forall i :: 0 <= i < |ms| - 1 ==> ms[i].GotFrame? && ms[i].frame.sequence == Wrap(from + i)
  }

  /** One message on its way through reader, channel and receiver. */
  lemma PassesOne(s: Receiver.State)
    requires s.reader == Receiver.Reading && s.channel == [] && s.receiver == Receiver.LoopHead
    requires !s.gate.state.Stopped?
    ensures var (m, used) := ReadFrame(s.rest, s.ending);
      Receiver.Run(s, [Receiver.ReaderReads, Receiver.ReaderSends, Receiver.ReceiverLooks, Receiver.ReceiverTakes])
      == Receiver.Take(s.(rest := s.rest[used..], taken := s.taken + [m], receiver := Receiver.Selecting,
                          reader := if m.GotFrame? then Receiver.Reading else Receiver.Quit), m)
  {
    hide Receiver.Run, ReadFrame, Receiver.Take;
    var (m, used) := ReadFrame(s.rest, s.ending);
    assert ([] + [m])[1..] == [];
    Four(s, Receiver.ReaderReads, Receiver.ReaderSends, Receiver.ReceiverLooks, Receiver.ReceiverTakes);
  }

  /** What the first message says of the rest of an ordered stream. */
  lemma FirstOfNumbered(stream: seq<byte>, ending: Ending, from: nat)
    requires Numbered(Messages(stream, ending), from) && Receiver.Last(Messages(stream, ending)) == EndOfStream
    ensures var (m, used) := ReadFrame(stream, ending);
      var more := Messages(stream[used..], ending);
      if m.GotFrame? then
        && m.frame.sequence == Wrap(from) && Numbered(more, from + 1)
        && |Messages(stream, ending)| == 1 + |more| && Receiver.Last(more) == EndOfStream
      else m == EndOfStream && |Messages(stream, ending)| == 1
  {
    hide ReadFrame, Wrap;
    var (m, used) := ReadFrame(stream, ending);
    var ms := Messages(stream, ending);
    assert ms == if m.GotFrame? then [m] + Messages(stream[used..], ending) else [m];
    if m.GotFrame? {
      var more := Messages(stream[used..], ending);
      assert forall i :: 0 <= i < |more| ==> more[i] == ms[i + 1];
      assert ms[0] == m;
    }
  }

  lemma {:induction false} DrainsFrom(s: Receiver.State) returns (events: seq<Receiver.Event>)
    requires s.reader == Receiver.Reading && s.channel == [] && s.receiver == Receiver.LoopHead
    requires !s.gate.state.Stopped? && s.expected == Wrap(s.frames)
    requires Numbered(Messages(s.rest, s.ending), s.frames)
    requires Receiver.Last(Messages(s.rest, s.ending)) == EndOfStream
    ensures var r := Receiver.Run(s, events).receiver;
      && r.Done? && r.result.Finished? && r.result.stop.None?
      && r.result.frames == s.frames + |Messages(s.rest, s.ending)| - 1
    decreases |s.rest|
  {
    hide Receiver.Run, ReadFrame, Wrap, Messages, Numbered;
    var first := [Receiver.ReaderReads, Receiver.ReaderSends, Receiver.ReceiverLooks, Receiver.ReceiverTakes];
    PassesOne(s);
    FirstOfNumbered(s.rest, s.ending, s.frames);
    var (m, used) := ReadFrame(s.rest, s.ending);
    var t := Receiver.Run(s, first);
    if m.GotFrame? {
      Receiver.WrapStep(s.frames);
      var rest := DrainsFrom(t);
      events := first + rest;
      RunJoins(s, first, rest);
    } else {
      events := first + [Receiver.ReceiverCloses];
      One(t, Receiver.ReceiverCloses);
      RunJoins(s, first, [Receiver.ReceiverCloses]);
    }
  }

  /** A cleanly ended stream of frames in order can be received to its end: some run finishes with every frame. */
  lemma StreamsAreReceived(times: seq<nat>, size: nat, gate: Gate)
    requires size < U16 && !gate.state.Stopped?
    ensures exists events ::
      var r := Receiver.Run(Receiver.Start(Wire(times, size), Fin, gate), events).receiver;
      r == Receiver.Done(Receiver.Finished(|times|, |times| * (14 + size), |times| * size, None, Wrap(|times|)))
  {
    hide Receiver.Run, Messages, Wire, WholeFrames, Remainder, Wrap;
    var k := |Wire(times, size)|;
    assert Wire(times, size)[..k] == Wire(times, size);
    CutDecodes(times, size, k, Fin);
    Receiver.WireSize(times, size);
    Receiver.WholeCount(|times|, size);
    NothingRemains(|times|, size);
    FirstIsZero();
    var events := DrainsFrom(Receiver.Start(Wire(times, size), Fin, gate));
    Receiver.CutStreamReceived(times, size, k, Fin, gate, events);
  }

  lemma FirstIsZero()
    ensures Wrap(0) == 0
  {
  }

  lemma NothingRemains(n: nat, size: nat)
    ensures Remainder(n * Whole(size), size) == 0
  {
    ModUnique(n * Whole(size), Whole(size), n, 0);
  }
}
