/**
 * The path monitor and the sender of one media session running beside each other
 * (crates/media-separation/src/lib.rs). Each event is one step between two points
 * where another task may run: an await, or a lock of the gate.
 */
module MediaSession {
  import opened Base
  import opened Bytes
  import opened MediaGate
  import opened MediaFraming

  /** Where the monitor loop stands. */
  datatype Monitor =
    | Listening                  // in its select
    | RelayEvent                 // counted a relay event, about to feed the gate
    | CloseEvent                 // saw the connection close, about to feed the gate
    | Scanning                   // about to take a fresh snapshot of the paths
    | Applying(snapshot: Signal) // snapshot taken, about to feed the gate
    | Checking                   // about to look at the gate
    | Ended

  datatype Stats = Stats(frames: nat, bytesOnWire: nat, payloadBytes: nat, stopReason: Option<StopReason>)

  /** How the sender ended. */
  datatype Exit = NeverReady | AtGate | StreamClosed | AtDeadline | StreamFailed

  /** Where the sender stands. */
  datatype Sender =
    | Awaiting              // waits for the gate to become ready
    | Selecting             // in its select
    | Woken                 // about to look at the watched state
    | Watched               // saw it not stopped, about to look at the deadline
    | AtCheck               // about to lock the gate and check it
    | Cleared               // the locked check saw DirectReady
    | Writing               // inside write_all
    | Flushing              // inside flush
    | Leaving               // a gate check failed, about to lock the gate for the reason
    | Broken                // the stream closed, about to lock the gate for the reason
    | Finishing             // the duration has passed
    | Returned(exit: Exit, stats: Stats)

  /** What an observer of the session notes down, in order. */
  datatype Mark = Checked | Began | Latched(reason: StopReason)

  datatype State = State(
    size: nat,                // payload bytes of every frame
    gate: Gate,
    monitor: Monitor,
    relayPaths: nat,          // relay paths ever counted
    connectionClosed: bool,   // closed by the monitor, or seen closed by it
    sender: Sender,
    times: seq<nat>,          // sending times of the completed frames
    frame: seq<byte>,         // the frame being written, or empty
    written: nat,             // how much of it is on the wire
    at: nat,                  // its sending time
    wire: seq<byte>,
    log: seq<Mark>)

  function Start(size: nat): State {
    State(size, NEW_GATE, Listening, 0, false, Awaiting, [], [], 0, 0, [], [])
  }

  datatype Event =
    | MonitorWakes(relay: bool)              // a path event, or a tick
    | MonitorSeesClose
    | MonitorFeeds(at: nat)
    | MonitorScans(open: nat, relays: nat, selected: bool)
    | MonitorChecks
    | MonitorCancelled
    | SenderWaits
    | SenderTimesOut
    | SenderWakes
    | SenderPastDeadline
    | SenderWatches
    | SenderLooksAtClock(expired: bool)
    | SenderChecks
    | SenderBegins(now: nat)
    | SenderPuts(count: nat)
    | SenderFlushes
    | SenderCompletes
    | SenderStreamFails(closed: bool)
    | SenderAsksReason
    | SenderFinishes

  // ---------------------------------------------------------------- the monitor

  /** Feeding the gate; an observer notes when it latches. */
  function Feed(s: State, signal: Signal, at: nat, next: Monitor): State {
    var gate := Apply(s.gate, Timed(signal, at));
    s.(gate := gate,
       monitor := next,
       log := if gate.state.Stopped? && !s.gate.state.Stopped? then s.log + [Latched(gate.state.reason)] else s.log)
  }

  function MonitorStep(s: State, e: Event): State {
    match e
    case MonitorWakes(relay) =>
      if s.monitor != Listening then s
      else if relay then s.(relayPaths := s.relayPaths + 1, monitor := RelayEvent)
      else s.(monitor := Scanning)
    case MonitorSeesClose =>
      if s.monitor != Listening then s else s.(monitor := CloseEvent)
    case MonitorFeeds(at) =>
      (match s.monitor
       case RelayEvent => Feed(s, Snapshot(0, true, false), at, Scanning)
       case CloseEvent => Feed(s, Closed, at, Ended).(connectionClosed := true)
       case Applying(snapshot) => Feed(s, snapshot, at, Checking)
       case _ => s)
    case MonitorScans(open, relays, selected) =>
      if s.monitor != Scanning then s
      else s.(relayPaths := s.relayPaths + relays, monitor := Applying(Snapshot(open, relays > 0, selected)))
    case MonitorChecks =>
      if s.monitor != Checking then s
      else if s.gate.state.Stopped? then s.(connectionClosed := true, monitor := Ended)
      else s.(monitor := Listening)
    case MonitorCancelled =>
      if s.monitor != Listening then s else s.(monitor := Ended)
    case _ => s
  }

  // ---------------------------------------------------------------- the sender

  function Totals(s: State, reason: Option<StopReason>): Stats {
    Stats(|s.times|, |s.times| * Whole(s.size), |s.times| * s.size, reason)
  }

  function SenderStep(s: State, e: Event): State {
    match e
    case SenderWaits =>
      if s.sender != Awaiting then s
      else (match s.gate.state
            case DirectReady => s.(sender := Selecting)
            case Stopped(_) => s.(sender := Leaving)
            case AwaitingDirect => s)
    case SenderTimesOut =>
      if s.sender != Awaiting then s else s.(sender := Returned(NeverReady, Totals(s, None)))
    case SenderWakes =>
      if s.sender != Selecting then s else s.(sender := Woken)
    case SenderPastDeadline =>
      if s.sender != Selecting then s else s.(sender := Finishing)
    case SenderWatches =>
      if s.sender != Woken then s
      else if s.gate.state.Stopped? then s.(sender := Leaving)
      else s.(sender := Watched)
    case SenderLooksAtClock(expired) =>
      if s.sender != Watched then s else s.(sender := if expired then Finishing else AtCheck)
    case SenderChecks =>
      if s.sender != AtCheck then s
      else if s.gate.state == DirectReady then s.(sender := Cleared, log := s.log + [Checked])
      else s.(sender := Leaving)
    case SenderBegins(now) =>
      if s.sender != Cleared then s
      else s.(sender := Writing, log := s.log + [Began], at := now, written := 0,
              frame := EncodeFrame(Wrap(|s.times|), now, Filler(s.size)))
    case SenderPuts(count) =>
      if s.sender != Writing || s.written + count > |s.frame| then s
      else s.(wire := s.wire + s.frame[s.written..s.written + count], written := s.written + count)
    case SenderFlushes =>
      if s.sender != Writing || s.written < |s.frame| then s else s.(sender := Flushing)
    case SenderCompletes =>
      if s.sender != Flushing then s
      else s.(sender := Selecting, times := s.times + [s.at], frame := [], written := 0)
    case SenderStreamFails(closed) =>
      if !s.sender.Writing? && !s.sender.Flushing? then s
      else s.(sender := if closed then Broken else Returned(StreamFailed, Totals(s, None)))
    case SenderAsksReason =>
      (match s.sender
       case Leaving => s.(sender := Returned(AtGate, Totals(s, ReasonOf(s.gate.state))))
       case Broken =>
         var reason := if s.gate.state.Stopped? then s.gate.state.reason else ConnectionClosed;
         s.(sender := Returned(StreamClosed, Totals(s, Some(reason))))
       case _ => s)
    case SenderFinishes =>
      if s.sender != Finishing then s else s.(sender := Returned(AtDeadline, Totals(s, None)))
    case _ => s
  }

  function Next(s: State, e: Event): State {
    if e.MonitorWakes? || e.MonitorSeesClose? || e.MonitorFeeds? || e.MonitorScans? || e.MonitorChecks?
       || e.MonitorCancelled?
    then MonitorStep(s, e) else SenderStep(s, e)
  }

  /** Any interleaving of any steps: a step that is not possible where it stands changes nothing. */
  function Run(s: State, events: seq<Event>): State {
    if events == [] then s else Next(Run(s, events[..|events| - 1]), events[|events| - 1])
  }

  // ---------------------------------------------------------------- the log

  /** Nothing between these positions is the beginning of a write. */
  predicate Quiet(log: seq<Mark>, from: int, to: int) {
    forall m :: 0 <= m < |log| && from < m < to ==> log[m] != Began
  }

  predicate NoLatch(log: seq<Mark>, to: int) {
    forall m :: 0 <= m < |log| && m < to ==> !log[m].Latched?
  }

  /** Position j holds the locked check that clears position k: it saw the gate ready, for this write alone. */
  predicate Clears(log: seq<Mark>, j: int, k: int) {
    0 <= j < |log| && j < k && log[j] == Checked && Quiet(log, j, k) && NoLatch(log, j)
  }

  /** Every write begins behind a locked check of its own. */
  ghost predicate EveryWriteCleared(log: seq<Mark>) {
    forall k :: 0 <= k < |log| && log[k] == Began ==> exists j :: Clears(log, j, k)
  }

  lemma ClearsGrows(log: seq<Mark>, m: Mark, j: int, k: int)
    requires k <= |log|
    ensures Clears(log, j, k) ==> Clears(log + [m], j, k)
    ensures Clears(log, j, |log|) && m != Began ==> Clears(log + [m], j, |log| + 1)
  {
  }

  lemma LogGrows(log: seq<Mark>, m: Mark)
    requires EveryWriteCleared(log)
    requires m == Began ==> exists j :: Clears(log, j, |log|)
    ensures EveryWriteCleared(log + [m])
  {
    var longer := log + [m];
    forall k | 0 <= k < |longer| && longer[k] == Began
      ensures exists j :: Clears(longer, j, k)
    {
      var j :| Clears(log, j, k);
      ClearsGrows(log, m, j, k);
    }
  }

  /** So at most one write begins after the gate has latched. */
  lemma OneWriteAfterLatch(log: seq<Mark>, l: nat, a: nat, b: nat)
    requires EveryWriteCleared(log)
    requires l < |log| && log[l].Latched?
    requires l < a < |log| && l < b < |log|
    requires log[a] == Began && log[b] == Began
    ensures a == b
  {
    assert a < b ==> forall j :: !Clears(log, j, b);
    assert b < a ==> forall j :: !Clears(log, j, a);
  }

  // ---------------------------------------------------------------- the invariant

  /** The monitor has a signal in hand that will stop the gate for a relay path. */
  predicate RelayInHand(m: Monitor) {
    m.RelayEvent? || (m.Applying? && m.snapshot.Snapshot? && m.snapshot.hasRelay)
  }

  ghost predicate MonitorInv(s: State) {
    && (s.relayPaths > 0 ==> s.gate.state.Stopped? || RelayInHand(s.monitor))
    && (s.gate.state == Stopped(RelayPathObserved) || RelayInHand(s.monitor) ==> s.relayPaths > 0)
    && (s.monitor.Listening? || s.monitor.CloseEvent? || s.monitor.RelayEvent? ==> !s.gate.state.Stopped?)
    && (s.connectionClosed ==> s.monitor == Ended)
    && (s.monitor == Ended ==> (s.gate.state.Stopped? <==> s.connectionClosed))
  }

  ghost predicate LogInv(s: State) {
    && EveryWriteCleared(s.log)
    && (s.sender.Cleared? ==> exists j :: Clears(s.log, j, |s.log|))
    && (!s.gate.state.Stopped? ==> NoLatch(s.log, |s.log|))
    && (forall i :: 0 <= i < |s.log| && s.log[i].Latched? ==> s.gate.state == Stopped(s.log[i].reason))
  }

  ghost predicate SenderInv(s: State) {
    && (!s.sender.Awaiting? && !s.sender.Returned? ==> s.gate.state != AwaitingDirect)
    && (s.sender.Leaving? ==> s.gate.state.Stopped?)
    && (s.sender.Returned? && s.sender.exit == AtGate ==>
          s.gate.state.Stopped? && s.sender.stats == Totals(s, Some(s.gate.state.reason)))
    && (s.sender.Returned? && s.sender.exit == AtDeadline ==> s.sender.stats == Totals(s, None) && s.frame == [])
    && (s.sender.Returned? && s.sender.exit == StreamClosed ==>
          s.sender.stats.stopReason.Some? && s.sender.stats == Totals(s, s.sender.stats.stopReason))
  }

  /** The wire holds the completed frames and what is written of the current one. */
  ghost predicate WireInv(s: State) {
    && s.written <= |s.frame|
    && s.wire == Wire(s.times, s.size) + s.frame[..s.written]
    && (s.frame == [] || s.frame == EncodeFrame(Wrap(|s.times|), s.at, Filler(s.size)))
    && (s.sender.Flushing? ==> s.frame != [] && s.written == |s.frame|)
    && (s.sender.Writing? ==> s.frame != [])
    && (!s.sender.Writing? && !s.sender.Flushing? && !s.sender.Broken? && !s.sender.Returned? ==> s.frame == [])
  }

  ghost predicate Inv(s: State) {
    && MonitorInv(s)
    && LogInv(s)
    && SenderInv(s)
    && WireInv(s)
  }

  lemma FeedKeeps(s: State, signal: Signal, at: nat, next: Monitor)
    requires LogInv(s) && SenderInv(s) && WireInv(s)
    ensures var t := Feed(s, signal, at, next); LogInv(t) && SenderInv(t) && WireInv(t)
  {
    var t := Feed(s, signal, at, next);
    if t.gate.state.Stopped? && !s.gate.state.Stopped? {
      var m := Latched(t.gate.state.reason);
      LogGrows(s.log, m);
      if s.sender.Cleared? {
        var j :| Clears(s.log, j, |s.log|);
        ClearsGrows(s.log, m, j, |s.log|);
      }
    }
  }

  lemma MonitorGoesOn(s: State, e: Event)
    requires MonitorInv(s)
    ensures MonitorInv(MonitorStep(s, e))
  {
  }

  lemma MonitorKeeps(s: State, e: Event)
    requires Inv(s)
    ensures Inv(MonitorStep(s, e))
  {
    MonitorGoesOn(s, e);
    hide MonitorInv;
    match e
    case MonitorFeeds(at) =>
      match s.monitor {
        case RelayEvent => FeedKeeps(s, Snapshot(0, true, false), at, Scanning);
        case CloseEvent => FeedKeeps(s, Closed, at, Ended);
        case Applying(snapshot) => FeedKeeps(s, snapshot, at, Checking);
        case _ =>
      }
    case _ =>
  }

  lemma SenderLeavesMonitor(s: State, e: Event)
    requires MonitorInv(s)
    ensures MonitorInv(SenderStep(s, e))
  {
  }

  lemma SenderLogKeeps(s: State, e: Event)
    requires LogInv(s)
    ensures LogInv(SenderStep(s, e))
  {
    hide EncodeFrame, Totals, Wrap;
    match e
    case SenderChecks =>
      LogGrows(s.log, Checked);
      if s.sender == AtCheck && s.gate.state == DirectReady {
        assert Clears(s.log + [Checked], |s.log|, |s.log| + 1);
      }
    case SenderBegins(now) =>
      if s.sender == Cleared {
        LogGrows(s.log, Began);
      }
    case _ =>
  }

  lemma SenderExitKeeps(s: State, e: Event)
    requires SenderInv(s) && WireInv(s)
    ensures SenderInv(SenderStep(s, e))
  {
  }

  lemma SenderWireKeeps(s: State, e: Event)
    requires WireInv(s)
    ensures WireInv(SenderStep(s, e))
  {
    hide EncodeFrame, Totals, Wrap, WireFrom;
    match e
    case SenderPuts(count) =>
      if s.sender == Writing && s.written + count <= |s.frame| {
        PutExtends(Wire(s.times, s.size), s.frame, s.written, count);
      }
    case SenderCompletes =>
      if s.sender == Flushing {
        WireGrows(0, s.times, s.size, s.at);
        assert s.frame[..s.written] == s.frame;
      }
    case _ =>
  }

  lemma PutExtends(before: seq<byte>, frame: seq<byte>, from: nat, count: nat)
    requires from + count <= |frame|
    ensures before + frame[..from] + frame[from..from + count] == before + frame[..from + count]
  {
  }

  /** Every step of either task keeps the invariant. */
  lemma NextKeeps(s: State, e: Event)
    requires Inv(s)
    ensures Inv(Next(s, e))
  {
    MonitorKeeps(s, e);
    SenderLeavesMonitor(s, e);
    SenderLogKeeps(s, e);
    SenderExitKeeps(s, e);
    SenderWireKeeps(s, e);
  }

  lemma {:induction false} RunKeeps(size: nat, events: seq<Event>)
    ensures Inv(Run(Start(size), events)) && Run(Start(size), events).size == size
  {
    if events == [] {
      StartHolds(size);
    } else {
      var before, last := events[..|events| - 1], events[|events| - 1];
      RunKeeps(size, before);
      NextKeeps(Run(Start(size), before), last);
      SizeStays(Run(Start(size), before), last);
      hide Inv, Next, Start;
      assert Run(Start(size), events) == Next(Run(Start(size), before), last);
    }
  }

  lemma StartHolds(size: nat)
    ensures Inv(Start(size))
  {
  }

  lemma SizeStays(s: State, e: Event)
    ensures Next(s, e).size == s.size
  {
  }

  // ---------------------------------------------------------------- main results

  /**
   * In every interleaving: each frame write begins behind a locked check of its own
   * that saw the gate ready, and at most one write begins after the gate latches.
   */
  lemma WritesFailClosed(size: nat, events: seq<Event>)
    ensures var log := Run(Start(size), events).log;
      && EveryWriteCleared(log)
      && forall l: nat, a: nat, b: nat ::
           l < |log| && log[l].Latched? && l < a < |log| && l < b < |log| && log[a] == Began && log[b] == Began
           ==> a == b
  {
    RunKeeps(size, events);
    var log := Run(Start(size), events).log;
    forall l: nat, a: nat, b: nat |
      l < |log| && log[l].Latched? && l < a < |log| && l < b < |log| && log[a] == Began && log[b] == Began
      ensures a == b
    {
      OneWriteAfterLatch(log, l, a, b);
    }
  }

  /** A sender that leaves through either of its gate checks reports the reason the gate latched with. */
  lemma LeavesWithReason(size: nat, events: seq<Event>)
    ensures var s := Run(Start(size), events);
      s.sender.Returned? && s.sender.exit == AtGate ==>
        s.gate.state.Stopped? && s.sender.stats.stopReason == Some(s.gate.state.reason)
  {
    RunKeeps(size, events);
  }

  /**
   * What is on the wire is always the completed frames, numbered in order, and a prefix
   * of the one in progress; a sender that runs to its deadline has nothing in progress
   * and its totals count exactly the frames on the wire.
   */
  lemma WireMatchesTotals(size: nat, events: seq<Event>)
    ensures var s := Run(Start(size), events);
      && (exists k: nat :: k <= |s.frame| && s.wire == Wire(s.times, size) + s.frame[..k])
      && (s.sender.Returned? && s.sender.exit == AtDeadline ==>
            s.wire == Wire(s.times, size)
            && s.sender.stats == Stats(|s.times|, |s.wire|, |s.times| * size, None))
  {
    RunKeeps(size, events);
    hide Run;
    var s := Run(Start(size), events);
    WireLength(0, s.times, size);
    hide WireFrom, EncodeFrame, LogInv, MonitorInv;
    assert s.written <= |s.frame| && s.wire == Wire(s.times, size) + s.frame[..s.written];
  }

  /**
   * The relay counter is a proof of absence: once the monitor has ended, a gate that is
   * not stopped means no relay path was ever counted, and a gate stopped for a relay
   * path means one was. The monitor ends with the connection closed exactly when the
   * gate has latched.
   */
  lemma RelayCounterIsProof(size: nat, events: seq<Event>)
    ensures var s := Run(Start(size), events);
      && (s.monitor == Ended && !s.gate.state.Stopped? ==> s.relayPaths == 0)
      && (s.gate.state == Stopped(RelayPathObserved) ==> s.relayPaths > 0)
      && (s.monitor == Ended ==> (s.connectionClosed <==> s.gate.state.Stopped?))
  {
    RunKeeps(size, events);
  }

  // ---------------------------------------------------------------- the bound is tight

  lemma RunSnoc(s: State, events: seq<Event>, e: Event)
    ensures Run(s, events + [e]) == Next(Run(s, events), e)
  {
    assert (events + [e])[..|events|] == events;
  }

  lemma {:induction false} RunJoins(s: State, a: seq<Event>, b: seq<Event>)
    ensures Run(s, a + b) == Run(Run(s, a), b)
  {
    if b == [] {
      assert a + b == a;
    } else {
      assert (a + b)[..|a + b| - 1] == a + b[..|b| - 1];
      RunJoins(s, a, b[..|b| - 1]);
    }
  }

  lemma RunNothing(s: State)
    ensures Run(s, []) == s
  {
  }

  lemma Two(s: State, a: Event, b: Event)
    ensures Run(s, [a, b]) == Next(Next(s, a), b)
  {
    hide *;
    RunNothing(s);
    RunSnoc(s, [], a);
    RunSnoc(s, [a], b);
    assert [] + [a] == [a];
    assert [a] + [b] == [a, b];
  }

  lemma Four(s: State, a: Event, b: Event, c: Event, d: Event)
    ensures Run(s, [a, b, c, d]) == Next(Next(Next(Next(s, a), b), c), d)
  {
    hide *;
    Two(s, a, b);
    Two(Next(Next(s, a), b), c, d);
    RunJoins(s, [a, b], [c, d]);
    assert [a, b] + [c, d] == [a, b, c, d];
  }

  lemma GetsReady(size: nat) returns (events: seq<Event>)
    ensures Run(Start(size), events) == Start(size).(gate := Gate(DirectReady, true, Some(0), 1))
  {
    events := [MonitorWakes(false), MonitorScans(1, 0, true), MonitorFeeds(0), MonitorChecks];
    Four(Start(size), events[0], events[1], events[2], events[3]);
    hide Run;
  }

  lemma ReachesCheck(s: State) returns (events: seq<Event>)
    requires s.gate.state == DirectReady && s.sender == Awaiting
    ensures Run(s, events) == s.(sender := AtCheck)
  {
    events := [SenderWaits, SenderWakes, SenderWatches, SenderLooksAtClock(false)];
    Four(s, events[0], events[1], events[2], events[3]);
    hide Run;
  }

  lemma LatchesInBetween(s: State) returns (events: seq<Event>)
    requires s.gate.state == DirectReady && s.sender == AtCheck && s.monitor == Listening
    ensures Run(s, events).log == s.log + [Checked, Latched(ConnectionClosed), Began]
  {
    events := [SenderChecks, MonitorSeesClose, MonitorFeeds(1), SenderBegins(1)];
    Four(s, events[0], events[1], events[2], events[3]);
    hide Run, EncodeFrame;
  }

  /** One write after the latch does happen: the gate may close between its check and its beginning. */
  lemma LateWriteHappens(size: nat) returns (events: seq<Event>)
    ensures Run(Start(size), events).log == [Checked, Latched(ConnectionClosed), Began]
  {
    var ready := GetsReady(size);
    var s1 := Start(size).(gate := Gate(DirectReady, true, Some(0), 1));
    var ask := ReachesCheck(s1);
    var race := LatchesInBetween(s1.(sender := AtCheck));
    RunJoins(Start(size), ready, ask);
    RunJoins(Start(size), ready + ask, race);
    events := ready + ask + race;
    hide Run;
  }
}
