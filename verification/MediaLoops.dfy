/**
 * The monitor loop and the streaming loop (crates/media-separation/src/lib.rs) as the
 * loops they are. What a loop learns from outside at each turn (the wake-up, the open
 * paths, the gate states it sees, the outcome of a write) is its script.
 */
module MediaLoops {
  import opened Base
  import opened Bytes
  import opened MediaGate
  import opened MediaFraming
  import opened MediaSession

  // ---------------------------------------------------------------- the monitor

  datatype Path = Path(relay: bool, selected: bool)

  datatype Wake = PathEvent(relay: bool) | Tick | ConnectionGone

  /** One turn: why the select returned, and the paths open when they are listed. */
  datatype Turn = Turn(wake: Wake, paths: seq<Path>, at: nat)

  function Relays(paths: seq<Path>): (n: nat)
    ensures n <= |paths|
    ensures n > 0 <==> exists p :: p in paths && p.relay
  {
    if paths == [] then 0
    else
      var rest, last := paths[..|paths| - 1], paths[|paths| - 1];
      assert paths == rest + [last];
      Relays(rest) + if last.relay then 1 else 0
  }

  /** The places of the relayed paths, or of the direct ones. */
  function Places(paths: seq<Path>, relay: bool): set<nat> {
    set i | 0 <= i < |paths| && paths[i].relay == relay
  }

  lemma PlacesGrow(rest: seq<Path>, last: Path, relay: bool)
    ensures Places(rest + [last], relay) == Places(rest, relay) + if last.relay == relay then {|rest|} else {}
    ensures |rest| !in Places(rest, relay)
  {
    var all := rest + [last];
    assert all[|rest|] == last && forall i :: 0 <= i < |rest| ==> all[i] == rest[i];
  }

  /** Relayed and direct paths are counted exactly. */
  lemma {:induction false} RelaysAreCounted(paths: seq<Path>)
    ensures Relays(paths) == |Places(paths, true)| && |paths| - Relays(paths) == |Places(paths, false)|
  {
    if paths == [] {
      assert Places(paths, true) == {} && Places(paths, false) == {};
    } else {
      hide Places;
      var rest, last := paths[..|paths| - 1], paths[|paths| - 1];
      assert paths == rest + [last];
      RelaysAreCounted(rest);
      PlacesGrow(rest, last, true);
      PlacesGrow(rest, last, false);
    }
  }

  function SnapshotOf(paths: seq<Path>): Signal {
    Snapshot(|paths| - Relays(paths),
             exists p :: p in paths && p.relay,
             exists p :: p in paths && !p.relay && p.selected)
  }

  /** The signals one turn feeds to the gate. */
  function TurnSignals(t: Turn): seq<Timed> {
    match t.wake
    case ConnectionGone => [Timed(Closed, t.at)]
    case PathEvent(relay) =>
      (if relay then [Timed(Snapshot(0, true, false), t.at)] else []) + [Timed(SnapshotOf(t.paths), t.at)]
    case Tick => [Timed(SnapshotOf(t.paths), t.at)]
  }

  function TurnRelays(t: Turn): nat {
    match t.wake
    case ConnectionGone => 0
    case PathEvent(relay) => (if relay then 1 else 0) + Relays(t.paths)
    case Tick => Relays(t.paths)
  }

  function Signals(turns: seq<Turn>): seq<Timed> {
    if turns == [] then [] else Signals(turns[..|turns| - 1]) + TurnSignals(turns[|turns| - 1])
  }

  /** Counts the open paths: the relayed ones, the direct ones, and whether a direct one is selected. */
  method Scan(paths: seq<Path>) returns (openDirect: nat, relays: nat, selectedDirect: bool)
    ensures SnapshotOf(paths) == Snapshot(openDirect, relays > 0, selectedDirect)
    ensures relays == Relays(paths) && openDirect + relays == |paths|
    ensures selectedDirect ==> openDirect > 0
  {
    openDirect, relays, selectedDirect := 0, 0, false;
    for i := 0 to |paths|
      invariant relays == Relays(paths[..i]) && openDirect + relays == i
      invariant selectedDirect <==> exists p :: p in paths[..i] && !p.relay && p.selected
      invariant selectedDirect ==> openDirect > 0
    {
      assert paths[..i + 1] == paths[..i] + [paths[i]];
      assert paths[..i + 1][..i] == paths[..i];
      if paths[i].relay {
        relays := relays + 1;
      } else {
        openDirect := openDirect + 1;
        if paths[i].selected {
          selectedDirect := true;
        }
      }
    }
    assert paths[..|paths|] == paths;
  }

  /** Everything the monitor feeds says an open direct path wherever it says a selected one. */
  predicate Sound(trace: seq<Timed>) {
    forall i :: 0 <= i < |trace| && Selects(trace[i]) ==> Opens(trace[i])
  }

  /** Reconciles the gate from the open paths. */
  method Reconcile(gate: MediaGate, paths: seq<Path>, at: nat) returns (relays: nat, decision: GateState)
    requires gate.Valid() && Sound(gate.trace)
    modifies gate
    ensures gate.Valid() && Sound(gate.trace)
    ensures gate.trace == old(gate.trace) + [Timed(SnapshotOf(paths), at)]
    ensures decision == gate.state == Reading(gate.trace)
    ensures relays == Relays(paths)
    ensures old(gate.state.Stopped?) ==> decision == old(gate.state)
    ensures relays > 0 ==> decision.Stopped?
    ensures decision == Stopped(RelayPathObserved) ==> relays > 0 || old(gate.state.Stopped?)
  {
    hide SnapshotOf, Relays, Reading;
    var openDirect, selectedDirect;
    openDirect, relays, selectedDirect := Scan(paths);
    decision := gate.Feed(Snapshot(openDirect, relays > 0, selectedDirect), at);
  }

  /** One turn: a counted relay path latches the gate, and a relay stop was counted. */
  method TakeTurn(gate: MediaGate, t: Turn) returns (relayPaths: nat, decision: GateState)
    requires gate.Valid() && !gate.state.Stopped? && Sound(gate.trace)
    modifies gate
    ensures gate.Valid() && Sound(gate.trace)
    ensures gate.trace == old(gate.trace) + TurnSignals(t)
    ensures decision == gate.state == Reading(gate.trace)
    ensures relayPaths == TurnRelays(t)
    ensures relayPaths > 0 ==> decision.Stopped?
    ensures decision == Stopped(RelayPathObserved) ==> relayPaths > 0
    ensures t.wake == ConnectionGone ==> decision == Stopped(ConnectionClosed)
    ensures t.wake != ConnectionGone && (exists p :: p in t.paths && p.relay) ==> decision.Stopped?
    ensures t.wake == PathEvent(true) ==> decision.Stopped?
  {
    hide SnapshotOf, Relays, Reading, Fold;
    relayPaths := 0;
    match t.wake {
      case ConnectionGone =>
        decision := gate.Feed(Closed, t.at);
        return;
      case PathEvent(relay) =>
        if relay {
          relayPaths := 1;
          decision := gate.Feed(Snapshot(0, true, false), t.at);
        }
      case Tick =>
    }
    var relays;
    relays, decision := Reconcile(gate, t.paths, t.at);
    relayPaths := relayPaths + relays;
  }

  /**
   * Runs until the gate latches or the script ends. It has fed exactly the signals of
   * the turns it took, went on at no turn that had latched the gate, and closed (or saw
   * closed) the connection exactly if it latched; a counted relay path latches the gate.
   */
  method MonitorLoop(gate: MediaGate, turns: seq<Turn>) returns (taken: nat, relayPaths: nat, closed: bool)
    requires gate.Valid() && !gate.state.Stopped?
    requires Sound(gate.trace)
    modifies gate
    ensures gate.Valid() && Sound(gate.trace)
    ensures taken <= |turns| && gate.trace == old(gate.trace) + Signals(turns[..taken])
    ensures gate.state == Reading(old(gate.trace) + Signals(turns[..taken]))
    ensures taken < |turns| ==> gate.state.Stopped?
    ensures forall i :: 0 <= i < taken ==> !Reading(old(gate.trace) + Signals(turns[..i])).Stopped?
    ensures closed <==> gate.state.Stopped?
    ensures relayPaths == Total(turns[..taken], TurnRelays)
    ensures relayPaths > 0 ==> gate.state.Stopped?
    ensures gate.state == Stopped(RelayPathObserved) ==> relayPaths > 0
  {
    hide Reading, TurnSignals, TurnRelays, Sound, Fold;
    taken, relayPaths, closed := 0, 0, false;
    ghost var before := gate.trace;
    assert before + Signals(turns[..0]) == before;
    FoldIsReading(before);
    while taken < |turns|
      invariant taken <= |turns| && gate.Valid() && !gate.state.Stopped? && !closed
      invariant gate.trace == before + Signals(turns[..taken]) && Sound(gate.trace)
      invariant gate.state == Reading(gate.trace)
      invariant forall i :: 0 <= i <= taken ==> !Reading(before + Signals(turns[..i])).Stopped?
      invariant relayPaths == Total(turns[..taken], TurnRelays) == 0
    {
      var t := turns[taken];
      ghost var fed := Signals(turns[..taken]);
      assert turns[..taken + 1] == turns[..taken] + [t];
      assert Signals(turns[..taken + 1]) == fed + TurnSignals(t);
      TotalAppend(turns[..taken], TurnRelays, t);
      var relays, decision := TakeTurn(gate, t);
      assert gate.trace == before + (fed + TurnSignals(t));
      taken, relayPaths := taken + 1, relayPaths + relays;
      if decision.Stopped? {
        closed := true;
        return;
      }
    }
  }

  // ---------------------------------------------------------------- the sender

  datatype Outcome = Completed | ClosedAfter(bytes: nat) | FailedAfter(bytes: nat)

  /**
   * One turn of the streaming loop: whether the select returned at the deadline, the
   * states of the gate each time it is looked at, the clock, and the outcome of the write.
   */
  datatype SendTurn = SendTurn(
    past: bool, watched: GateState, expired: bool, locked: GateState, reason: GateState, now: nat, outcome: Outcome)

  /** The states seen over time are those of one gate: it never reopens. */
  predicate Follows(a: GateState, b: GateState) {
    Rank(a) <= Rank(b) && (a.Stopped? ==> b == a)
  }

  predicate OneGate(turns: seq<SendTurn>) {
    && (forall i :: 0 <= i < |turns| ==> turns[i].watched != AwaitingDirect
                                         && Follows(turns[i].watched, turns[i].locked)
                                         && Follows(turns[i].locked, turns[i].reason))
    && (forall i :: 0 < i < |turns| ==> Follows(turns[i - 1].reason, turns[i].watched))
  }

  lemma GateAtTurn(turns: seq<SendTurn>, i: nat)
    requires OneGate(turns) && i < |turns|
    ensures turns[i].watched.Stopped? ==> turns[i].reason == turns[i].locked == turns[i].watched
    ensures turns[i].locked.Stopped? ==> turns[i].reason == turns[i].locked
    ensures turns[i].locked.Stopped? || turns[i].locked.DirectReady?
  {
  }

  /** This turn writes its whole frame. */
  predicate Sends(t: SendTurn) {
    !t.past && !t.expired && t.watched == DirectReady && t.locked == DirectReady && t.outcome.Completed?
  }

  /** One of the two gate checks of this turn finds the gate stopped. */
  predicate RefusedByGate(t: SendTurn) {
    !t.past && (t.watched.Stopped? || (!t.expired && t.locked.Stopped?))
  }

  /** The turn finds its time over: at its select, or at the clock behind an open first gate check. */
  predicate OutOfTime(t: SendTurn) {
    t.past || (!t.watched.Stopped? && t.expired)
  }

  /** The turn goes as far as its write. */
  predicate Writes(t: SendTurn) {
    !t.past && !t.watched.Stopped? && !t.expired && t.locked == DirectReady
  }

  function Times(turns: seq<SendTurn>): (times: seq<nat>)
    ensures |times| == |turns|
  {
    seq(|turns|, i requires 0 <= i < |turns| => turns[i].now)
  }

  /**
   * Runs until a turn does not send, or the script ends. Every turn before the last
   * found the gate ready under the lock and put one whole frame on the wire; the wire
   * holds those frames and at most a part of one more; the totals count the whole ones;
   * leaving at a gate check gives the reason the gate latched with.
   */
  method StreamingTask(size: nat, turns: seq<SendTurn>)
    returns (wire: seq<byte>, stats: Stats, exit: Option<Exit>, sent: nat)
    requires OneGate(turns)
    ensures sent <= |turns| && forall i :: 0 <= i < sent ==> Sends(turns[i])
    ensures exit.None? <==> sent == |turns|
    ensures sent < |turns| ==> !Sends(turns[sent])
    ensures stats == Stats(sent, sent * Whole(size), sent * size, stats.stopReason)
    ensures exit == Some(AtGate) <==> sent < |turns| && RefusedByGate(turns[sent])
    ensures exit == Some(AtDeadline) <==> sent < |turns| && OutOfTime(turns[sent])
    ensures exit == Some(StreamClosed) <==>
      sent < |turns| && Writes(turns[sent]) && turns[sent].outcome.ClosedAfter?
    ensures exit == Some(StreamFailed) <==>
      sent < |turns| && Writes(turns[sent]) && turns[sent].outcome.FailedAfter?
    ensures exit == Some(AtGate) ==> stats.stopReason == Some(turns[sent].reason.reason)
    ensures exit == Some(StreamClosed) ==>
      stats.stopReason == Some(if turns[sent].reason.Stopped? then turns[sent].reason.reason else ConnectionClosed)
    ensures exit != Some(AtGate) && exit != Some(StreamClosed) ==> stats.stopReason == None
    ensures exit in {None, Some(AtGate), Some(AtDeadline)} ==> wire == Wire(Times(turns[..sent]), size)
    ensures exit == Some(StreamClosed) || exit == Some(StreamFailed) ==>
      && turns[sent].locked == DirectReady && !turns[sent].outcome.Completed?
      && wire == Wire(Times(turns[..sent]), size) + Part(Wrap(sent), turns[sent], size)
  {
    wire, stats, exit, sent := [], Stats(0, 0, 0, None), None, 0;
    assert Wire(Times(turns[..0]), size) == [];
    while sent < |turns|
      invariant sent <= |turns| && exit.None?
      invariant forall i :: 0 <= i < sent ==> Sends(turns[i])
      invariant stats == Stats(sent, sent * Whole(size), sent * size, None)
      invariant wire == Wire(Times(turns[..sent]), size)
    {
      hide Wire, EncodeFrame, OneGate;
      var t := turns[sent];
      GateAtTurn(turns, sent);
      if t.past {
        exit := Some(AtDeadline);
        return;
      }
      if t.watched.Stopped? {
        stats := stats.(stopReason := ReasonOf(t.reason));
        exit := Some(AtGate);
        return;
      }
      if t.expired {
        exit := Some(AtDeadline);
        return;
      }
      if t.locked != DirectReady {
        stats := stats.(stopReason := ReasonOf(t.reason));
        exit := Some(AtGate);
        return;
      }
      var frame := EncodeFrame(Wrap(sent), t.now, Filler(size));
      match t.outcome {
        case Completed =>
          WireGrows(0, Times(turns[..sent]), size, t.now);
          assert Times(turns[..sent]) + [t.now] == Times(turns[..sent + 1]);
          AnotherFrame(sent, size);
          wire := wire + frame;
          stats := Stats(stats.frames + 1, stats.bytesOnWire + |frame|, stats.payloadBytes + size, None);
          sent := sent + 1;
        case ClosedAfter(bytes) =>
          wire := wire + frame[..Min(bytes, |frame|)];
          var gateReason := ReasonOf(t.reason);
          stats := stats.(stopReason := if gateReason.Some? then gateReason else Some(ConnectionClosed));
          exit := Some(StreamClosed);
          return;
        case FailedAfter(bytes) =>
          wire := wire + frame[..Min(bytes, |frame|)];
          exit := Some(StreamFailed);
          return;
      }
    }
  }

  /** The part of its frame that a turn whose write broke off had written. */
  function Part(sequence: nat, t: SendTurn, size: nat): seq<byte>
    requires !t.outcome.Completed?
  {
    var frame := EncodeFrame(sequence, t.now, Filler(size));
    frame[..Min(t.outcome.bytes, |frame|)]
  }

  lemma AnotherFrame(n: nat, size: nat)
    ensures (n + 1) * Whole(size) == n * Whole(size) + Whole(size)
    ensures (n + 1) * size == n * size + size
  {
  }
}
