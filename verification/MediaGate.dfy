/**
 * The latching fail-closed media gate (crates/media-separation/src/lib.rs):
 * the object that is fed one path signal at a time, and the reading of a whole
 * trace of signals that it computes.
 */
module MediaGate {
  import opened Base

  datatype StopReason = RelayPathObserved | DirectPathLost | ConnectionClosed

  datatype GateState = AwaitingDirect | DirectReady | Stopped(reason: StopReason)

  datatype Signal =
    | Snapshot(openDirect: nat, hasRelay: bool, selectedDirect: bool)
    | Closed

  /** A signal and the clock reading, in unix milliseconds, at which it is applied. */
  datatype Timed = Timed(signal: Signal, at: nat)

  /**
   * The gate as a value. `version` counts the notifications sent on the watch
   * channel: a receiver is woken exactly when it grows.
   */
  datatype Gate = Gate(state: GateState, everHadDirect: bool, readyAt: Option<nat>, version: nat)

  const NEW_GATE := Gate(AwaitingDirect, false, None, 0)

  // ---------------------------------------------------------------- one signal

  function Stop(g: Gate, reason: StopReason): Gate {
    g.(state := Stopped(reason), version := g.version + 1)
  }

  function Apply(g: Gate, t: Timed): Gate {
    if g.state.Stopped? then g
    else
      match t.signal
      case Closed => Stop(g, ConnectionClosed)
      case Snapshot(openDirect, hasRelay, selectedDirect) =>
        if hasRelay then Stop(g, RelayPathObserved)
        else if openDirect == 0 && g.everHadDirect then Stop(g, DirectPathLost)
        else
          var seen := g.(everHadDirect := g.everHadDirect || openDirect > 0);
          if selectedDirect then
            seen.(readyAt := if g.readyAt.None? then Some(t.at) else g.readyAt,
                  state := DirectReady,
                  version := if g.state == DirectReady then g.version else g.version + 1)
          else if g.state == DirectReady then Stop(seen, DirectPathLost)
          else seen
  }

  function ReasonOf(g: GateState): Option<StopReason> {
    if g.Stopped? then Some(g.reason) else None
  }

  /** The gate after a whole trace of signals. */
  function Fold(trace: seq<Timed>): Gate {
    if trace == [] then NEW_GATE
    else Apply(Fold(trace[..|trace| - 1]), trace[|trace| - 1])
  }

  // ---------------------------------------------------------------- reading a trace

  predicate Opens(t: Timed) {
    t.signal.Snapshot? && t.signal.openDirect > 0
  }

  predicate Selects(t: Timed) {
    t.signal.Snapshot? && t.signal.selectedDirect
  }

  /** Why the signal at position i is fatal, in terms of the signals before it. */
  function FatalAt(trace: seq<Timed>, i: nat): Option<StopReason>
    requires i < |trace|
  {
    match trace[i].signal
    case Closed => Some(ConnectionClosed)
    case Snapshot(openDirect, hasRelay, selectedDirect) =>
      if hasRelay then Some(RelayPathObserved)
      else if openDirect == 0 && exists j :: 0 <= j < i && Opens(trace[j]) then Some(DirectPathLost)
      else if !selectedDirect && exists j :: 0 <= j < i && Selects(trace[j]) then Some(DirectPathLost)
      else None
  }

  /** The position of the first fatal signal, or the length of the trace. */
  function FirstFatal(trace: seq<Timed>): (n: nat)
    ensures n <= |trace|
    ensures forall i :: 0 <= i < n ==> FatalAt(trace, i).None?
    ensures n < |trace| ==> FatalAt(trace, n).Some?
  {
    FatalFrom(trace, 0)
  }

  function FatalFrom(trace: seq<Timed>, k: nat): (n: nat)
    requires k <= |trace|
    requires forall i :: 0 <= i < k ==> FatalAt(trace, i).None?
    ensures n <= |trace|
    ensures forall i :: 0 <= i < n ==> FatalAt(trace, i).None?
    ensures n < |trace| ==> FatalAt(trace, n).Some?
    decreases |trace| - k
  {
    if k == |trace| || FatalAt(trace, k).Some? then k else FatalFrom(trace, k + 1)
  }

  /** The decision the trace as a whole calls for. */
  function Reading(trace: seq<Timed>): GateState {
    var n := FirstFatal(trace);
    if n < |trace| then Stopped(FatalAt(trace, n).value)
    else if exists i :: 0 <= i < |trace| && Selects(trace[i]) then DirectReady
    else AwaitingDirect
  }

  /** Position i carries the first selected direct path, and nothing fatal came before it. */
  predicate FirstReady(trace: seq<Timed>, i: nat) {
    && i < FirstFatal(trace)
    && Selects(trace[i])
    && forall j :: 0 <= j < i ==> !Selects(trace[j])
  }

  // ---------------------------------------------------------------- the two agree

  lemma FatalPrefix(trace: seq<Timed>, i: nat)
    requires i + 1 < |trace|
    ensures FatalAt(trace[..|trace| - 1], i) == FatalAt(trace, i)
  {
    var before := trace[..|trace| - 1];
    assert forall j :: 0 <= j <= i ==> before[j] == trace[j];
  }

  /** Cutting the last signal off keeps the first fatal position if it is inside. */
  lemma FirstFatalPrefix(trace: seq<Timed>)
    requires trace != []
    ensures var before := trace[..|trace| - 1];
      FirstFatal(before) == Min(FirstFatal(trace), |before|)
  {
    var before := trace[..|trace| - 1];
    forall i | 0 <= i < |before|
      ensures FatalAt(before, i) == FatalAt(trace, i)
    {
      FatalPrefix(trace, i);
    }
  }

  /** What the gate remembers of a trace that contains nothing fatal so far. */
  predicate Remembers(g: Gate, trace: seq<Timed>) {
    && (g.everHadDirect <==> exists i :: 0 <= i < |trace| && Opens(trace[i]))
    && (g.state == DirectReady <==> exists i :: 0 <= i < |trace| && Selects(trace[i]))
    && !g.state.Stopped?
  }

  lemma ExtendsMemory(trace: seq<Timed>, last: Timed)
    ensures (exists i :: 0 <= i < |trace + [last]| && Opens((trace + [last])[i]))
            <==> (exists i :: 0 <= i < |trace| && Opens(trace[i])) || Opens(last)
    ensures (exists i :: 0 <= i < |trace + [last]| && Selects((trace + [last])[i]))
            <==> (exists i :: 0 <= i < |trace| && Selects(trace[i])) || Selects(last)
  {
    var all := trace + [last];
    assert all[|trace|] == last;
    assert forall i :: 0 <= i < |trace| ==> all[i] == trace[i];
  }

  /**
   * Feeding signals one at a time computes the reading of the whole trace, whatever
   * the trace is: Stopped with the reason of its first fatal signal, otherwise
   * DirectReady exactly when some snapshot selected a direct path.
   */
  lemma {:induction false} FoldIsReading(trace: seq<Timed>)
    ensures Fold(trace).state == Reading(trace)
    ensures FirstFatal(trace) == |trace| ==> Remembers(Fold(trace), trace)
  {
    if trace == [] {
    } else {
      var before, last := trace[..|trace| - 1], trace[|trace| - 1];
      assert trace == before + [last];
      FoldIsReading(before);
      FirstFatalPrefix(trace);
      ExtendsMemory(before, last);
      var n := FirstFatal(trace);
      if n < |before| {
        FatalPrefix(trace, n);
      } else {
        MemoryDecides(trace);
      }
    }
  }

  /** With nothing fatal before it, the last signal is fatal exactly when the gate stops on it. */
  lemma MemoryDecides(trace: seq<Timed>)
    requires trace != []
    requires Remembers(Fold(trace[..|trace| - 1]), trace[..|trace| - 1])
    ensures var after := Apply(Fold(trace[..|trace| - 1]), trace[|trace| - 1]);
      match FatalAt(trace, |trace| - 1)
      case Some(reason) => after.state == Stopped(reason)
      case None => !after.state.Stopped?
  {
    var before := trace[..|trace| - 1];
    assert forall j :: 0 <= j < |before| ==> before[j] == trace[j];
    assert (exists j :: 0 <= j < |before| && Opens(before[j]))
        <==> (exists j :: 0 <= j < |trace| - 1 && Opens(trace[j]));
    assert (exists j :: 0 <= j < |before| && Selects(before[j]))
        <==> (exists j :: 0 <= j < |trace| - 1 && Selects(trace[j]));
  }

  /** The ready time is the clock at the first selected direct path before anything fatal. */
  lemma {:induction false} ReadyTimeIsFirst(trace: seq<Timed>, i: nat)
    requires FirstReady(trace, i)
    ensures Fold(trace).readyAt == Some(trace[i].at)
  {
    var before := trace[..|trace| - 1];
    FirstFatalPrefix(trace);
    FoldIsReading(before);
    if i < |before| {
      assert forall j :: 0 <= j <= i ==> before[j] == trace[j];
      ReadyTimeIsFirst(before, i);
    } else {
      NotReadyHasNoTime(before);
      FoldIsReading(trace);
      assert Selects(trace[i]);
      assert FirstFatal(trace) == |trace|;
    }
  }

  lemma {:induction false} NotReadyHasNoTime(trace: seq<Timed>)
    ensures Fold(trace).state == AwaitingDirect ==> Fold(trace).readyAt.None?
    ensures Fold(trace).state == DirectReady ==> Fold(trace).readyAt.Some?
  {
    if trace == [] {
    } else {
      NotReadyHasNoTime(trace[..|trace| - 1]);
    }
  }

  /** No ready time is recorded when no direct path was selected before the first fatal signal. */
  lemma {:induction false} NeverReady(trace: seq<Timed>)
    requires forall i | 0 <= i < FirstFatal(trace) :: !Selects(trace[i])
    ensures Fold(trace).readyAt.None?
  {
    if trace == [] {
    } else {
      var before, last := trace[..|trace| - 1], trace[|trace| - 1];
      FirstFatalPrefix(trace);
      FoldIsReading(before);
      FoldIsReading(trace);
      NeverReady(before);
      assert forall j :: 0 <= j < |before| ==> before[j] == trace[j];
    }
  }

  // ---------------------------------------------------------------- latching

  function Rank(s: GateState): nat {
    match s
    case AwaitingDirect => 0
    case DirectReady => 1
    case Stopped(_) => 2
  }

  /** What any continuation of a trace keeps. */
  ghost predicate Latches(before: Gate, after: Gate) {
    && Rank(before.state) <= Rank(after.state)
    && (before.state.Stopped? ==> after == before)
    && (before.readyAt.Some? ==> after.readyAt == before.readyAt)
    && before.version <= after.version
    && (after.version == before.version <==> after.state == before.state)
    && after.version - before.version <= Rank(after.state) - Rank(before.state)
  }

  /**
   * However a trace goes on: the gate never goes back to awaiting, a stopped gate is
   * frozen with its reason, the first ready time stays, and receivers are woken by
   * exactly the changes of state (so at most twice in a gate's life).
   */
  lemma {:induction false} NeverReopens(trace: seq<Timed>, more: seq<Timed>)
    ensures Latches(Fold(trace), Fold(trace + more))
  {
    if more == [] {
      assert trace + more == trace;
    } else {
      var rest := more[..|more| - 1];
      NeverReopens(trace, rest);
      assert (trace + more)[..|trace + more| - 1] == trace + rest;
      assert (trace + more)[|trace + more| - 1] == more[|more| - 1];
    }
  }

  // ---------------------------------------------------------------- the object

  lemma FoldSnoc(trace: seq<Timed>, last: Timed)
    ensures Fold(trace + [last]) == Apply(Fold(trace), last)
  {
    assert (trace + [last])[..|trace|] == trace;
  }

  class MediaGate {
    var state: GateState
    var everHadDirect: bool
    var directReadyAt: Option<nat>
    var version: nat
    ghost var trace: seq<Timed>

    ghost function View(): Gate
      reads this
    {
      Gate(state, everHadDirect, directReadyAt, version)
    }

    ghost predicate Valid()
      reads this
    {
      View() == Fold(trace)
    }

    constructor ()
      ensures Valid() && trace == [] && View() == NEW_GATE
    {
      state, everHadDirect, directReadyAt, version, trace := AwaitingDirect, false, None, 0, [];
    }

    /** Replaces the watched state and wakes the receivers. */
    method Notify(s: GateState)
      modifies `state, `version
      ensures state == s && version == old(version) + 1
    {
      state := s;
      version := version + 1;
    }

    method Halt(reason: StopReason) returns (r: GateState)
      modifies `state, `version
      ensures View() == Stop(old(View()), reason) && r == state
    {
      Notify(Stopped(reason));
      r := state;
    }

    /** Feeds one signal: the new decision is the reading of all signals so far. */
    method Feed(signal: Signal, now: nat) returns (r: GateState)
      requires Valid()
      modifies this
      ensures Valid() && trace == old(trace) + [Timed(signal, now)]
      ensures View() == Apply(old(View()), Timed(signal, now))
      ensures r == state == Reading(trace)
    {
      FoldSnoc(trace, Timed(signal, now));
      FoldIsReading(trace + [Timed(signal, now)]);
      hide Fold, Reading;
      trace := trace + [Timed(signal, now)];
      if state.Stopped? {
        return state;
      }
      match signal
      case Closed =>
        r := Halt(ConnectionClosed);
        return;
      case Snapshot(openDirect, hasRelay, selectedDirect) =>
        if hasRelay {
          r := Halt(RelayPathObserved);
          return;
        }
        if openDirect > 0 {
          everHadDirect := true;
        } else if everHadDirect {
          r := Halt(DirectPathLost);
          return;
        }
        if selectedDirect {
          if directReadyAt.None? {
            directReadyAt := Some(now);
          }
          if state != DirectReady {
            Notify(DirectReady);
          }
        } else if state == DirectReady {
          r := Halt(DirectPathLost);
          return;
        }
        r := state;
    }
  }
}
