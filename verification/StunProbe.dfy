/**
 * The probe runner (crates/cloudflare-stun/src/probe.rs): bounded retransmission of one
 * binding request over an abstract transport, and the wait for the response that
 * belongs to it. Times are in milliseconds from the first send; only waits take time.
 */
module StunProbe {
  import opened Base
  import opened StunAttributes
  import opened Stun

  /** What the transport does with one send: how long it takes, and whether it succeeds. */
  datatype Sending = Sending(delay: nat, accepted: bool)

  /** The next thing the transport's receive side yields, and when. */
  datatype Arrival =
    | Datagram(at: nat, from: Address, bytes: seq<byte>)
    | Fault(at: nat)

  datatype Observation = Observation(server: Address, observed: Address, rtt: nat, local: Address)

  datatype ProbeError =
    | NoAttempts
    | NoTimeout
    | NoBinding
    | FamilyMismatch
    | SendTimedOut
    | SendFailed
    | ReceiveFailed
    | SocketRebound
    | UnusableAddress
    | Rejected(error: StunError)
    | NoResponse
    | NoneMatched(diagnostic: Failure)

  /** `to_canonical`: a version 4 address in its version 6 mapping is that version 4 address. */
  function Canonical(a: Address): Address {
    if a.V6? && |a.octets| == 16 && a.octets[..12] == [0, 0, 0, 0, 0, 0, 0, 0, 0, 0, 0xff, 0xff]
    then V4(a.octets[12] as int * 0x100_0000 + a.octets[13] as int * 0x1_0000 + a.octets[14] as int * 0x100
            + a.octets[15] as int, a.port)
    else a
  }

  predicate IsUnspecified(a: Address) {
    if a.V4? then a.host == 0 else forall i :: 0 <= i < |a.octets| ==> a.octets[i] == 0
  }

  predicate IsMulticast(a: Address) {
    if a.V4? then a.host / 0x1000_0000 == 14 else |a.octets| > 0 && a.octets[0] == 0xff
  }

  /** An address worth registering for a socket of this family. */
  predicate Usable(a: Address, local: Address) {
    a.V4? == local.V4? && !IsUnspecified(a) && !IsMulticast(a) && a.port != 0
  }

  /** In octets: not 0.0.0.0, not 224.0.0.0 to 239.255.255.255, and a port. */
  lemma UsableV4(a: byte, b: byte, c: byte, d: byte, port: nat, local: Address)
    ensures Usable(V4(((a as int * 0x100 + b as int) * 0x100 + c as int) * 0x100 + d as int, port), local) <==>
      local.V4? && port != 0 && !(a == b == c == d == 0) && !(224 <= a <= 239)
  {
    var host := ((a as int * 0x100 + b as int) * 0x100 + c as int) * 0x100 + d as int;
    assert host / 0x1000_0000 == a / 16;
  }

  /** In octets: some octet is not zero, the first is not 255, and a port. */
  lemma UsableV6(octets: seq<byte>, port: nat, local: Address)
    requires |octets| == 16
    ensures Usable(V6(octets, port), local) <==>
      local.V6? && port != 0 && (exists i :: 0 <= i < 16 && octets[i] != 0) && octets[0] != 255
  {
  }

  /** Only ten zero octets and two of 255 in front make a version 6 address a version 4 one. */
  lemma CanonicalOctets(octets: seq<byte>, port: nat)
    requires |octets| == 16
    ensures Canonical(V6(octets, port)) ==
      if (forall i :: 0 <= i < 10 ==> octets[i] == 0) && octets[10] == octets[11] == 255
      then V4(((octets[12] as int * 0x100 + octets[13] as int) * 0x100 + octets[14] as int) * 0x100
              + octets[15] as int, port)
      else V6(octets, port)
  {
    var mapped: seq<byte> := [0, 0, 0, 0, 0, 0, 0, 0, 0, 0, 0xff, 0xff];
    assert octets[..12] == mapped <==> forall i :: 0 <= i < 12 ==> octets[..12][i] == mapped[i];
    assert forall i :: 0 <= i < 12 ==> octets[..12][i] == octets[i];
  }

  /** Arrivals are read in the order they come in. */
  predicate InOrder(arrivals: seq<Arrival>) {
    forall i, j :: 0 <= i < j < |arrivals| ==> arrivals[i].at <= arrivals[j].at
  }

  /** Datagrams of our transaction from the server state a length that is there. */
  predicate WellFormed(arrivals: seq<Arrival>, server: Address, txn: seq<byte>) {
    |txn| == 12
    && forall i :: 0 <= i < |arrivals| && arrivals[i].Datagram? && arrivals[i].from == server
         ==> Sliceable(arrivals[i].bytes, txn)
  }

  /** A datagram the probe skips: from elsewhere, or nothing of our transaction. */
  predicate Skipped(a: Arrival, server: Address, txn: seq<byte>)
    requires |txn| == 12 && (a.Datagram? && a.from == server ==> Sliceable(a.bytes, txn))
  {
    && a.Datagram?
    && (a.from == server ==> BindingResponse(a.bytes, txn).Err? && !BindingResponse(a.bytes, txn).error.ServerError?)
  }

  /** The first n arrivals decide nothing. */
  ghost predicate Undecided(arrivals: seq<Arrival>, n: nat, server: Address, txn: seq<byte>)
    requires n <= |arrivals| && WellFormed(arrivals, server, txn)
  {
    forall i :: 0 <= i < n ==> Skipped(arrivals[i], server, txn)
  }

  predicate IsDiagnosis(a: Arrival, server: Address, txn: seq<byte>, f: Failure)
    requires |txn| == 12 && (a.Datagram? && a.from == server ==> Sliceable(a.bytes, txn))
  {
    a.Datagram? && a.from == server && BindingResponse(a.bytes, txn) == Err(f)
  }

  /** One of the arrivals from `from` to `next` came from the server and was refused with this failure. */
  ghost predicate Diagnosed(
    arrivals: seq<Arrival>, from: nat, next: nat, server: Address, txn: seq<byte>, f: Failure)
    requires next <= |arrivals| && WellFormed(arrivals, server, txn)
  {
    exists i :: from <= i < next && IsDiagnosis(arrivals[i], server, txn, f)
  }

  /** What one wait for a response comes to. */
  datatype Waited =
    | Matched(address: Address)
    | Refused(error: StunError)
    | Faulted
    | TimedOut(diagnostic: Option<Failure>)

  /**
   * Reads arrivals until one decides or the window closes. Every arrival before the last
   * one read was skipped; a window that closes has read everything that came in before
   * its deadline.
   */
  method Await(arrivals: seq<Arrival>, from: nat, server: Address, txn: seq<byte>, start: nat, timeout: nat)
    returns (r: Waited, next: nat, now: nat)
    requires InOrder(arrivals) && WellFormed(arrivals, server, txn) && timeout > 0
    requires from <= |arrivals| && Undecided(arrivals, from, server, txn)
    requires from > 0 ==> arrivals[from - 1].at <= start
    ensures from <= next <= |arrivals| && start <= now <= start + timeout
    ensures next > 0 ==> arrivals[next - 1].at <= now
    ensures r.TimedOut? ==>
      && Undecided(arrivals, next, server, txn)
      && now == start + timeout && (next < |arrivals| ==> arrivals[next].at >= now)
    ensures !r.TimedOut? ==> next > from && Undecided(arrivals, next - 1, server, txn)
    ensures !r.TimedOut? ==> now == Max(start, arrivals[next - 1].at)
    ensures r.Matched? ==> arrivals[next - 1].Datagram? && arrivals[next - 1].from == server
                           && BindingResponse(arrivals[next - 1].bytes, txn) == Ok(r.address)
    ensures r.Refused? ==> arrivals[next - 1].Datagram? && arrivals[next - 1].from == server
                           && AuthenticatedError(arrivals[next - 1].bytes, txn) == Ok(r.error)
    ensures r.Faulted? ==> arrivals[next - 1].Fault?
    ensures r.TimedOut? && r.diagnostic.Some? ==>
      !r.diagnostic.value.ServerError? && Diagnosed(arrivals, from, next, server, txn, r.diagnostic.value)
    ensures r.TimedOut? ==>
      (r.diagnostic.None? <==> forall i :: from <= i < next ==> arrivals[i].Datagram? && arrivals[i].from != server)
  {
    hide BindingResponse, AuthenticatedError;
    next, now := from, start;
    var deadline := start + timeout;
    var diagnostic: Option<Failure> := None;
    while true
      invariant from <= next <= |arrivals| && start <= now <= deadline
      invariant Undecided(arrivals, next, server, txn)
      invariant now == if next == from then start else Max(start, arrivals[next - 1].at)
      invariant diagnostic.Some? ==>
        !diagnostic.value.ServerError? && Diagnosed(arrivals, from, next, server, txn, diagnostic.value)
      invariant diagnostic.None? <==>
        forall i :: from <= i < next ==> arrivals[i].Datagram? && arrivals[i].from != server
      decreases |arrivals| - next
    {
      if now == deadline {
        return TimedOut(diagnostic), next, now;
      }
      if next == |arrivals| || arrivals[next].at > deadline {
        now := deadline;
        return TimedOut(diagnostic), next, now;
      }
      var arrival := arrivals[next];
      now := Max(now, arrival.at);
      next := next + 1;
      if arrival.Fault? {
        return Faulted, next, now;
      }
      if arrival.from != server {
        continue;
      }
      var response := ParseBindingResponse(arrival.bytes, txn);
      if response.Ok? {
        return Matched(response.value), next, now;
      }
      var rejection := ParseAuthenticatedError(arrival.bytes, txn);
      if rejection.Ok? {
        return Refused(rejection.value), next, now;
      }
      if response.error.ServerError? {
        RejectionIsOneThing(arrival.bytes, txn, response.error.error);
      }
      diagnostic := Some(response.error);
      assert IsDiagnosis(arrivals[next - 1], server, txn, response.error);
    }
  }

  // ---------------------------------------------------------------- the whole probe

  /** The longest that k attempts can take: their back-offs, sends and waits. */
  function Bound(k: nat, timeout: nat): nat {
    if k == 0 then 0 else Bound(k - 1, timeout) + 200 * (k - 1) + 2 * timeout
  }

  /** The time the first k attempts take when each of them waits for its whole window. */
  function Spent(sendings: seq<Sending>, k: nat, timeout: nat): nat
    requires k <= |sendings|
    decreases k, 0
  {
    if k == 0 then 0 else Begun(sendings, k - 1, timeout) + timeout
  }

  /** When attempt k begins to wait: after its back-off and its send. */
  function Begun(sendings: seq<Sending>, k: nat, timeout: nat): nat
    requires k < |sendings|
    decreases k, 1
  {
    Spent(sendings, k, timeout) + 200 * k + sendings[k].delay
  }

  predicate Fine(s: Sending, timeout: nat) {
    s.delay <= timeout && s.accepted
  }

  /** The probe gave up: every attempt was sent and waited out, and the last window decides what is reported. */
  ghost predicate WaitedOut(
    e: ProbeError, arrivals: seq<Arrival>, read: nat, server: Address, txn: seq<byte>,
    sendings: seq<Sending>, k: nat, timeout: nat, waited: nat)
    requires 0 < k <= |sendings| && read <= |arrivals| && WellFormed(arrivals, server, txn)
  {
    var last := Spent(sendings, k - 1, timeout);
    && waited == Spent(sendings, k, timeout)
    && (read < |arrivals| ==> arrivals[read].at >= waited)
    && (forall i :: 0 <= i < k ==> Fine(sendings[i], timeout))
    && (e == NoResponse ==>
          forall i :: 0 <= i < read && arrivals[i].at > last ==> arrivals[i].Datagram? && arrivals[i].from != server)
    && (e.NoneMatched? ==>
          exists i :: 0 <= i < read && arrivals[i].at >= last
                      && IsDiagnosis(arrivals[i], server, txn, e.diagnostic))
  }

  /** The probe ended in the window of its last send, at the arrival that was read last. */
  ghost predicate DecidedInTime(
    arrivals: seq<Arrival>, read: nat, sendings: seq<Sending>, sends: nat, timeout: nat, waited: nat)
    requires sends <= |sendings| && read <= |arrivals|
  {
    && 0 < sends && 0 < read
    && (forall i :: 0 <= i < sends ==> Fine(sendings[i], timeout))
    && Spent(sendings, sends - 1, timeout) <= arrivals[read - 1].at <= waited
    && waited == Max(Begun(sendings, sends - 1, timeout), arrivals[read - 1].at)
    && waited <= Spent(sendings, sends, timeout)
  }

  /** The last send did not succeed; all before it did. */
  ghost predicate SendBroke(e: ProbeError, sendings: seq<Sending>, sends: nat, timeout: nat, waited: nat)
    requires sends <= |sendings|
  {
    && 0 < sends
    && (forall i :: 0 <= i < sends - 1 ==> Fine(sendings[i], timeout))
    && (e == SendTimedOut <==> sendings[sends - 1].delay > timeout)
    && (e == SendFailed <==> sendings[sends - 1].delay <= timeout && !sendings[sends - 1].accepted)
    && waited == Spent(sendings, sends - 1, timeout) + 200 * (sends - 1) + Min(sendings[sends - 1].delay, timeout)
  }

  lemma {:induction false} BoundIs(k: nat, timeout: nat)
    ensures Bound(k, timeout) == 2 * k * timeout + 100 * k * (k - 1)
  {
    if k == 0 {
    } else {
      BoundIs(k - 1, timeout);
      assert 2 * k * timeout == 2 * (k - 1) * timeout + 2 * timeout;
      assert 100 * k * (k - 1) == 100 * (k - 1) * (k - 2) + 200 * (k - 1);
    }
  }

  /** What the result says of the datagrams read, of which there are n. */
  ghost predicate Justified(
    r: Result<Observation, ProbeError>, arrivals: seq<Arrival>, n: nat, server: Address, local: Address, txn: seq<byte>)
    requires n <= |arrivals| && WellFormed(arrivals, server, txn)
  {
    if r.Ok? then
      && n > 0 && Undecided(arrivals, n - 1, server, txn)
      && arrivals[n - 1].Datagram? && arrivals[n - 1].from == server
      && BindingResponse(arrivals[n - 1].bytes, txn) == Ok(r.value.observed)
      && Usable(r.value.observed, local) && r.value.server == server && r.value.local == local
    else
      match r.error
      case Rejected(e) =>
        && n > 0 && Undecided(arrivals, n - 1, server, txn)
        && arrivals[n - 1].Datagram? && arrivals[n - 1].from == server
        && AuthenticatedError(arrivals[n - 1].bytes, txn) == Ok(e)
      case ReceiveFailed => n > 0 && Undecided(arrivals, n - 1, server, txn) && arrivals[n - 1].Fault?
      case SocketRebound =>
        && n > 0 && Undecided(arrivals, n - 1, server, txn)
        && arrivals[n - 1].Datagram? && arrivals[n - 1].from == server
        && BindingResponse(arrivals[n - 1].bytes, txn).Ok?
      case UnusableAddress =>
        && n > 0 && Undecided(arrivals, n - 1, server, txn)
        && arrivals[n - 1].Datagram? && arrivals[n - 1].from == server
        && BindingResponse(arrivals[n - 1].bytes, txn).Ok?
        && !Usable(BindingResponse(arrivals[n - 1].bytes, txn).value, local)
      case _ => Undecided(arrivals, n, server, txn)
  }

  predicate GaveUp(r: Result<Observation, ProbeError>) {
    r.Err? && (r.error.NoResponse? || r.error.NoneMatched?)
  }

  /** The last checks on a matched response. */
  method Conclude(observed: Address, server: Address, local: Address, localAtEnd: Option<Address>, elapsed: nat)
    returns (r: Result<Observation, ProbeError>)
    ensures r == if localAtEnd != Some(local) then Err(SocketRebound)
                 else if !Usable(observed, local) then Err(UnusableAddress)
                 else Ok(Observation(server, observed, elapsed, local))
  {
    if localAtEnd != Some(local) {
      return Err(SocketRebound);
    }
    if !Usable(observed, local) {
      return Err(UnusableAddress);
    }
    r := Ok(Observation(server, observed, elapsed, local));
  }

  /** The probe never leaves its first checks. */
  function Misuse(attempts: nat, timeout: nat, local: Option<Address>, server: Address): Option<ProbeError> {
    if attempts == 0 then Some(NoAttempts)
    else if timeout == 0 then Some(NoTimeout)
    else if local.None? then Some(NoBinding)
    else if local.value.V4? != server.V4? then Some(FamilyMismatch)
    else None
  }

  /** What decided within a window, in whatever sense. */
  predicate Decided(r: Result<Observation, ProbeError>) {
    r.Ok? || r.error.Rejected? || r.error.ReceiveFailed? || r.error.SocketRebound? || r.error.UnusableAddress?
  }

  lemma {:induction false} SpentBound(sendings: seq<Sending>, k: nat, timeout: nat)
    requires k <= |sendings| && forall i :: 0 <= i < k ==> Fine(sendings[i], timeout)
    ensures Spent(sendings, k, timeout) <= Bound(k, timeout)
  {
    if k == 0 {
    } else {
      SpentBound(sendings, k - 1, timeout);
    }
  }

  /** The back-off and the send of one attempt: how long they take, and what stops the probe. */
  method SendOnce(attempt: nat, s: Sending, timeout: nat) returns (error: Option<ProbeError>, took: nat)
    ensures took == 200 * attempt + Min(s.delay, timeout)
    ensures error == if s.delay > timeout then Some(SendTimedOut) else if !s.accepted then Some(SendFailed) else None
  {
    took := 0;
    if attempt > 0 {
      took := 200 * attempt;
    }
    if s.delay > timeout {
      return Some(SendTimedOut), took + timeout;
    }
    took := took + s.delay;
    error := if s.accepted then None else Some(SendFailed);
  }

  /** A window that closed: what the probe reports if it was the last. */
  lemma WindowCloses(
      diagnostic: Option<Failure>, arrivals: seq<Arrival>, from: nat, read: nat, server: Address, txn: seq<byte>,
      sendings: seq<Sending>, k: nat, timeout: nat, waited: nat)
    requires k < |sendings| && from <= read <= |arrivals| && InOrder(arrivals) && WellFormed(arrivals, server, txn)
    requires forall i :: 0 <= i <= k ==> Fine(sendings[i], timeout)
    requires from > 0 ==> arrivals[from - 1].at <= Spent(sendings, k, timeout)
    requires k > 0 && from < |arrivals| ==> arrivals[from].at >= Spent(sendings, k, timeout)
    requires waited == Begun(sendings, k, timeout) + timeout && (read < |arrivals| ==> arrivals[read].at >= waited)
    requires diagnostic.None? <==> forall i :: from <= i < read ==> arrivals[i].Datagram? && arrivals[i].from != server
    requires diagnostic.Some? ==> Diagnosed(arrivals, from, read, server, txn, diagnostic.value)
    ensures WaitedOut(if diagnostic.Some? then NoneMatched(diagnostic.value) else NoResponse,
                      arrivals, read, server, txn, sendings, k + 1, timeout, waited)
  {
    hide Spent, Begun, Fine;
    SpentOnce(sendings, k, timeout);
    if diagnostic.Some? {
      var i :| from <= i < read && IsDiagnosis(arrivals[i], server, txn, diagnostic.value);
      assert from < i ==> arrivals[from].at <= arrivals[i].at;
      FirstWindow(sendings, timeout);
      assert arrivals[i].at >= Spent(sendings, k, timeout);
    } else {
      ReadBefore(arrivals, from, Spent(sendings, k, timeout));
    }
  }

  lemma ReadBefore(arrivals: seq<Arrival>, n: nat, time: nat)
    requires InOrder(arrivals) && n <= |arrivals| && (n > 0 ==> arrivals[n - 1].at <= time)
    ensures forall i :: 0 <= i < n ==> arrivals[i].at <= time
  {
  }

  lemma FirstWindow(sendings: seq<Sending>, timeout: nat)
    ensures Spent(sendings, 0, timeout) == 0
  {
  }

  lemma SpentOnce(sendings: seq<Sending>, k: nat, timeout: nat)
    requires k < |sendings|
    ensures Spent(sendings, k + 1, timeout) == Begun(sendings, k, timeout) + timeout
    ensures Begun(sendings, k, timeout) == Spent(sendings, k, timeout) + 200 * k + sendings[k].delay
  {
  }

  /** After k attempts that were sent and waited out. */
  ghost predicate Ongoing(
    r: Result<Observation, ProbeError>, arrivals: seq<Arrival>, read: nat, server: Address, txn: seq<byte>,
    sendings: seq<Sending>, k: nat, timeout: nat, waited: nat)
    requires k <= |sendings| && WellFormed(arrivals, server, txn)
  {
    && waited == Spent(sendings, k, timeout)
    && (forall i :: 0 <= i < k ==> Fine(sendings[i], timeout))
    && read <= |arrivals| && Undecided(arrivals, read, server, txn)
    && (read > 0 ==> arrivals[read - 1].at <= waited)
    && (k > 0 && read < |arrivals| ==> arrivals[read].at >= waited)
    && GaveUp(r) && (r.error.NoneMatched? ==> !r.error.diagnostic.ServerError?)
    && (k > 0 ==> WaitedOut(r.error, arrivals, read, server, txn, sendings, k, timeout, waited))
  }

  /** A result before the last attempt has been waited out. */
  ghost predicate Ended(
    r: Result<Observation, ProbeError>, arrivals: seq<Arrival>, read: nat, server: Address, local: Address,
    txn: seq<byte>, sendings: seq<Sending>, sends: nat, timeout: nat, waited: nat, localAtEnd: Option<Address>)
    requires sends <= |sendings| && WellFormed(arrivals, server, txn)
  {
    && read <= |arrivals| && Justified(r, arrivals, read, server, local, txn)
    && (r.Ok? ==> localAtEnd == Some(local) && r.value.rtt == waited)
    && (r == Err(SocketRebound) ==> localAtEnd != Some(local))
    && (r == Err(UnusableAddress) ==> localAtEnd == Some(local))
    && (if Decided(r) then DecidedInTime(arrivals, read, sendings, sends, timeout, waited)
        else r.error in {SendTimedOut, SendFailed} && SendBroke(r.error, sendings, sends, timeout, waited))
  }

  /** One attempt: the request is sent, and its window waited for. */
  method Attempt(
      k: nat, timeout: nat, local: Address, server: Address, txn: seq<byte>,
      sendings: seq<Sending>, arrivals: seq<Arrival>, localAtEnd: Option<Address>,
      before: nat, from: nat, ghost last: Result<Observation, ProbeError>)
    returns (r: Result<Observation, ProbeError>, over: bool, waited: nat, read: nat)
    requires timeout > 0 && k < |sendings| && InOrder(arrivals) && WellFormed(arrivals, server, txn)
    requires Ongoing(last, arrivals, from, server, txn, sendings, k, timeout, before)
    ensures if over
            then Ended(r, arrivals, read, server, local, txn, sendings, k + 1, timeout, waited, localAtEnd)
            else Ongoing(r, arrivals, read, server, txn, sendings, k + 1, timeout, waited)
    ensures waited <= before + 200 * k + 2 * timeout
  {
    hide Skipped, WellFormed, InOrder, Usable, BindingResponse, AuthenticatedError, Diagnosed, WaitedOut, Spent, Begun;
    hide DecidedInTime, SendBroke;
    SpentOnce(sendings, k, timeout);
    over, read := true, from;
    var error, took := SendOnce(k, sendings[k], timeout);
    waited := before + took;
    if error.Some? {
      SendBreaks(error.value, sendings, k, timeout, waited);
      return Err(error.value), over, waited, read;
    }
    var outcome: Waited;
    outcome, read, waited := Await(arrivals, from, server, txn, waited, timeout);
    if outcome.TimedOut? {
      var diagnostic := outcome.diagnostic;
      WindowCloses(diagnostic, arrivals, from, read, server, txn, sendings, k, timeout, waited);
      return Err(if diagnostic.Some? then NoneMatched(diagnostic.value) else NoResponse), false, waited, read;
    }
    WindowDecides(arrivals, from, read, sendings, k, timeout, waited);
    match outcome
    case Matched(observed) => r := Conclude(observed, server, local, localAtEnd, waited);
    case Refused(e) => r := Err(Rejected(e));
    case Faulted => r := Err(ReceiveFailed);
  }

  /** The retry loop: at most one request per attempt, each with its own window. */
  method Attempts(
      attempts: nat, timeout: nat, local: Address, server: Address, txn: seq<byte>,
      sendings: seq<Sending>, arrivals: seq<Arrival>, localAtEnd: Option<Address>)
    returns (r: Result<Observation, ProbeError>, sends: nat, waited: nat, read: nat)
    requires attempts > 0 && timeout > 0
    requires |sendings| == attempts && InOrder(arrivals) && WellFormed(arrivals, server, txn)
    ensures sends <= attempts && waited <= Bound(attempts, timeout)
    ensures if GaveUp(r)
            then sends == attempts && Ongoing(r, arrivals, read, server, txn, sendings, attempts, timeout, waited)
            else Ended(r, arrivals, read, server, local, txn, sendings, sends, timeout, waited, localAtEnd)
  {
    hide WellFormed, Justified, DecidedInTime, SendBroke, WaitedOut, Bound, Undecided;
    sends, waited, read := 0, 0, 0;
    r := Err(NoResponse);
    NothingRead(arrivals, server, txn);
    while sends < attempts
      invariant sends <= attempts
      invariant Ongoing(r, arrivals, read, server, txn, sendings, sends, timeout, waited)
    {
      SpentBound(sendings, sends, timeout);
      OneMoreBound(sends, attempts, timeout);
      var over;
      r, over, waited, read :=
        Attempt(sends, timeout, local, server, txn, sendings, arrivals, localAtEnd, waited, read, r);
      sends := sends + 1;
      if over {
        return;
      }
    }
    SpentBound(sendings, attempts, timeout);
  }

  lemma NothingRead(arrivals: seq<Arrival>, server: Address, txn: seq<byte>)
    requires WellFormed(arrivals, server, txn)
    ensures Undecided(arrivals, 0, server, txn)
  {
  }

  lemma OneMoreBound(k: nat, n: nat, timeout: nat)
    requires k < n
    ensures Bound(k, timeout) + 200 * k + 2 * timeout <= Bound(n, timeout)
  {
    BoundGrows(k + 1, n, timeout);
  }

  lemma SendBreaks(e: ProbeError, sendings: seq<Sending>, k: nat, timeout: nat, waited: nat)
    requires k < |sendings| && forall i :: 0 <= i < k ==> Fine(sendings[i], timeout)
    requires !Fine(sendings[k], timeout) && e == if sendings[k].delay > timeout then SendTimedOut else SendFailed
    requires waited == Spent(sendings, k, timeout) + 200 * k + Min(sendings[k].delay, timeout)
    ensures SendBroke(e, sendings, k + 1, timeout, waited)
  {
  }

  /** What is read in a later window came in after the earlier one. */
  lemma WindowDecides(
      arrivals: seq<Arrival>, from: nat, read: nat, sendings: seq<Sending>, k: nat, timeout: nat, waited: nat)
    requires k < |sendings| && from < read <= |arrivals| && InOrder(arrivals)
    requires forall i :: 0 <= i <= k ==> Fine(sendings[i], timeout)
    requires k > 0 ==> arrivals[from].at >= Spent(sendings, k, timeout)
    requires waited == Max(Begun(sendings, k, timeout), arrivals[read - 1].at)
    requires waited <= Begun(sendings, k, timeout) + timeout
    ensures DecidedInTime(arrivals, read, sendings, k + 1, timeout, waited)
  {
    hide Begun;
    assert arrivals[from].at <= arrivals[read - 1].at;
  }

  /**
   * Sends at most one request per attempt and finishes within 2nT + 100n(n-1), under any
   * pattern of arrivals. The first datagram of our transaction from the server decides;
   * nothing that came in before the end is left unread when the probe gives up.
   */
  method RunProbe(
      attempts: nat, timeout: nat, local: Option<Address>, address: Address, txn: seq<byte>,
      sendings: seq<Sending>, arrivals: seq<Arrival>, localAtEnd: Option<Address>)
    returns (r: Result<Observation, ProbeError>, sends: nat, waited: nat, read: nat)
    requires |sendings| == attempts && InOrder(arrivals)
    requires WellFormed(arrivals, Canonical(address), txn)
    ensures sends <= attempts && waited <= 2 * attempts * timeout + 100 * attempts * (attempts - 1)
    ensures Misuse(attempts, timeout, local, Canonical(address)).Some? ==>
      r == Err(Misuse(attempts, timeout, local, Canonical(address)).value) && sends == 0
    ensures Misuse(attempts, timeout, local, Canonical(address)).None? ==>
      read <= |arrivals| && Justified(r, arrivals, read, Canonical(address), local.value, txn)
    ensures r.Ok? ==> local == localAtEnd == Some(r.value.local) && r.value.rtt == waited
    ensures r == Err(SocketRebound) ==> localAtEnd != local
    ensures r == Err(UnusableAddress) ==> localAtEnd == local
    ensures Decided(r) ==> DecidedInTime(arrivals, read, sendings, sends, timeout, waited)
    ensures GaveUp(r) ==>
      && sends == attempts && 0 < sends
      && WaitedOut(r.error, arrivals, read, Canonical(address), txn, sendings, sends, timeout, waited)
    ensures r.Err? && r.error.NoneMatched? ==> !r.error.diagnostic.ServerError?
    ensures r.Err? && r.error in {SendTimedOut, SendFailed} ==> SendBroke(r.error, sendings, sends, timeout, waited)
  {
    hide WaitedOut, DecidedInTime, SendBroke, WellFormed;
    sends, waited, read := 0, 0, 0;
    BoundIs(attempts, timeout);
    if attempts == 0 {
      return Err(NoAttempts), sends, waited, read;
    }
    if timeout == 0 {
      return Err(NoTimeout), sends, waited, read;
    }
    if local.None? {
      return Err(NoBinding), sends, waited, read;
    }
    var server := Canonical(address);
    if local.value.V4? != server.V4? {
      return Err(FamilyMismatch), sends, waited, read;
    }
    r, sends, waited, read := Attempts(attempts, timeout, local.value, server, txn, sendings, arrivals, localAtEnd);
  }

  lemma {:induction false} BoundGrows(k: nat, n: nat, timeout: nat)
    requires k <= n
    ensures Bound(k, timeout) <= Bound(n, timeout)
    decreases n
  {
    if k == n {
    } else {
      BoundGrows(k, n - 1, timeout);
    }
  }
}
