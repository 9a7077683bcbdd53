/**
 * The single-use signaling room (infra/cloudflare/worker/src/signal-room.js): one
 * Durable Object for one room token, over its whole life and past its storage wipe.
 */
module SignalRoom {
  import opened Base

  const ROOM_TTL := 600_000
  const MAX_UNITS := 24_576
  const MAX_MESSAGES := 32
  const MAX_BYTES := 65_536
  const MAX_CANDIDATE := 2048

  datatype Role = Offerer | Answerer

  /** What JSON parsing makes of a message: a candidate, or something with another type. */
  datatype Data =
    | CandidateData(length: Option<nat>)            // the length of candidate.candidate, if it is a string
    | DescriptionData(kind: string, sdp: Option<string>)

  datatype Incoming =
    | Binary
    | Text(units: nat, bytes: nat, data: Option<Data>)   // UTF-16 units, UTF-8 bytes

  /** A socket's attachment. */
  datatype Info = Info(role: Role, expires: int, messages: nat, bytes: nat, sdpSent: bool)

  /** Something broadcast to the other sockets of the room. */
  datatype Sent =
    | Forwarded(socket: nat, data: Data, bytes: nat)
    | ReadySent
    | PeerLeftSent(socket: nat)

  datatype Room = Room(
    created: Option<int>,       // the time in the token, or None when it is malformed
    now: int,
    joined: Option<nat>,        // storage
    alarm: Option<int>,         // storage
    wiped: bool,                // the alarm has deleted the storage
    admitted: nat,              // admissions ever granted; the socket they become bears their number
    accepted: set<nat>,         // admissions whose socket has been accepted
    open: set<nat>,             // getWebSockets()
    infos: map<nat, Info>,      // attachments
    log: seq<Sent>)

  function NewRoom(created: Option<int>, now: int): Room {
    Room(created, now, None, None, false, 0, {}, {}, map[], [])
  }

  // ---------------------------------------------------------------- single calls

  function RoomExpiry(created: Option<int>, now: int): Option<int> {
    if created.Some? && created.value <= now + 30_000 && now < created.value + ROOM_TTL
    then Some(created.value + ROOM_TTL) else None
  }

  /** The attachment after a valid signal, or None when the signal is refused. */
  function ValidateSignal(data: Data, info: Info): Option<Info> {
    match data
    case CandidateData(length) => if length.Some? && length.value <= MAX_CANDIDATE then Some(info) else None
    case DescriptionData(kind, sdp) =>
      var expected := if info.role == Offerer then "offer" else "answer";
      if kind != expected || info.sdpSent then None
      else if sdp.None? || !("v=0\r\n" <= sdp.value) then None
      else Some(info.(sdpSent := true))
  }

  /** The attachment after one message, and what is forwarded; None closes the socket. */
  function Handle(info: Option<Info>, message: Incoming, now: int): Option<(Info, Data)> {
    if info.None? || now >= info.value.expires then None
    else if message.Binary? || message.units > MAX_UNITS then None
    else
      var counted := info.value.(messages := info.value.messages + 1, bytes := info.value.bytes + message.bytes);
      if counted.messages > MAX_MESSAGES || counted.bytes > MAX_BYTES then None
      else if message.data.None? then None
      else
        match ValidateSignal(message.data.value, counted)
        case None => None
        case Some(updated) => Some((updated, message.data.value))
  }

  // ---------------------------------------------------------------- steps

  datatype Event =
    | Tick(now: int)
    | Fetch(upgrade: bool)
    | Accept(socket: nat)
    | Message(socket: nat, message: Incoming)
    | Leave(socket: nat)
    | Alarm

  datatype Answer = Expired | NotUpgrade | Used | Admitted(socket: nat, role: Role)

  function RoleOf(socket: nat): Role {
    if socket == 0 then Offerer else Answerer
  }

  /** The checks of `fetch` and the admission transaction, as one step. */
  function Admit(r: Room, upgrade: bool): (Room, Answer) {
    var expires := RoomExpiry(r.created, r.now);
    if expires.None? then (r, Expired)
    else if !upgrade then (r, NotUpgrade)
    else
      var joined := if r.joined.Some? then r.joined.value else 0;
      if joined >= 2 then (r, Used)
      else (r.(joined := Some(joined + 1), alarm := expires, admitted := r.admitted + 1),
            Admitted(joined, if joined == 0 then Offerer else Answerer))
  }

  /** The rest of `fetch`: the socket is accepted, and the second one announces the pair. */
  function AcceptSocket(r: Room, socket: nat, role: Role, expires: int): Room {
    var open := r.open + {socket};
    r.(accepted := r.accepted + {socket}, open := open,
       infos := r.infos[socket := Info(role, expires, 0, 0, false)],
       log := if |open| == 2 then r.log + [ReadySent] else r.log)
  }

  function Receive(r: Room, socket: nat, message: Incoming): Room {
    match Handle(if socket in r.infos then Some(r.infos[socket]) else None, message, r.now)
    case None => r
    case Some((info, data)) =>
      r.(infos := r.infos[socket := info], log := r.log + [Forwarded(socket, data, message.bytes)])
  }

  function Wipe(r: Room): Room {
    r.(joined := None, alarm := None, wiped := true)
  }

  /** A step that is not possible where it stands changes nothing. */
  function Next(r: Room, e: Event): Room {
    match e
    case Tick(now) => if now >= r.now then r.(now := now) else r
    case Fetch(upgrade) => Admit(r, upgrade).0
    case Accept(socket) =>
      if socket < r.admitted && socket !in r.accepted && r.created.Some?
      then AcceptSocket(r, socket, RoleOf(socket), r.created.value + ROOM_TTL) else r
    case Message(socket, message) => if socket in r.accepted then Receive(r, socket, message) else r
    case Leave(socket) =>
      if socket in r.open then r.(open := r.open - {socket}, log := r.log + [PeerLeftSent(socket)]) else r
    case Alarm => if r.alarm.Some? && r.now >= r.alarm.value then Wipe(r) else r
  }

  function Run(r: Room, events: seq<Event>): Room {
    if events == [] then r else Next(Run(r, events[..|events| - 1]), events[|events| - 1])
  }

  // ---------------------------------------------------------------- what has been forwarded

  function MessagesOf(log: seq<Sent>, socket: nat): nat {
    Total(log, (x: Sent) => if x.Forwarded? && x.socket == socket then 1 else 0)
  }

  function BytesOf(log: seq<Sent>, socket: nat): nat {
    Total(log, (x: Sent) => if x.Forwarded? && x.socket == socket then x.bytes else 0)
  }

  function Descriptions(log: seq<Sent>, kind: string): nat {
    Total(log, (x: Sent) => if x.Forwarded? && x.data.DescriptionData? && x.data.kind == kind then 1 else 0)
  }

  function KindOf(socket: nat): string {
    if RoleOf(socket) == Offerer then "offer" else "answer"
  }

  function Readies(log: seq<Sent>): nat {
    Total(log, (x: Sent) => if x.ReadySent? then 1 else 0)
  }

  lemma LogGrows(log: seq<Sent>, x: Sent, socket: nat, kind: string)
    ensures MessagesOf(log + [x], socket)
         == MessagesOf(log, socket) + if x.Forwarded? && x.socket == socket then 1 else 0
    ensures BytesOf(log + [x], socket)
         == BytesOf(log, socket) + if x.Forwarded? && x.socket == socket then x.bytes else 0
    ensures Descriptions(log + [x], kind)
         == Descriptions(log, kind) + if x.Forwarded? && x.data.DescriptionData? && x.data.kind == kind then 1 else 0
    ensures Readies(log + [x]) == Readies(log) + if x.ReadySent? then 1 else 0
  {
    TotalAppend(log, (x: Sent) => if x.Forwarded? && x.socket == socket then 1 else 0, x);
    TotalAppend(log, (x: Sent) => if x.Forwarded? && x.socket == socket then x.bytes else 0, x);
    TotalAppend(log, (x: Sent) => if x.Forwarded? && x.data.DescriptionData? && x.data.kind == kind then 1 else 0, x);
    TotalAppend(log, (x: Sent) => if x.ReadySent? then 1 else 0, x);
  }

  // ---------------------------------------------------------------- the invariant

  /** Admission: two at most, in order, and none after the wipe. */
  ghost predicate AdmissionInv(r: Room) {
    && r.admitted <= 2
    && (!r.wiped ==> r.joined == (if r.admitted == 0 then None else Some(r.admitted)))
    && (r.admitted > 0 ==> r.created.Some?)
    && (r.alarm.Some? ==> r.created.Some? && r.alarm.value == r.created.value + ROOM_TTL)
    && (r.wiped ==> r.joined.None? && r.created.Some? && r.now >= r.created.value + ROOM_TTL)
    && r.open <= r.accepted == r.infos.Keys
    && (forall i :: i in r.accepted ==> i < r.admitted)
  }

  /** Each attachment records exactly what its socket has had forwarded. */
  ghost predicate SocketInv(r: Room, socket: nat)
    requires socket in r.infos
  {
    var info := r.infos[socket];
    && info.role == RoleOf(socket)
    && r.created.Some? && info.expires == r.created.value + ROOM_TTL
    && info.messages == MessagesOf(r.log, socket) <= MAX_MESSAGES
    && info.bytes == BytesOf(r.log, socket) <= MAX_BYTES
    && Descriptions(r.log, KindOf(socket)) == if info.sdpSent then 1 else 0
  }

  ghost predicate RecordsInv(r: Room) {
    && (forall i :: i in r.infos ==> SocketInv(r, i))
    && (forall i: nat :: i < 2 && i !in r.infos ==> Untouched(r.log, i))
  }

  /** Nothing of this socket has been forwarded. */
  predicate Untouched(log: seq<Sent>, socket: nat) {
    MessagesOf(log, socket) == BytesOf(log, socket) == Descriptions(log, KindOf(socket)) == 0
  }

  ghost predicate EntriesInv(r: Room) {
    && (forall k :: 0 <= k < |r.log| && r.log[k].Forwarded? ==>
          && r.log[k].socket in r.accepted
          && (r.log[k].data.DescriptionData? ==> r.log[k].data.kind == KindOf(r.log[k].socket)))
    && Readies(r.log) <= if |r.accepted| == 2 then 1 else 0
  }

  ghost predicate Inv(r: Room) {
    AdmissionInv(r) && RecordsInv(r) && EntriesInv(r)
  }

  /** Open sockets have been accepted, and the accepted ones have an attachment. */
  lemma RoomFacts(r: Room)
    requires Inv(r)
    ensures r.open <= r.accepted == r.infos.Keys
  {
  }

  lemma TwoSockets(s: set<nat>, n: nat)
    requires forall i :: i in s ==> i < n
    ensures |s| <= n
    decreases n
  {
    if n == 0 {
      assert s == {};
    } else {
      var t := s - {n - 1};
      TwoSockets(t, n - 1);
      assert s <= t + {n - 1};
    }
  }

  lemma AdmitKeeps(r: Room, upgrade: bool)
    requires Inv(r)
    ensures Inv(Admit(r, upgrade).0)
    ensures Admit(r, upgrade).1.Admitted? ==>
      Admit(r, upgrade).1 == Admitted(r.admitted, RoleOf(r.admitted)) && !r.wiped
  {
    var t := Admit(r, upgrade).0;
    assert forall i :: i in r.infos ==> SocketInv(r, i) ==> SocketInv(t, i);
  }

  /** A broadcast that forwards nothing leaves every socket's record as it was. */
  lemma NothingForwarded(log: seq<Sent>, x: Sent)
    requires !x.Forwarded?
    ensures forall i: nat ::
      && MessagesOf(log + [x], i) == MessagesOf(log, i) && BytesOf(log + [x], i) == BytesOf(log, i)
      && Descriptions(log + [x], KindOf(i)) == Descriptions(log, KindOf(i))
    ensures Readies(log + [x]) == Readies(log) + if x.ReadySent? then 1 else 0
  {
    forall i: nat
      ensures MessagesOf(log + [x], i) == MessagesOf(log, i) && BytesOf(log + [x], i) == BytesOf(log, i)
              && Descriptions(log + [x], KindOf(i)) == Descriptions(log, KindOf(i))
    {
      LogGrows(log, x, i, KindOf(i));
    }
    LogGrows(log, x, 0, "");
  }

  lemma AcceptAdmits(r: Room, socket: nat)
    requires AdmissionInv(r) && socket < r.admitted && socket !in r.accepted
    ensures AdmissionInv(Next(r, Accept(socket)))
    ensures |r.accepted| <= 1
    ensures |r.open + {socket}| == 2 ==> |r.accepted + {socket}| == 2
  {
    TwoSockets(r.accepted + {socket}, r.admitted);
    Subset(r.open + {socket}, r.accepted + {socket});
  }

  lemma AcceptKeeps(r: Room, socket: nat)
    requires Inv(r) && socket < r.admitted && socket !in r.accepted
    ensures Inv(Next(r, Accept(socket)))
  {
    AcceptAdmits(r, socket);
    AcceptRecords(r, socket);
    AcceptEntries(r, socket);
    hide AdmissionInv, RecordsInv, EntriesInv;
  }

  lemma AcceptRecords(r: Room, socket: nat)
    requires RecordsInv(r) && socket < r.admitted <= 2 && socket !in r.infos && r.created.Some?
    ensures RecordsInv(Next(r, Accept(socket)))
  {
    hide MessagesOf, BytesOf, Descriptions, KindOf, RoleOf;
    var t := Next(r, Accept(socket));
    NothingForwarded(r.log, ReadySent);
    assert Untouched(r.log, socket);
    forall i | i in t.infos ensures SocketInv(t, i) {
      if i != socket { assert SocketInv(r, i); }
    }
    forall i: nat | i < 2 && i !in t.infos ensures Untouched(t.log, i) {
      assert Untouched(r.log, i);
    }
  }

  lemma AcceptEntries(r: Room, socket: nat)
    requires EntriesInv(r) && socket !in r.accepted && |r.accepted| <= 1
    requires |r.open + {socket}| == 2 ==> |r.accepted + {socket}| == 2
    ensures EntriesInv(Next(r, Accept(socket)))
  {
    hide Readies, KindOf;
    NothingForwarded(r.log, ReadySent);
  }

  lemma Subset(a: set<nat>, b: set<nat>)
    requires a <= b
    ensures |a| <= |b|
  {
    assert b == a + (b - a);
  }

  /** What one forwarded signal adds to the records of every socket. */
  lemma ForwardedOnce(log: seq<Sent>, x: Sent)
    requires x.Forwarded?
    ensures forall i: nat ::
      && MessagesOf(log + [x], i) == MessagesOf(log, i) + (if i == x.socket then 1 else 0)
      && BytesOf(log + [x], i) == BytesOf(log, i) + (if i == x.socket then x.bytes else 0)
    ensures forall i: nat ::
      Descriptions(log + [x], KindOf(i))
      == Descriptions(log, KindOf(i)) + if x.data.DescriptionData? && x.data.kind == KindOf(i) then 1 else 0
    ensures Readies(log + [x]) == Readies(log)
  {
    forall i: nat
      ensures
        && MessagesOf(log + [x], i) == MessagesOf(log, i) + (if i == x.socket then 1 else 0)
        && BytesOf(log + [x], i) == BytesOf(log, i) + (if i == x.socket then x.bytes else 0)
      ensures Descriptions(log + [x], KindOf(i))
        == Descriptions(log, KindOf(i)) + if x.data.DescriptionData? && x.data.kind == KindOf(i) then 1 else 0
    {
      LogGrows(log, x, i, KindOf(i));
    }
    LogGrows(log, x, 0, "");
  }

  lemma ReceiveAdmits(r: Room, socket: nat, message: Incoming)
    requires AdmissionInv(r) && socket in r.accepted
    ensures AdmissionInv(Receive(r, socket, message))
  {
    hide Handle;
  }

  lemma ReceiveEntries(r: Room, socket: nat, message: Incoming)
    requires EntriesInv(r) && socket in r.accepted && socket in r.infos && r.infos[socket].role == RoleOf(socket)
    ensures EntriesInv(Receive(r, socket, message))
  {
    hide Readies;
    match Handle(Some(r.infos[socket]), message, r.now)
    case None =>
    case Some((info, data)) =>
      ForwardedOnce(r.log, Forwarded(socket, data, message.bytes));
  }

  lemma ReceiveRecords(r: Room, socket: nat, message: Incoming)
    requires RecordsInv(r) && socket in r.infos && forall i :: i in r.infos ==> i < 2
    ensures RecordsInv(Receive(r, socket, message))
  {
    hide MessagesOf, BytesOf, Descriptions;
    assert SocketInv(r, socket);
    match Handle(Some(r.infos[socket]), message, r.now)
    case None =>
    case Some((info, data)) =>
      var t := Receive(r, socket, message);
      ForwardedOnce(r.log, Forwarded(socket, data, message.bytes));
      assert data.DescriptionData? ==> data.kind == KindOf(socket);
      assert KindOf(0) != KindOf(1);
      forall i | i in t.infos ensures SocketInv(t, i) {
        assert SocketInv(r, i);
      }
      forall i: nat | i < 2 && i !in t.infos ensures Untouched(t.log, i) {
        assert Untouched(r.log, i);
      }
  }

  lemma ReceiveKeeps(r: Room, socket: nat, message: Incoming)
    requires Inv(r) && socket in r.accepted
    ensures Inv(Receive(r, socket, message))
  {
    assert SocketInv(r, socket);
    ReceiveAdmits(r, socket, message);
    ReceiveEntries(r, socket, message);
    ReceiveRecords(r, socket, message);
    hide AdmissionInv, RecordsInv, EntriesInv;
  }

  lemma QuietKeeps(r: Room, e: Event)
    requires Inv(r) && (e.Tick? || e.Leave? || e.Alarm?)
    ensures Inv(Next(r, e))
  {
    hide MessagesOf, BytesOf, Descriptions, Readies;
    var t := Next(r, e);
    if e.Leave? {
      NothingForwarded(r.log, PeerLeftSent(e.socket));
    }
    forall i | i in t.infos ensures SocketInv(t, i) {
      assert SocketInv(r, i);
    }
    forall i: nat | i < 2 && i !in t.infos ensures Untouched(t.log, i) {
      assert Untouched(r.log, i);
    }
  }

  lemma NextKeeps(r: Room, e: Event)
    requires Inv(r)
    ensures Inv(Next(r, e))
  {
    hide Inv, Admit, AcceptSocket, Receive, Wipe;
    match e
    case Fetch(upgrade) => AdmitKeeps(r, upgrade);
    case Accept(socket) => if socket < r.admitted && socket !in r.accepted { AcceptKeeps(r, socket); }
    case Message(socket, message) => if socket in r.accepted { ReceiveKeeps(r, socket, message); }
    case _ => QuietKeeps(r, e);
  }

  lemma {:induction false} RunKeeps(created: Option<int>, now: int, events: seq<Event>)
    ensures Inv(Run(NewRoom(created, now), events))
  {
    if events == [] {
    } else {
      RunKeeps(created, now, events[..|events| - 1]);
      NextKeeps(Run(NewRoom(created, now), events[..|events| - 1]), events[|events| - 1]);
    }
  }

  // ---------------------------------------------------------------- main results

  /**
   * Over a room's whole life, its storage wipe included: at most two sockets are ever
   * admitted, the first as offerer and the second as answerer, and the pair is announced
   * at most once.
   */
  lemma RoomIsSingleUse(created: Option<int>, now: int, events: seq<Event>)
    ensures var r := Run(NewRoom(created, now), events);
      && r.admitted <= 2 && |r.accepted| <= 2
      && (forall i :: i in r.infos ==> i < 2 && r.infos[i].role == RoleOf(i))
      && Readies(r.log) <= 1
  {
    RunKeeps(created, now, events);
    var r := Run(NewRoom(created, now), events);
    TwoSockets(r.accepted, r.admitted);
    forall i | i in r.infos ensures r.infos[i].role == RoleOf(i) {
      assert SocketInv(r, i);
    }
  }

  /**
   * At most one offer and at most one answer are ever forwarded, each only from the
   * socket of its role, and no other description is.
   */
  lemma OneOfferOneAnswer(created: Option<int>, now: int, events: seq<Event>)
    ensures var r := Run(NewRoom(created, now), events);
      && Descriptions(r.log, "offer") <= 1 && Descriptions(r.log, "answer") <= 1
      && forall k :: 0 <= k < |r.log| && r.log[k].Forwarded? && r.log[k].data.DescriptionData? ==>
           r.log[k].data.kind == KindOf(r.log[k].socket)
  {
    RunKeeps(created, now, events);
    var r := Run(NewRoom(created, now), events);
    assert KindOf(0) == "offer" && KindOf(1) == "answer";
    if 0 in r.infos { assert SocketInv(r, 0); }
    if 1 in r.infos { assert SocketInv(r, 1); }
  }

  /** Each socket has at most 32 messages and 65,536 bytes forwarded, ever. */
  lemma ForwardingIsBounded(created: Option<int>, now: int, events: seq<Event>, socket: nat)
    ensures var r := Run(NewRoom(created, now), events);
      MessagesOf(r.log, socket) <= MAX_MESSAGES && BytesOf(r.log, socket) <= MAX_BYTES
  {
    RunKeeps(created, now, events);
    var r := Run(NewRoom(created, now), events);
    if socket in r.infos {
      assert SocketInv(r, socket);
    } else {
      NeverForwarded(r.log, socket);
    }
  }

  lemma {:induction false} NeverForwarded(log: seq<Sent>, socket: nat)
    requires forall k :: 0 <= k < |log| && log[k].Forwarded? ==> log[k].socket != socket
    ensures MessagesOf(log, socket) == 0 && BytesOf(log, socket) == 0
  {
    if log == [] {
    } else {
      var rest := log[..|log| - 1];
      NeverForwarded(rest, socket);
      LogGrows(rest, log[|log| - 1], socket, "");
      assert log == rest + [log[|log| - 1]];
    }
  }

  /** Once the storage is wiped no one is admitted any more, and nothing is forwarded. */
  lemma {:induction false} WipedRoomStaysEmpty(r: Room, more: seq<Event>)
    requires Inv(r) && r.wiped
    ensures var t := Run(r, more);
      && Inv(t) && t.wiped && t.admitted == r.admitted
      && forall i :: MessagesOf(t.log, i) == MessagesOf(r.log, i)
  {
    if more == [] {
    } else {
      var before := more[..|more| - 1];
      WipedRoomStaysEmpty(r, before);
      NextKeeps(Run(r, before), more[|more| - 1]);
      WipedStep(Run(r, before), more[|more| - 1]);
    }
  }

  lemma WipedStep(r: Room, e: Event)
    requires Inv(r) && r.wiped
    ensures var t := Next(r, e);
      t.wiped && t.admitted == r.admitted && forall i :: MessagesOf(t.log, i) == MessagesOf(r.log, i)
  {
    var t := Next(r, e);
    if e.Message? && e.socket in r.infos {
      assert SocketInv(r, e.socket);
    }
    if t.log != r.log {
      var x := t.log[|r.log|];
      assert t.log == r.log + [x] && !x.Forwarded?;
      forall i ensures MessagesOf(t.log, i) == MessagesOf(r.log, i) {
        LogGrows(r.log, x, i, "");
      }
    }
  }

  // ---------------------------------------------------------------- the object

  predicate NoRepeats(xs: seq<nat>) {
    forall i, j :: 0 <= i < j < |xs| ==> xs[i] != xs[j]
  }

  function Elements(xs: seq<nat>): set<nat> {
    set i | i in xs
  }

  class SignalingRoom {
    const created: Option<int>
    var joined: Option<nat>
    var alarmAt: Option<int>
    var live: seq<nat>            // getWebSockets()
    var attachments: map<nat, Info>
    ghost var clock: int
    ghost var wiped: bool
    ghost var admitted: nat
    ghost var accepted: set<nat>
    ghost var log: seq<Sent>

    ghost function View(): Room
      reads this
    {
      Room(created, clock, joined, alarmAt, wiped, admitted, accepted, Elements(live), attachments, log)
    }

    ghost predicate Valid()
      reads this
    {
      && Inv(View())
      && NoRepeats(live)
    }

    constructor (created: Option<int>, now: int)
      ensures Valid() && View() == NewRoom(created, now)
    {
      this.created := created;
      joined, alarmAt, live, attachments := None, None, [], map[];
      clock, wiped, admitted, accepted, log := now, false, 0, {}, [];
    }

    /** The checks of `fetch` and its admission transaction. */
    method Fetch(upgrade: bool, now: int) returns (answer: Answer)
      requires Valid() && now >= clock
      modifies this
      ensures Valid() && (View(), answer) == Admit(old(View()).(now := now), upgrade)
    {
      hide Inv, RoomExpiry;
      QuietKeeps(View(), Tick(now));
      AdmitKeeps(View().(now := now), upgrade);
      clock := now;
      var expires := RoomExpiry(created, now);
      if expires.None? {
        return Expired;
      }
      if !upgrade {
        return NotUpgrade;
      }
      var count := if joined.Some? then joined.value else 0;
      if count >= 2 {
        return Used;
      }
      answer := Admitted(count, if count == 0 then Offerer else Answerer);
      joined := Some(count + 1);
      alarmAt := expires;
      admitted := admitted + 1;
    }

    /** The rest of `fetch` for an admitted socket: whether the pair is announced, and to whom. */
    method AcceptWebSocket(socket: nat, role: Role, expires: int) returns (announced: seq<nat>)
      requires Valid() && socket < admitted && socket !in accepted
      requires role == RoleOf(socket) && created.Some? && expires == created.value + ROOM_TTL
      modifies this
      ensures Valid() && View() == Next(old(View()), Accept(socket))
      ensures announced == if |live| == 2 then live else []
    {
      hide Inv, Elements, NoRepeats, RoleOf;
      AcceptKeeps(View(), socket);
      RoomFacts(View());
      ElementsGrow(live, socket);
      Enroll(socket, Info(role, expires, 0, 0, false));
      Distinct(live);
      announced := [];
      if |live| == 2 {
        announced := live;
        log := log + [ReadySent];
      }
    }

    /** Accepts a socket and writes its attachment. */
    method Enroll(socket: nat, info: Info)
      requires socket !in live && NoRepeats(live)
      modifies this
      ensures NoRepeats(live)
      ensures View() == old(View()).(accepted := old(accepted) + {socket}, open := old(View()).open + {socket},
                                     infos := old(attachments)[socket := info])
    {
      ElementsGrow(live, socket);
      hide Elements, NoRepeats;
      live := live + [socket];
      attachments := attachments[socket := info];
      accepted := accepted + {socket};
    }

    /** The other sockets of the room. */
    method Others(except: nat) returns (to: seq<nat>)
      requires NoRepeats(live)
      ensures NoRepeats(to) && forall i :: i in to <==> i in live && i != except
    {
      to := [];
      for k := 0 to |live|
        invariant NoRepeats(to) && forall i :: i in to <==> i in live[..k] && i != except
      {
        assert live[k] !in live[..k];
        if live[k] != except {
          ElementsGrow(to, live[k]);
          to := to + [live[k]];
        }
      }
    }

    /** One message: it is forwarded to the other sockets, or its socket is closed. */
    method WebSocketMessage(socket: nat, message: Incoming, now: int) returns (to: seq<nat>, closed: bool)
      requires Valid() && now >= clock && socket in accepted
      modifies this
      ensures Valid() && View() == Receive(old(View()).(now := now), socket, message)
      ensures closed <==> log == old(log)
      ensures !closed ==> forall i :: i in to <==> i in live && i != socket
    {
      hide Inv, RoomExpiry;
      RoomFacts(View());
      QuietKeeps(View(), Tick(now));
      ReceiveKeeps(View().(now := now), socket, message);
      clock, to, closed := now, [], true;
      var info := attachments[socket];
      if now >= info.expires {
        return;
      }
      if message.Binary? || message.units > MAX_UNITS {
        return;
      }
      info := info.(messages := info.messages + 1, bytes := info.bytes + message.bytes);
      if info.messages > MAX_MESSAGES || info.bytes > MAX_BYTES {
        return;
      }
      if message.data.None? {
        return;
      }
      var valid := ValidateSignal(message.data.value, info);
      if valid.None? {
        return;
      }
      attachments := attachments[socket := valid.value];
      log := log + [Forwarded(socket, message.data.value, message.bytes)];
      closed := false;
      to := Others(socket);
    }

    /** A socket has closed: the others are told that the peer left. */
    method WebSocketClose(socket: nat) returns (to: seq<nat>)
      requires Valid() && socket in live
      modifies this
      ensures Valid() && View() == Next(old(View()), Leave(socket))
      ensures forall i :: i in to <==> i in old(live) && i != socket
    {
      hide Inv;
      QuietKeeps(View(), Leave(socket));
      to := Others(socket);
      assert Elements(to) == Elements(live) - {socket};
      live := to;
      log := log + [PeerLeftSent(socket)];
    }

    /** The alarm closes every socket and deletes the storage. */
    method OnAlarm(now: int) returns (closed: seq<nat>)
      requires Valid() && now >= clock && alarmAt.Some? && now >= alarmAt.value
      modifies this
      ensures Valid() && View() == Wipe(old(View()).(now := now))
      ensures closed == old(live)
    {
      hide Inv;
      QuietKeeps(View(), Tick(now));
      QuietKeeps(View().(now := now), Alarm);
      clock, wiped := now, true;
      closed := live;
      joined, alarmAt := None, None;
    }
  }

  lemma ElementsGrow(xs: seq<nat>, x: nat)
    ensures Elements(xs + [x]) == Elements(xs) + {x}
    ensures x in xs ==> x in Elements(xs)
    ensures NoRepeats(xs) && x !in xs ==> NoRepeats(xs + [x])
  {
  }

  lemma Distinct(xs: seq<nat>)
    requires NoRepeats(xs)
    ensures |Elements(xs)| == |xs|
  {
    if xs == [] {
    } else {
      var rest := xs[..|xs| - 1];
      Distinct(rest);
      assert Elements(xs) == Elements(rest) + {xs[|xs| - 1]};
    }
  }
}
