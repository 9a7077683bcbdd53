/**
 * What the signaling room (infra/cloudflare/worker/src/signal-room.js) does with each
 * request and each message, told from the outside: by the clock, the room token and
 * what has been forwarded so far.
 */
module SignalLaws {
  import opened Base
  import opened SignalRoom

  /** The room's window is open: the token is well formed, not from the future, and less than ten minutes old. */
  predicate WindowOpen(created: Option<int>, now: int) {
    created.Some? && created.value <= now + 30_000 && now < created.value + 600_000
  }

  /** The kind of description a socket may send: the first socket offers, the second answers. */
  function OwnKind(socket: nat): string {
    if socket == 0 then "offer" else "answer"
  }

  /** A signal the room forwards: a candidate of at most 2048 characters, or the first description of its role. */
  ghost predicate WellFormed(log: seq<Sent>, socket: nat, data: Data) {
    match data
    case CandidateData(length) => length.Some? && length.value <= 2048
    case DescriptionData(kind, sdp) =>
      && kind == OwnKind(socket) && Descriptions(log, kind) == 0
      && sdp.Some? && |sdp.value| >= 5 && sdp.value[..5] == "v=0\r\n"
  }

  /** In time, textual, small enough, within what the socket may send in all, and well formed. */
  ghost predicate Forwardable(r: Room, socket: nat, message: Incoming) {
    && r.created.Some? && r.now < r.created.value + 600_000
    && message.Text? && message.units <= 24_576
    && MessagesOf(r.log, socket) < 32 && BytesOf(r.log, socket) + message.bytes <= 65_536
    && message.data.Some? && WellFormed(r.log, socket, message.data.value)
  }

  lemma SocketAt(r: Room, socket: nat)
    requires Inv(r) && socket in r.accepted
    ensures socket in r.infos && SocketInv(r, socket) && socket < 2
  {
  }

  lemma OwnKindOf(socket: nat)
    ensures KindOf(socket) == OwnKind(socket)
    ensures RoleOf(socket) == if socket == 0 then Offerer else Answerer
  {
  }

  /**
   * In every state of every room: a message of an accepted socket is forwarded, once and
   * as it is, exactly if it is forwardable; if not, nothing is recorded of it.
   */
  lemma ForwardedExactly(created: Option<int>, now: int, events: seq<Event>, socket: nat, message: Incoming)
    requires socket in Run(NewRoom(created, now), events).accepted
    ensures var r := Run(NewRoom(created, now), events);
      var t := Next(r, Message(socket, message));
      if Forwardable(r, socket, message)
      then t.log == r.log + [Forwarded(socket, message.data.value, message.bytes)]
           && t.open == r.open && t.admitted == r.admitted && t.joined == r.joined && t.alarm == r.alarm
      else t == r
  {
    hide Inv, Run, MessagesOf, BytesOf, Descriptions, KindOf, RoleOf;
    RunKeeps(created, now, events);
    var r := Run(NewRoom(created, now), events);
    SocketAt(r, socket);
    OwnKindOf(socket);
    if message.Text? && message.data.Some? && message.data.value.DescriptionData? && message.data.value.sdp.Some? {
      SdpStarts(message);
    }
  }

  lemma SdpStarts(message: Incoming)
    requires message.Text? && message.data.Some? && message.data.value.DescriptionData?
    requires message.data.value.sdp.Some?
    ensures var sdp := message.data.value.sdp.value;
      ("v=0\r\n" <= sdp <==> |sdp| >= 5 && sdp[..5] == "v=0\r\n")
  {
  }

  /** An upgrade is admitted exactly in an open window with a place left; otherwise nothing changes. */
  lemma AdmittedExactly(created: Option<int>, now: int, events: seq<Event>, upgrade: bool)
    ensures var r := Run(NewRoom(created, now), events);
      var (t, answer) := Admit(r, upgrade);
      && Next(r, Fetch(upgrade)) == t
      && (answer == Expired <==> !WindowOpen(created, r.now))
      && (answer == NotUpgrade <==> WindowOpen(created, r.now) && !upgrade)
      && (answer == Used <==> WindowOpen(created, r.now) && upgrade && r.admitted == 2)
      && (answer.Admitted? <==> WindowOpen(created, r.now) && upgrade && r.admitted < 2)
      && (answer.Admitted? ==>
            && answer == Admitted(r.admitted, if r.admitted == 0 then Offerer else Answerer)
            && t.admitted == r.admitted + 1 && t.alarm == Some(created.value + 600_000)
            && t.log == r.log && t.open == r.open && t.infos == r.infos)
      && (!answer.Admitted? ==> t == r)
  {
    hide Inv, Run;
    RunKeeps(created, now, events);
    CreatedStays(created, now, events);
    AdmissionFacts(Run(NewRoom(created, now), events));
  }

  lemma AdmissionFacts(r: Room)
    requires Inv(r)
    ensures AdmissionInv(r)
  {
  }

  lemma {:induction false} CreatedStays(created: Option<int>, now: int, events: seq<Event>)
    ensures Run(NewRoom(created, now), events).created == created
  {
    if events == [] {
    } else {
      CreatedStays(created, now, events[..|events| - 1]);
    }
  }

  /** An admitted socket starts with nothing sent, and the second open one announces the pair to both. */
  lemma AcceptedExactly(created: Option<int>, now: int, events: seq<Event>, socket: nat)
    requires var r := Run(NewRoom(created, now), events); socket < r.admitted && socket !in r.accepted
    ensures var r := Run(NewRoom(created, now), events);
      var t := Next(r, Accept(socket));
      && created.Some?
      && t.open == r.open + {socket} && t.accepted == r.accepted + {socket}
      && t.infos == r.infos[socket := Info(if socket == 0 then Offerer else Answerer, created.value + 600_000,
                                           0, 0, false)]
      && t.log == (if exists other :: other in r.open then r.log + [ReadySent] else r.log)
  {
    hide Inv, Run;
    RunKeeps(created, now, events);
    CreatedStays(created, now, events);
    var r := Run(NewRoom(created, now), events);
    PlaceLeft(r, socket);
    SecondOpens(r.open, r.accepted, socket);
  }

  lemma PlaceLeft(r: Room, socket: nat)
    requires Inv(r) && socket < r.admitted && socket !in r.accepted
    ensures r.open <= r.accepted && |r.accepted| <= 1 && r.created.Some?
  {
    AcceptAdmits(r, socket);
  }

  lemma SecondOpens(open: set<nat>, accepted: set<nat>, socket: nat)
    requires open <= accepted && |accepted| <= 1 && socket !in accepted
    ensures |open + {socket}| == 2 <==> exists other :: other in open
  {
    Subset(open, accepted);
    assert |open + {socket}| == |open| + 1;
    if other :| other in open {
      assert open == {other} + (open - {other});
    } else {
      assert open == {};
    }
  }

  /** Everything is deleted exactly when the alarm is due, and a leaving socket is announced. */
  lemma RoomEnds(r: Room, socket: nat)
    ensures var t := Next(r, Alarm);
      if r.alarm.Some? && r.alarm.value <= r.now
      then t == r.(joined := None, alarm := None, wiped := true) else t == r
    ensures socket in r.open ==>
      Next(r, Leave(socket)) == r.(open := r.open - {socket}, log := r.log + [PeerLeftSent(socket)])
  {
  }
}
