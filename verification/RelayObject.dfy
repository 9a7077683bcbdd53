/**
 * The Durable Object itself: a class whose handlers update attachments, storage and the alarm
 * in place, written segment by segment as in infra/cloudflare/worker/src/iroh-relay.js. Every
 * method is proved against the state machine of RelayModel.
 */
module RelayObject {
  import opened Base
  import opened RelayMetrics
  import opened RelayProtocol
  import opened RelayModel
  import RelayInvariant
  import RelayTheorems

  // ---------------------------------------------------------------- counter arithmetic

  /** Two successive raises are one raise by their sum. */
  lemma AddTwice(counts: Counts, first: map<Counter, nat>, second: map<Counter, nat>, both: map<Counter, nat>)
    requires forall k: Counter :: Of(both, k) == Of(first, k) + Of(second, k)
    ensures Add(Add(counts, first), second) == Add(counts, both)
  {
  }

  lemma MessageTwice(counts: Counts, bytes: nat)
    ensures Add(Add(counts, map[Messages := 1]), map[InboundBytes := bytes]) == Add(counts, MessageGain(bytes))
  {
    AddTwice(counts, map[Messages := 1], map[InboundBytes := bytes], MessageGain(bytes));
  }

  /** `counts[k] += n`. */
  lemma AddOne(counts: Counts, k: Counter, n: nat)
    ensures counts[k := counts[k] + n] == Add(counts, map[k := n])
  {
  }

  /** Writing an attachment back without raising a counter. */
  lemma UpdateNothing(s: State, ws: nat, info: Socket)
    requires ws < |s.sockets|
    ensures Update(s, ws, info, map[]) == s.(sockets := s.sockets[ws := info])
  {
    AddNothing(info.counts);
    AddNothing(s.ledger);
  }

  lemma KindsAreNew(bytes: nat)
    ensures Ping !in MessageGain(bytes) && Pong !in MessageGain(bytes) && Datagram !in MessageGain(bytes)
  {
  }

  lemma KindGain(counts: Counts, gain: map<Counter, nat>, kind: Counter)
    requires kind !in gain
    ensures Add(Add(counts, gain), map[kind := 1]) == Add(counts, gain[kind := 1])
  {
    AddTwice(counts, gain, map[kind := 1], gain[kind := 1]);
  }

  /** Booking a counter in the attachment just written back is booking it with the rest. */
  lemma BookedAgain(s: State, ws: nat, next: Socket, gain: map<Counter, nat>, kind: Counter)
    requires ws < |s.sockets| && kind !in gain
    ensures var u := Update(s, ws, next, gain);
            Update(u, ws, u.sockets[ws], map[kind := 1]) == Update(s, ws, next, gain[kind := 1])
            && |u.sockets| == |s.sockets| && u.tasks == s.tasks
  {
    KindGain(next.counts, gain, kind);
    KindGain(s.ledger, gain, kind);
    hide Add;
  }

  /** A message and its bytes, booked one after the other. */
  lemma MessageBooked(s: State, ws: nat, next: Socket, bytes: nat)
    requires ws < |s.sockets|
    ensures var info := next.(counts := Add(Add(next.counts, map[Messages := 1]), map[InboundBytes := bytes]));
            Update(s, ws, next, MessageGain(bytes)) ==
            s.(sockets := s.sockets[ws := info],
               ledger := Add(Add(s.ledger, map[Messages := 1]), map[InboundBytes := bytes]))
  {
    MessageTwice(next.counts, bytes);
    MessageTwice(s.ledger, bytes);
    hide Add, MessageGain;
  }

  lemma RoomExpires(expires: int, ping: int, now: int)
    ensures var room := RelayRoom(Some(expires - RELAY_TTL), ping, now, false);
            room.Some? ==> room.value == Room(expires, ping)
  {
  }

  /** A new attachment depends on the clock and the expiry only. */
  lemma SameNewcomer(s: State, s': State)
    requires s'.now == s.now && s'.expires == s.expires
    ensures NewSocket(s') == NewSocket(s)
  {
  }

  lemma ClaimedId(info: Socket, id: string)
    ensures Claimed(info, id).id == Some(id)
  {
  }

  /** Refilling the bucket leaves the rest of an attachment alone. */
  lemma RefilledKeepsRest(info: Socket, now: int)
    ensures var next := Refilled(info, now);
            && next.archived == info.archived && next.id == info.id && next.phase == info.phase
            && next.deadline == info.deadline && next.counts == info.counts
  {
  }

  /** Claiming and retiring a rival touch different sockets, so they commute. */
  lemma ClaimThenRetire(s: State, t: nat, ws: nat, info: Socket, rival: nat, after: Resume)
    requires ws < |s.sockets| && t < |s.tasks| && info.id.Some? && Matches(s.sockets, rival, ws, info.id.value, false)
    ensures Finish(Update(s, ws, info, map[Auth := 1]), t, rival, after)
         == Update(Retired(s, t, rival, s.sockets[rival], map[], after), ws, info, map[Auth := 1])
  {
    AddNothing(s.ledger);
    AddNothing(Add(s.ledger, map[Auth := 1]));
    AddNothing(s.sockets[rival].counts);
    hide Add;
    assert Finish(Update(s, ws, info, map[Auth := 1]), t, rival, after).sockets
        == Update(Retired(s, t, rival, s.sockets[rival], map[], after), ws, info, map[Auth := 1]).sockets;
  }

  class IrohRelay {
    const expires: int
    var now: int
    var sockets: seq<Socket>
    var tasks: seq<Task>
    var meta: Option<Meta>
    var attempts: nat
    var identities: seq<string>
    var closed: Option<Closed>
    var alarm: Option<int>
    ghost var ledger: Counts
    ghost var wiped: bool
    ghost var armedAt: int
    ghost var delivered: seq<Delivery>

    ghost function View(): State
      reads this
    {
      State(expires, now, sockets, tasks, meta, attempts, identities, closed, alarm, ledger, wiped, armedAt, delivered)
    }

    /** What holds at every await point; see RelayInvariant. */
    ghost predicate Valid()
      reads this
    {
      RelayInvariant.Inv(View()) && RelayTheorems.Calm(View())
    }

    constructor (expires: int, now: int)
      ensures View() == Init(expires, now) && Valid()
    {
      RelayInvariant.InitKeeps(expires, now);
      this.expires := expires;
      this.now := now;
      sockets, tasks, meta, attempts, identities, closed, alarm := [], [], None, 0, [], None, None;
      ledger, wiped, armedAt, delivered := ZeroCounts(), false, now, [];
    }

    // -------------------------------------------------------------- counters and sends

    /** `info.counts[k] += n` on a copy of an attachment. */
    method Count(info: Socket, k: Counter, n: nat) returns (counted: Socket)
      modifies this`ledger
      ensures counted == info.(counts := Add(info.counts, map[k := n]))
      ensures ledger == Add(old(ledger), map[k := n])
    {
      AddOne(info.counts, k, n);
      AddOne(ledger, k, n);
      hide Add;
      counted := info.(counts := info.counts[k := info.counts[k] + n]);
      ledger := ledger[k := ledger[k] + n];
    }

    /** relay-metrics.js, lines 10-16: the counters move only when the send did not throw. */
    method Send(ws: nat, bytes: nat, category: Option<Counter>, reachable: set<nat>) returns (ok: bool)
      requires ws < |sockets| && (category.Some? ==> category.value != OutboundBytes)
      modifies this
      ensures ok == (ws in reachable)
      ensures View() == if ok then Sent(old(View()), ws, bytes, category) else old(View())
      ensures |sockets| == |old(sockets)| && tasks == old(tasks)
    {
      var info := sockets[ws];
      ok := ws in reachable;
      if ok {
        info := Count(info, OutboundBytes, bytes);
        if category.Some? {
          AddTwice(sockets[ws].counts, map[OutboundBytes := bytes], map[category.value := 1],
                   SendGain(bytes, category));
          AddTwice(old(ledger), map[OutboundBytes := bytes], map[category.value := 1], SendGain(bytes, category));
          info := Count(info, category.value, 1);
        }
        sockets := sockets[ws := info];
      }
    }

    // -------------------------------------------------------------- finish

    /** Lines 150-154. */
    method Finish(t: nat, ws: nat, after: Resume)
      requires ws < |sockets| && t < |tasks|
      modifies this
      ensures View() == RelayModel.Finish(old(View()), t, ws, after)
      ensures |tasks| == |old(tasks)| && |sockets| == |old(sockets)|
    {
      var info := sockets[ws];
      AddNothing(info.counts);
      AddNothing(ledger);
      if info.archived {
        tasks := tasks[t := Continue(after)];
        return;
      }
      info := info.(archived := true);
      sockets := sockets[ws := info];
      info := info.(open := false);
      sockets := sockets[ws := info];
      tasks := tasks[t := Retire(ws, info.counts, info.id, after)];
      assert sockets == old(sockets)[ws := info];
    }

    /** A send whose exception ends in `finish` for the same socket: lines 60, 92 and 141-142. */
    method SendOrFinish(t: nat, ws: nat, bytes: nat, category: Option<Counter>, after: Resume, reachable: set<nat>)
      returns (ok: bool)
      requires ws < |sockets| && t < |tasks| && (category.Some? ==> category.value != OutboundBytes)
      modifies this
      ensures ok == (ws in reachable)
      ensures View() == if ok then Sent(old(View()), ws, bytes, category)
                        else RelayModel.Finish(old(View()), t, ws, after)
      ensures |tasks| == |old(tasks)|
    {
      hide Sent, RelayModel.Finish;
      ok := Send(ws, bytes, category, reachable);
      if !ok {
        Finish(t, ws, after);
      }
    }

    /** The transaction at lines 154-159. */
    method CommitClosed(t: nat)
      requires t < |tasks| && tasks[t].Retire?
      modifies this
      ensures View() == Commit(old(View()), t)
    {
      var Retire(ws, counts, id, after) := tasks[t];
      var record := if closed.Some? then closed.value else Closed(0, ZeroCounts());
      var sum := AddCounters(record.counts, counts);
      closed := Some(Closed(record.connections + 1, sum));
      tasks := tasks[t := Announce(ws, id, after)];
    }

    /** Lines 160-166. */
    method AnnounceGone(t: nat, env: Env)
      requires t < |tasks| && tasks[t].Announce?
      modifies this
      ensures View() == Run(old(View()), t, env)
    {
      hide Announced;
      var Announce(ws, id, after) := tasks[t];
      tasks := tasks[t := Rearm(after)];
      if id.Some? {
        TellAll(ws, id.value, env.reachable);
      }
    }

    method TellAll(ws: nat, id: string, reachable: set<nat>)
      modifies this
      ensures View() == Announced(old(View()), ws, id, 0, reachable)
    {
      hide Announced, Sent, HearsOf;
      ghost var start := View();
      var peer := 0;
      while peer < |sockets|
        invariant 0 <= peer <= |sockets| == |start.sockets|
        invariant Announced(start, ws, id, 0, reachable) == Announced(View(), ws, id, peer, reachable)
      {
        AnnouncedSteps(View(), ws, id, peer, reachable);
        TellGone(peer, ws, id, reachable);
        peer := peer + 1;
      }
      AnnouncedSteps(View(), ws, id, |sockets|, reachable);
    }

    method TellGone(peer: nat, ws: nat, id: string, reachable: set<nat>)
      requires peer < |sockets|
      modifies this
      ensures View() == if peer != ws && HearsOf(old(sockets)[peer], id) && peer in reachable
                        then Sent(old(View()), peer, 33, Some(EndpointGone)) else old(View())
      ensures |sockets| == |old(sockets)|
    {
      hide Sent;
      var other := sockets[peer];
      if peer != ws && other.listed && other.phase == Authenticated && !other.archived && other.id != Some(id) {
        var ok := Send(peer, 33, Some(EndpointGone), reachable);
      }
    }

    // -------------------------------------------------------------- schedule

    /** Lines 113-124. */
    method Schedule()
      modifies this
      ensures View() == Armed(old(View()))
    {
      if meta.None? {
        return;
      }
      var m := meta.value;
      var next := m.expires;
      if m.nextPing.Some? {
        next := Min(next, m.nextPing.value);
      }
      ghost var limit := next;
      var active := false;
      var k := |sockets|;
      while k > 0
        invariant 0 <= k <= |sockets|
        invariant active <==> exists j :: k <= j < |sockets| && Active(sockets[j])
        invariant next == Earliest(sockets[k..], limit)
        invariant View() == old(View())
      {
        k := k - 1;
        var info := sockets[k];
        assert sockets[k..][1..] == sockets[k + 1..];
        if info.listed && !info.archived {
          active := true;
          if info.deadline.Some? {
            next := Min(info.deadline.value, next);
          }
        }
      }
      assert sockets[0..] == sockets;
      if !active {
        next := m.expires + HOUR;
      }
      alarm, armedAt := Some(Max(now + 1, next)), now;
    }

    // -------------------------------------------------------------- fetch and admit

    /** Line 38: listed sockets that are neither archived nor closing. */
    method CountLive() returns (live: nat)
      ensures live == Total(sockets, LiveCount())
    {
      live := 0;
      var k := |sockets|;
      while k > 0
        invariant 0 <= k <= |sockets|
        invariant live == Total(sockets[k..], LiveCount())
      {
        k := k - 1;
        assert sockets[k..][1..] == sockets[k + 1..];
        if sockets[k].listed && !sockets[k].archived && sockets[k].open {
          live := live + 1;
        }
      }
      assert sockets[0..] == sockets;
    }

    /** Lines 32-44. */
    method Admit(room: Room) returns (accepted: bool)
      requires room.expires == expires
      modifies this
      ensures accepted == old((meta.Some? ==> meta.value.ping == room.ping)
                              && attempts < MAX_UPGRADES && Total(sockets, LiveCount()) < MAX_OPEN)
      ensures View() == if !accepted then old(View())
                        else old(View()).(
                          meta := if old(meta).Some? then old(meta) else Some(Meta(expires, room.ping, None, 0)),
                          attempts := old(attempts) + 1)
    {
      var live := CountLive();
      if (meta.Some? && meta.value.ping != room.ping) || attempts >= MAX_UPGRADES || live >= MAX_OPEN {
        return false;
      }
      if meta.None? {
        meta := Some(Meta(room.expires, room.ping, None, 0));
      }
      attempts := attempts + 1;
      return true;
    }

    /** Lines 13-28, for an upgrade request. */
    method Fetch(ping: int)
      modifies this
      ensures View() == RelayModel.Fetch(old(View()), ping)
    {
      hide Add, LiveCount, RelayRoom, SendGain, NewSocket;
      ghost var before := View();
      RoomExpires(expires, ping, now);
      var room := RelayRoom(Some(expires - RELAY_TTL), ping, now, false);
      if room.None? {
        return;
      }
      var accepted := Admit(room.value);
      if !accepted {
        return;
      }
      SameNewcomer(before, View());
      Accept();
      tasks := tasks + [Rearm(Done)];
    }

    /** Lines 25-28: the new attachment, and the challenge frame of 17 bytes. */
    method Accept()
      modifies this
      ensures View() == old(View()).(sockets := old(sockets) + [NewSocket(old(View()))],
                                     ledger := Add(old(ledger), SendGain(17, None)))
    {
      var ws := |sockets|;
      sockets := sockets + [
        Socket(Challenging, Some(now + 10_000), expires, None, false, ZeroCounts(), now, 0, None, true, true)];
      hide Add, SendGain;
      var ok := Send(ws, 17, None, {ws});
      assert sockets == old(sockets) + [sockets[ws]];
    }

    // -------------------------------------------------------------- webSocketMessage

    /** Lines 51-54: the message is booked before anything is decided about it. */
    method BookMessage(ws: nat, bytes: nat)
      requires ws < |sockets|
      modifies this
      ensures View() == Update(old(View()), ws, Refilled(old(sockets)[ws], now), MessageGain(bytes))
    {
      var info := sockets[ws];
      if now - info.bucket >= 10_000 {
        info := info.(bucket := now, bucketMessages := 0);
      }
      info := info.(bucketMessages := info.bucketMessages + 1);
      assert info == Refilled(sockets[ws], now);
      BookBytes(ws, bytes, info);
    }

    /** Lines 53-54. */
    method BookBytes(ws: nat, bytes: nat, next: Socket)
      requires ws < |sockets|
      modifies this
      ensures View() == Update(old(View()), ws, next, MessageGain(bytes))
    {
      MessageBooked(View(), ws, next, bytes);
      hide Add, Update, MessageGain;
      var info := Count(next, Messages, 1);
      info := Count(info, InboundBytes, bytes);
      sockets := sockets[ws := info];
    }

    /** Lines 45-67 up to the first await. */
    method WebSocketMessage(ws: nat, message: Message, env: Env)
      requires ws < |sockets|
      modifies this
      ensures View() == OnMessage(old(View()), ws, message, env)
    {
      hide OnFrame, Retired, RelayModel.Finish, MessageGain, Refilled;
      var t := |tasks|;
      tasks := tasks + [Idle];
      ghost var s := View();
      if sockets[ws].archived || now >= sockets[ws].expires || message.Text? {
        Finish(t, ws, Done);
        return;
      }
      RefilledKeepsRest(sockets[ws], now);
      ghost var next := Refilled(sockets[ws], now);
      ghost var gain := MessageGain(|message.bytes|);
      BookMessage(ws, |message.bytes|);
      var info := sockets[ws];
      if info.bucketMessages > MAX_BUCKET || info.counts[Messages] > MAX_MESSAGES
         || info.counts[InboundBytes] > MAX_INBOUND {
        Abandon(t, ws, s, next, gain);
        return;
      }
      if info.phase == Challenging {
        Authorize(t, ws, message.bytes, s, next, gain);
      } else if info.phase == Verifying {
        Abandon(t, ws, s, next, gain);
      } else {
        Dispatch(t, ws, ParseClientFrame(message.bytes), env, s, next, |message.bytes|);
      }
    }

    /** The catch at line 66, after the counters of the message have been written back. */
    method Abandon(t: nat, ws: nat, ghost s: State, ghost next: Socket, ghost gain: map<Counter, nat>)
      requires ws < |s.sockets| && t < |s.tasks| && !next.archived && View() == Update(s, ws, next, gain)
      modifies this
      ensures View() == Retired(s, t, ws, next, gain, Done)
    {
      RetireWritten(s, t, ws, next, gain, Done);
      Finish(t, ws, Done);
    }

    /** Lines 69-72. */
    method Authorize(t: nat, ws: nat, frame: seq<byte>,
                     ghost s: State, ghost next: Socket, ghost gain: map<Counter, nat>)
      requires ws < |s.sockets| && t < |s.tasks| && !next.archived && View() == Update(s, ws, next, gain)
      modifies this
      ensures View() == if Past(next.deadline, s.now) then Retired(s, t, ws, next, gain, Done)
                        else SetTask(Update(s, ws, next.(phase := Verifying), gain), t, Verify(ws, frame))
    {
      var info := sockets[ws];
      if info.deadline.None? || now >= info.deadline.value {
        Abandon(t, ws, s, next, gain);
        return;
      }
      info := info.(phase := Verifying);
      sockets := sockets[ws := info];
      tasks := tasks[t := Verify(ws, frame)];
      assert sockets == s.sockets[ws := info];
    }

    /** Line 59: the type of a parsed frame is booked on a copy read again. */
    method BookKind(ws: nat, kind: Counter, ghost s: State, ghost next: Socket, ghost gain: map<Counter, nat>)
      requires ws < |s.sockets| && kind !in gain && View() == Update(s, ws, next, gain)
      modifies this
      ensures View() == Update(s, ws, next, gain[kind := 1])
      ensures |sockets| == |s.sockets| && tasks == s.tasks
    {
      BookedAgain(s, ws, next, gain, kind);
      hide Add, Update;
      BookOne(ws, kind, 1);
    }

    /** `counts[k] += n` in an attachment, written back. */
    method BookOne(ws: nat, k: Counter, n: nat)
      requires ws < |sockets|
      modifies this
      ensures View() == Update(old(View()), ws, old(sockets)[ws], map[k := n])
      ensures tasks == old(tasks) && |sockets| == |old(sockets)|
    {
      hide Add;
      var info := Count(sockets[ws], k, n);
      sockets := sockets[ws := info];
    }

    /** Lines 58-65. */
    method Dispatch(t: nat, ws: nat, parsed: Option<ClientFrame>, env: Env,
                    ghost s: State, ghost next: Socket, ghost bytes: nat)
      requires ws < |s.sockets| && t < |s.tasks| && |sockets| == |s.sockets| && |tasks| == |s.tasks| && !next.archived
      requires View() == Update(s, ws, next, MessageGain(bytes))
      modifies this
      ensures View() == OnFrame(s, t, ws, next, MessageGain(bytes), parsed, env)
    {
      hide Update, Sent, RelayModel.Finish, Retired, RelayModel.Route, MessageGain, Hex;
      ghost var gain := MessageGain(bytes);
      KindsAreNew(bytes);
      match parsed {
        case None => Abandon(t, ws, s, next, gain);
        case Some(PingFrame(frame)) =>
          BookKind(ws, Ping, s, next, gain);
          var ok := SendOrFinish(t, ws, |frame|, Some(ServerPong), Done, env.reachable);
        case Some(PongFrame(frame)) =>
          BookKind(ws, Pong, s, next, gain);
          OnPong(t, ws, frame, s, next, gain[Pong := 1]);
        case Some(DatagramFrame(destination, frame)) =>
          BookKind(ws, Datagram, s, next, gain);
          tasks := tasks[t := Routing(ws, destination, frame)];
          Route(t, env);
      }
    }

    /** Lines 62-64. */
    method OnPong(t: nat, ws: nat, frame: seq<byte>, ghost s: State, ghost next: Socket, ghost gain: map<Counter, nat>)
      requires ws < |s.sockets| && t < |s.tasks| && !next.archived && View() == Update(s, ws, next, gain)
      modifies this
      ensures View() == if next.pendingPing != Some(Hex(Payload(frame))) then Retired(s, t, ws, next, gain, Done)
                        else SetTask(Update(s, ws, next.(pendingPing := None, deadline := None), gain), t, Rearm(Done))
    {
      hide Add, Retired, Hex;
      var info := sockets[ws];
      if info.pendingPing != Some(Hex(Payload(frame))) {
        Abandon(t, ws, s, next, gain);
        return;
      }
      info := info.(pendingPing := None);
      info := info.(deadline := None);
      sockets := sockets[ws := info];
      tasks := tasks[t := Rearm(Done)];
      assert sockets == s.sockets[ws := info];
    }

    // -------------------------------------------------------------- route

    /** getWebSockets().find at lines 99-102, or the filter of line 89: the first match of a list. */
    method Find(list: seq<nat>, ws: nat, id: string, routing: bool) returns (p: nat)
      ensures p == FirstMatch(sockets, list, ws, id, routing)
    {
      p := 0;
      while p < |list| && !Matches(sockets, list[p], ws, id, routing)
        invariant 0 <= p <= |list|
        invariant FirstMatch(sockets, list, ws, id, routing) == p + FirstMatch(sockets, list[p..], ws, id, routing)
      {
        assert list[p..][1..] == list[p + 1..];
        p := p + 1;
      }
    }

    /** `info.counts[verdict]++` and the write back, at lines 103 and 106. */
    method Settle(t: nat, ws: nat, verdict: Counter)
      requires t < |tasks| && ws < |sockets|
      modifies this
      ensures View() == SetTask(Update(old(View()), ws, old(sockets)[ws], map[verdict := 1]), t, Idle)
    {
      var info := Count(sockets[ws], verdict, 1);
      sockets := sockets[ws := info];
      tasks := tasks[t := Idle];
    }

    /** Lines 98-108. */
    method Route(t: nat, env: Env)
      requires t < |tasks| && tasks[t].Routing? && tasks[t].ws < |sockets|
      modifies this
      ensures View() == RelayModel.Route(old(View()), t, env)
    {
      var Routing(ws, destination, frame) := tasks[t];
      var p := Find(env.roster, ws, destination, true);
      hide Update, Sent, RelayModel.Finish, Retired, ForwardedFrame, CanForward;
      if p == |env.roster| {
        Settle(t, ws, Dropped);
        return;
      }
      var target := env.roster[p];
      if CanForward(sockets[ws], frame) && target in env.reachable {
        Forward(ws, target, destination, frame, env.reachable);
        Settle(t, ws, Forwarded);
      } else {
        FinishLive(View(), t, target, DropFor(ws));
        Finish(t, target, DropFor(ws));
      }
    }

    /** Line 105: the stamped frame goes to its target. */
    method Forward(ws: nat, target: nat, ghost destination: string, frame: seq<byte>, reachable: set<nat>)
      requires ws < |sockets| && target < |sockets| && target in reachable && CanForward(sockets[ws], frame)
      modifies this
      ensures var output := ForwardedFrame(frame, old(sockets)[ws].id.value);
        var s1 := Sent(old(View()), target, |output|, None);
        var delivery := Delivery(ws, target, frame, output, Routes(old(sockets), destination));
        View() == s1.(delivered := s1.delivered + [delivery])
    {
      hide Sent, ForwardedFrame, Routes, IsForwarded;
      ghost var routes := Routes(sockets, destination);
      var bytes := new byte[|frame|](i requires 0 <= i < |frame| => frame[i]);
      assert bytes[..] == frame;
      var output := BuildForwarded(bytes, sockets[ws].id.value);
      ForwardedIsUnique(output[..], frame, sockets[ws].id.value);
      var ok := Send(target, output.Length, None, reachable);
      delivered := delivered + [Delivery(ws, target, frame, output[..], routes)];
    }

    /** Lines 109-110. */
    method DropAfterFinish(t: nat, ws: nat)
      requires t < |tasks| && tasks[t] == Continue(DropFor(ws)) && ws < |sockets|
      modifies this
      ensures View() == DroppedLate(old(View()), t, ws)
    {
      if !sockets[ws].archived {
        BookOne(ws, Dropped, 1);
      }
      tasks := tasks[t := Idle];
    }

    // -------------------------------------------------------------- authorize

    /** The transaction at lines 73-80. */
    method AdmitIdentity(t: nat)
      requires t < |tasks| && tasks[t].Identify?
      modifies this
      ensures View() == Identified(old(View()), t)
    {
      var Identify(ws, id) := tasks[t];
      var allowed := true;
      if id !in identities {
        if |identities| >= MAX_IDENTITIES {
          allowed := false;
        } else {
          identities := identities + [id];
        }
      }
      tasks := tasks[t := Claim(ws, id, allowed)];
    }

    /** Lines 83-84. */
    method BookClaim(ws: nat, id: string)
      requires ws < |sockets|
      modifies this
      ensures View() == Update(old(View()), ws, Claimed(old(sockets)[ws], id), map[Auth := 1])
      ensures tasks == old(tasks) && |sockets| == |old(sockets)|
      ensures forall k :: 0 <= k < |sockets| && k != ws ==> sockets[k] == old(sockets)[k]
    {
      var info := sockets[ws];
      info := info.(id := Some(id), phase := Authenticated);
      info := info.(deadline := None);
      info := Count(info, Auth, 1);
      sockets := sockets[ws := info];
    }

    /** Lines 81-93: claim first, then retire the rival, all before the next await. */
    method ClaimIdentity(t: nat, env: Env)
      requires t < |tasks| && tasks[t].Claim? && tasks[t].ws < |sockets|
      modifies this
      ensures View() == ClaimRoute(old(View()), t, env)
    {
      var Claim(ws, id, allowed) := tasks[t];
      var info := sockets[ws];
      if !allowed || info.archived || info.deadline.None? || now >= info.deadline.value || now >= info.expires {
        Finish(t, ws, Done);
        return;
      }
      hide TakeOver;
      RetireRival(t, ws, id, env);
    }

    /** Lines 83-91 for a claim that passed its checks. */
    method RetireRival(t: nat, ws: nat, id: string, env: Env)
      requires t < |tasks| && ws < |sockets|
      modifies this
      ensures View() == TakeOver(old(View()), t, ws, id, env)
    {
      hide RelayModel.Finish, Retired, Greet, Update, Claimed;
      ghost var s := View();
      ClaimedId(s.sockets[ws], id);
      BookClaim(ws, id);
      LookupSkipsAsker(s.sockets, sockets, env.roster, ws, id, false);
      var p := Find(env.roster, ws, id, false);
      if p < |env.roster| {
        ClaimThenRetire(s, t, ws, Claimed(s.sockets[ws], id), env.roster[p], ClaimRest(ws, id, env.roster[p + 1..]));
        Finish(t, env.roster[p], ClaimRest(ws, id, env.roster[p + 1..]));
      } else {
        tasks := tasks[t := Continue(ClaimRest(ws, id, []))];
        Welcome(t, ws, env);
      }
    }

    /** Lines 91-93. */
    method Welcome(t: nat, ws: nat, env: Env)
      requires t < |tasks| && ws < |sockets|
      modifies this
      ensures View() == Greet(old(View()), t, ws, env)
    {
      if sockets[ws].archived {
        Finish(t, ws, Done);
        return;
      }
      hide Sent, RelayModel.Finish;
      var ok := SendOrFinish(t, ws, 1, None, Done, env.reachable);
      if ok {
        tasks := tasks[t := ReadMeta(ws)];
      }
    }

    /** The loop at lines 87-90 after one of its awaits. */
    method ClaimFurther(t: nat, env: Env)
      requires t < |tasks| && tasks[t].Continue? && tasks[t].after.ClaimRest? && tasks[t].after.ws < |sockets|
      modifies this
      ensures View() == (var after := old(tasks)[t].after; ClaimOn(old(View()), t, after.ws, after.id, after.rest, env))
    {
      hide RelayModel.Finish, Retired, Greet;
      var ClaimRest(ws, id, rest) := tasks[t].after;
      var p := Find(rest, ws, id, false);
      if p < |rest| {
        FinishLive(View(), t, rest[p], ClaimRest(ws, id, rest[p + 1..]));
        Finish(t, rest[p], ClaimRest(ws, id, rest[p + 1..]));
      } else {
        Welcome(t, ws, env);
      }
    }

    /** Line 94. */
    method StoreNextPing(t: nat)
      requires t < |tasks| && tasks[t].StorePing? && tasks[t].ws < |sockets|
      modifies this
      ensures View() == PingStored(old(View()), t)
    {
      var StorePing(ws, copy) := tasks[t];
      if copy.None? {
        Finish(t, ws, Done);
        return;
      }
      var m := copy.value;
      if m.nextPing.None? {
        m := m.(nextPing := Some(now + m.ping * 1000));
        meta := Some(m);
      }
      tasks := tasks[t := Rearm(Done)];
    }

    // -------------------------------------------------------------- alarm

    /** Lines 129-148 up to the first await. */
    method Alarm(t: nat, env: Env)
      requires t < |tasks| && tasks[t].RunAlarm?
      modifies this
      ensures View() == AlarmBegun(old(View()), t, env)
    {
      hide Sweep;
      var m := tasks[t].loaded;
      m := m.(alarmEvents := m.alarmEvents + 1);
      if now >= m.expires + HOUR {
        meta, attempts, identities, closed, wiped := None, 0, [], None, true;
        tasks := tasks[t := Idle];
        return;
      }
      var pingDue := m.nextPing.Some? && now >= m.nextPing.value;
      tasks := tasks[t := Continue(SweepRest(m, now, pingDue, env.roster))];
      AlarmLoop(t, env);
    }

    /** Lines 132-147, from any point of the list. */
    method AlarmLoop(t: nat, env: Env)
      requires t < |tasks| && tasks[t].Continue? && tasks[t].after.SweepRest?
      modifies this
      ensures View() == Sweep(old(View()), t, env)
    {
      hide Visit;
      var SweepRest(m, at, pingDue, left) := tasks[t].after;
      while left != []
        invariant t < |tasks| && tasks[t] == Continue(SweepRest(m, at, pingDue, left))
        invariant Sweep(old(View()), t, env) == Sweep(View(), t, env)
        decreases |left|
      {
        ghost var before := View();
        var later := SweepRest(m, at, pingDue, left[1..]);
        Loop(t, left[0], later, env);
        assert View() == Visit(before, t, env);
        if !tasks[t].Continue? {
          return;
        }
        left := left[1..];
      }
      if pingDue {
        m := m.(nextPing := Some(at + m.ping * 1000));
      }
      meta := Some(m);
      tasks := tasks[t := Rearm(Swept(at))];
    }

    /** The loop body, lines 133-143, for the socket at the head of the list. */
    method Loop(t: nat, ws: nat, later: Resume, env: Env)
      requires t < |tasks| && tasks[t].Continue? && tasks[t].after.SweepRest? && tasks[t].after.left != []
      requires ws == tasks[t].after.left[0] && later == tasks[t].after.(left := tasks[t].after.left[1..])
      modifies this
      ensures View() == Visit(old(View()), t, env)
      ensures t < |tasks| && (tasks[t].Continue? ==> tasks[t].after == later)
    {
      hide PingSent, RelayModel.Finish, Retired;
      if ws >= |sockets| || sockets[ws].archived {
        tasks := tasks[t := Continue(later)];
        return;
      }
      var info := sockets[ws];
      if later.now >= info.expires || (info.deadline.Some? && later.now >= info.deadline.value) {
        FinishLive(View(), t, ws, later);
        Finish(t, ws, later);
        return;
      }
      tasks := tasks[t := Continue(later)];
      if later.pingDue && info.phase == Authenticated && info.pendingPing.None? {
        SendPing(t, ws, later, env);
      }
    }

    /** Lines 139-142. */
    method SendPing(t: nat, ws: nat, later: Resume, env: Env)
      requires t < |tasks| && ws < |sockets| && tasks[t] == Continue(later) && later.SweepRest?
      modifies this
      ensures View() == PingSent(old(View()), t, ws, later, env)
    {
      hide Update, Sent, RelayModel.Finish, Pinged;
      MarkPinged(ws, later.now, PingFor(env, ws));
      var ok := SendOrFinish(t, ws, 9, Some(ServerPing), later, env.reachable);
    }

    /** Line 140. */
    method MarkPinged(ws: nat, at: int, ping: string)
      requires ws < |sockets|
      modifies this`sockets
      ensures View() == Update(old(View()), ws, Pinged(old(sockets)[ws], at, ping), map[])
      ensures |sockets| == |old(sockets)|
    {
      var info := sockets[ws];
      info := info.(pendingPing := Some(ping));
      info := info.(deadline := Some(at + 5_000));
      sockets := sockets[ws := info];
      UpdateNothing(old(View()), ws, info);
    }

    // -------------------------------------------------------------- the event loop

    /** Resume the handler `t` at the await it is suspended at, up to its next await. */
    method Resume(t: nat, env: Env)
      requires t < |tasks| && Valid()
      modifies this
      ensures View() == Run(old(View()), t, env)
    {
      RelayTheorems.TaskRefers(View(), t);
      hide RelayInvariant.Inv, RelayTheorems.Calm, RelayModel.Finish, Identified, ClaimRoute, PingStored, AlarmBegun;
      match tasks[t]
      case Idle =>
      case Routing(_, _, _) =>
      case Verify(_, _) => AfterVerify(t, env);
      case Identify(_, _) => AdmitIdentity(t);
      case Claim(_, _, _) => ClaimIdentity(t, env);
      case ReadMeta(_) => AfterRead(t);
      case ReadAlarm => AfterRead(t);
      case StorePing(_, _) => StoreNextPing(t);
      case RunAlarm(_) => Alarm(t, env);
      case Retire(_, _, _, _) => GoOn(t, env);
      case Announce(_, _, _) => GoOn(t, env);
      case Rearm(_) => GoOn(t, env);
      case Continue(_) => GoOn(t, env);
    }

    /** A handler inside `finish`: its transaction, the announcement, `schedule`, and then its caller. */
    method GoOn(t: nat, env: Env)
      requires t < |tasks| && Valid()
      requires tasks[t].Retire? || tasks[t].Announce? || tasks[t].Rearm? || tasks[t].Continue?
      modifies this
      ensures View() == Run(old(View()), t, env)
    {
      hide RelayInvariant.Inv, RelayTheorems.Calm, Commit, NextAlarm, Announced, Resumed;
      match tasks[t]
      case Retire(_, _, _, _) => CommitClosed(t);
      case Announce(_, _, _) => AnnounceGone(t, env);
      case Rearm(after) =>
        Schedule();
        tasks := tasks[t := Continue(after)];
      case Continue(_) => AfterFinish(t, env);
    }

    /** Lines 93 and 127: `meta` has been read. */
    method AfterRead(t: nat)
      requires t < |tasks| && (tasks[t].ReadMeta? || tasks[t].ReadAlarm?)
      modifies this
      ensures forall env: Env :: View() == Run(old(View()), t, env)
    {
      if tasks[t].ReadMeta? {
        tasks := tasks[t := StorePing(tasks[t].ws, meta)];
      } else {
        tasks := tasks[t := if meta.Some? then RunAlarm(meta.value) else Idle];
      }
    }

    /** Lines 73-74: the signature has been checked. */
    method AfterVerify(t: nat, env: Env)
      requires t < |tasks| && tasks[t].Verify? && tasks[t].ws < |sockets|
      modifies this
      ensures View() == Run(old(View()), t, env)
    {
      hide RelayModel.Finish;
      var Verify(ws, frame) := tasks[t];
      if env.verified && AuthenticationShape(frame) {
        tasks := tasks[t := Identify(ws, PublicKey(frame))];
      } else {
        Finish(t, ws, Done);
      }
    }

    /** Where the caller of a finished `finish` goes on. */
    method AfterFinish(t: nat, env: Env)
      requires t < |tasks| && tasks[t].Continue? && Valid()
      modifies this
      ensures View() == Resumed(old(View()), t, env)
    {
      RelayTheorems.TaskRefers(View(), t);
      hide RelayInvariant.Inv, RelayTheorems.Calm, Sweep, ClaimOn, DroppedLate;
      match tasks[t].after
      case Done => tasks := tasks[t := Idle];
      case Swept(_) => tasks := tasks[t := Idle];
      case ClaimRest(_, _, _) => ClaimFurther(t, env);
      case DropFor(ws) => DropAfterFinish(t, ws);
      case SweepRest(_, _, _, _) => AlarmLoop(t, env);
    }

    /** One event of the platform, up to the await that ends it. */
    method Handle(e: Event)
      requires Valid() && Enabled(View(), e)
      modifies this
      ensures View() == Next(old(View()), e)
    {
      hide RelayInvariant.Inv, RelayTheorems.Calm, OnMessage, Run, RelayModel.Fetch, RelayModel.Finish;
      match e
      case Tick(ms) => now := now + ms;
      case PeerClosing(ws) => sockets := sockets[ws := sockets[ws].(open := false)];
      case Departs(ws) => sockets := sockets[ws := sockets[ws].(listed := false)];
      case Upgrade(ping) => Fetch(ping);
      case Receive(ws, message, env) => WebSocketMessage(ws, message, env);
      case PeerClosed(ws) =>
        tasks := tasks + [Idle];
        Finish(|tasks| - 1, ws, Done);
      case AlarmFires =>
        alarm := None;
        tasks := tasks + [ReadAlarm];
      case Advance(t, env) => Resume(t, env);
    }

    /** The invariant holds again at the await that ends an event. */
    method Deliver(e: Event)
      requires Valid() && Enabled(View(), e)
      modifies this
      ensures View() == Next(old(View()), e) && Valid()
    {
      hide Next, Enabled, RelayInvariant.Inv, RelayTheorems.Calm;
      RelayTheorems.NextKeeps(View(), e);
      RelayTheorems.NextEvolves(View(), e);
      Handle(e);
    }

    // -------------------------------------------------------------- snapshot

    /** Lines 170-183. */
    method Report() returns (snapshot: Snapshot)
      ensures snapshot == TakeSnapshot(View())
    {
      var record := if closed.Some? then closed.value else Closed(0, ZeroCounts());
      var counts := record.counts;
      var peers := 0;
      var k := 0;
      while k < |sockets|
        invariant 0 <= k <= |sockets|
        invariant Gathered(sockets, record.counts) == Gathered(sockets[k..], counts)
        invariant Total(sockets, ActiveOne()) == peers + Total(sockets[k..], ActiveOne())
      {
        assert sockets[k..][1..] == sockets[k + 1..];
        if sockets[k].listed && !sockets[k].archived {
          counts := AddCounters(counts, sockets[k].counts);
          peers := peers + 1;
        }
        k := k + 1;
      }
      return Snapshot(attempts, record.connections, peers, counts);
    }
  }
}
