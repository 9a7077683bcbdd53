/** The segments of webSocketMessage, route and authorize keep the invariant. */
module RelayHandlers {
  import opened Base
  import opened RelayMetrics
  import opened RelayProtocol
  import opened RelayModel
  import opened RelayInvariant
  import opened RelayMove
  import opened RelayTasks
  import opened RelaySteps

  // ---------------------------------------------------------------- reading the invariant

  lemma AuthorAt(s: State, t: nat)
    requires t < |s.tasks| && Authorizes(s.tasks[t]).Some? && Inv(s)
    ensures var ws := Authorizes(s.tasks[t]).value;
            ws < |s.sockets| && s.sockets[ws].phase == Verifying
            && forall u :: 0 <= u < |s.tasks| && u != t ==> Authorizes(s.tasks[u]) != Some(ws)
  {
  }

  lemma OneRoute(s: State, j: nat, k: nat)
    requires j < |s.sockets| && k < |s.sockets| && j != k && Inv(s)
    requires !s.sockets[j].archived && !s.sockets[k].archived && s.sockets[j].id.Some?
    ensures s.sockets[j].id != s.sockets[k].id
  {
  }

  lemma IdBytes(id: string)
    requires IdOk(id)
    ensures IsKey(id) && Hex(Pairs(id)) == id
  {
    HexPairs(id);
  }

  // ---------------------------------------------------------------- route

  lemma LogCovers(s: State, d: Delivery)
    requires Covered(s)
    ensures Covered(s.(delivered := s.delivered + [d]))
  {
  }

  lemma LogKeeps(s: State, d: Delivery)
    requires DeliveryOk(s.sockets, d) && Inv(s)
    ensures Inv(s.(delivered := s.delivered + [d]))
  {
    hide Inv, DeliveryOk;
    var s' := s.(delivered := s.delivered + [d]);
    CoveredAt(s);
    LimitsAt(s);
    IdentitiesAt(s);
    DeliveriesAt(s);
    LogCovers(s, d);
    hide Covered;
    ActorsKeep(s, s');
  }

  /** A pending datagram is decided: booked as forwarded or as dropped. */
  lemma SettledKeeps(s: State, t: nat, ws: nat, verdict: Counter)
    requires t < |s.tasks| && ws < |s.sockets| && !s.sockets[ws].archived && verdict in {Forwarded, Dropped}
    requires Drops(s.tasks[t]) == Some(ws) && !s.tasks[t].Retire? && !WillRearm(s.tasks[t])
    requires Inv(s)
    ensures Inv(SetTask(Update(s, ws, s.sockets[ws], map[verdict := 1]), t, Idle))
  {
    hide Inv;
    SocketAt(s, ws);
    var gain := map[verdict := 1];
    var next := s.sockets[ws].(counts := Add(s.sockets[ws].counts, gain));
    GentleKeeps(s, ws, next, gain, t, Idle);
    assert Move(s, ws, next, gain, t, Idle) == SetTask(Update(s, ws, s.sockets[ws], gain), t, Idle);
  }

  /** A route lookup that finds a target finds another identity, at the address the frame carries. */
  lemma DeliveryHolds(s: State, t: nat, target: nat)
    requires t < |s.tasks| && s.tasks[t].Routing? && s.tasks[t].ws < |s.sockets|
    requires CanForward(s.sockets[s.tasks[t].ws], s.tasks[t].frame)
    requires Matches(s.sockets, target, s.tasks[t].ws, s.tasks[t].destination, true)
    requires !s.sockets[s.tasks[t].ws].archived && Inv(s)
    ensures var Routing(ws, destination, frame) := s.tasks[t];
            DeliveryOk(s.sockets, Delivery(ws, target, frame, ForwardedFrame(frame, s.sockets[ws].id.value),
                                           Routes(s.sockets, destination)))
  {
    hide Inv;
    var Routing(ws, destination, frame) := s.tasks[t];
    TaskAt(s, t);
    SocketAt(s, ws);
    OneRoute(s, ws, target);
    OnlyRoute(s, target);
    IdBytes(s.sockets[ws].id.value);
    ForwardedShape(frame, s.sockets[ws].id.value);
  }

  /** A live authenticated socket is the one route to its identity. */
  lemma OnlyRoute(s: State, target: nat)
    requires target < |s.sockets| && !s.sockets[target].archived && s.sockets[target].phase == Authenticated
    requires s.sockets[target].id.Some? && Inv(s)
    ensures Routes(s.sockets, s.sockets[target].id.value) == {target}
  {
    hide Inv;
    forall j: nat | j < |s.sockets| && j != target && !s.sockets[j].archived
      ensures s.sockets[j].id != s.sockets[target].id
    {
      OneRoute(s, target, j);
    }
  }

  /** Sending changes no route. */
  lemma SentKeepsRoutes(s: State, target: nat, bytes: nat, id: string)
    requires target < |s.sockets|
    ensures Routes(Sent(s, target, bytes, None).sockets, id) == Routes(s.sockets, id)
  {
  }

  lemma ForwardedKeeps(s: State, t: nat, target: nat)
    requires t < |s.tasks| && s.tasks[t].Routing? && s.tasks[t].ws < |s.sockets|
    requires CanForward(s.sockets[s.tasks[t].ws], s.tasks[t].frame)
    requires Matches(s.sockets, target, s.tasks[t].ws, s.tasks[t].destination, true)
    requires !s.sockets[s.tasks[t].ws].archived && Inv(s)
    ensures
      var Routing(ws, destination, frame) := s.tasks[t];
      var output := ForwardedFrame(frame, s.sockets[ws].id.value);
      var s1 := Sent(s, target, |output|, None);
      var d := Delivery(ws, target, frame, output, Routes(s.sockets, destination));
      var s2 := s1.(delivered := s1.delivered + [d]);
      Inv(SetTask(Update(s2, ws, s2.sockets[ws], map[Forwarded := 1]), t, Idle))
  {
    hide Inv, DeliveryOk, IsForwarded, Routes;
    var Routing(ws, destination, frame) := s.tasks[t];
    var output := ForwardedFrame(frame, s.sockets[ws].id.value);
    SentKeeps(s, t, target, |output|, None);
    var s1 := Sent(s, target, |output|, None);
    var d := Delivery(ws, target, frame, output, Routes(s.sockets, destination));
    SentKeepsRoutes(s, target, |output|, destination);
    DeliveryHolds(s1, t, target);
    LogKeeps(s1, d);
    var s2 := s1.(delivered := s1.delivered + [d]);
    TaskAt(s2, t);
    SettledKeeps(s2, t, ws, Forwarded);
  }

  lemma RouteKeeps(s: State, t: nat, env: Env)
    requires t < |s.tasks| && s.tasks[t].Routing? && s.tasks[t].ws < |s.sockets|
    requires !s.sockets[s.tasks[t].ws].archived && Inv(s)
    ensures Inv(Route(s, t, env))
  {
    hide Inv;
    var Routing(ws, destination, frame) := s.tasks[t];
    TaskAt(s, t);
    var p := FirstMatch(s.sockets, env.roster, ws, destination, true);
    if p == |env.roster| {
      SettledKeeps(s, t, ws, Dropped);
    } else {
      var target := env.roster[p];
      if target in env.reachable && CanForward(s.sockets[ws], frame) {
        ForwardedKeeps(s, t, target);
      } else {
        SocketAt(s, target);
        RetiredKeeps(s, t, target, s.sockets[target], map[], DropFor(ws));
      }
    }
  }

  // ---------------------------------------------------------------- webSocketMessage

  /** A message of an authenticated socket that is within the budgets. */
  ghost predicate Counted(s: State, t: nat, ws: nat, bytes: nat) {
    && t < |s.tasks| && s.tasks[t] == Idle && ws < |s.sockets|
    && !s.sockets[ws].archived && s.sockets[ws].phase == Authenticated
    && !OverBudget(Refilled(s.sockets[ws], s.now), MessageGain(bytes))
  }

  /** The message and its type are booked together, within the budgets. */
  lemma FrameSocket(was: Socket, now: int, bytes: nat, kind: Counter, info: Socket, expires: int)
    requires SocketOk(was, expires) && !was.archived && was.phase == Authenticated
    requires kind in {Ping, Pong, Datagram} && !OverBudget(Refilled(was, now), MessageGain(bytes))
    requires info == Refilled(was, now) || info == Refilled(was, now).(pendingPing := None, deadline := None)
    ensures var next := info.(counts := Add(info.counts, MessageGain(bytes)[kind := 1]));
            SocketOk(next, expires) && Gentle(was, next) && info.counts == was.counts
  {
    hide MessageGain, Add, Of, IdOk;
    FrameCounts(was.counts, bytes, kind);
    assert info.counts == was.counts && info.phase == was.phase && info.id == was.id && info.listed == was.listed;
  }

  /** One message of the kind, in numbers. */
  lemma FrameCounts(counts: Counts, bytes: nat, kind: Counter)
    requires kind in {Ping, Pong, Datagram}
    ensures Of(MessageGain(bytes), Messages) == 1 && Of(MessageGain(bytes), InboundBytes) == bytes
    ensures var sum := Add(counts, MessageGain(bytes)[kind := 1]);
      && sum[Messages] == counts[Messages] + 1 && sum[InboundBytes] == counts[InboundBytes] + bytes
      && sum[Ping] + sum[Pong] + sum[Datagram] == counts[Ping] + counts[Pong] + counts[Datagram] + 1
  {
    var gain := MessageGain(bytes)[kind := 1];
    assert Of(gain, Messages) == 1 && Of(gain, InboundBytes) == bytes;
    assert Of(gain, Ping) + Of(gain, Pong) + Of(gain, Datagram) == 1;
  }

  lemma FrameBalance(s: State, t: nat, ws: nat, next: Socket, bytes: nat, kind: Counter, task: Task)
    requires t < |s.tasks| && s.tasks[t] == Idle && ws < |s.sockets| && kind in {Ping, Pong, Datagram}
    requires task == Idle || task == Rearm(Done) || (task.Routing? && task.ws == ws)
    requires task.Routing? <==> kind == Datagram
    requires next.counts == Add(s.sockets[ws].counts, MessageGain(bytes)[kind := 1])
    ensures GoodBalance(s, ws, next, MessageGain(bytes)[kind := 1], t, task)
  {
    var gain := MessageGain(bytes)[kind := 1];
    assert Of(gain, Datagram) == (if kind == Datagram then 1 else 0) && Of(gain, Forwarded) == Of(gain, Dropped) == 0;
  }

  lemma FrameTask(s: State, t: nat, ws: nat, next: Socket, task: Task)
    requires t < |s.tasks| && s.tasks[t] == Idle && ws < |s.sockets| && s.sockets[ws].phase == Authenticated
    requires Gentle(s.sockets[ws], next)
    requires task == Idle || task == Rearm(Done) || (task.Routing? && task.ws == ws)
    requires task.Routing? ==> IsDatagram(task.frame) && task.destination == Hex(task.frame[1..33])
    ensures TaskOk(s, task) && GoodAuthor(s, ws, next, t, task)
  {
    hide IsDatagram, Hex;
  }

  lemma FrameKeeps(s: State, t: nat, ws: nat, bytes: nat, kind: Counter, info: Socket, task: Task)
    requires Counted(s, t, ws, bytes) && kind in {Ping, Pong, Datagram}
    requires info == Refilled(s.sockets[ws], s.now)
             || info == Refilled(s.sockets[ws], s.now).(pendingPing := None, deadline := None)
    requires task == Idle || task == Rearm(Done) || (task.Routing? && task.ws == ws)
    requires task.Routing? <==> kind == Datagram
    requires task.Routing? ==> IsDatagram(task.frame) && task.destination == Hex(task.frame[1..33])
    requires Inv(s)
    ensures Inv(SetTask(Update(s, ws, info, MessageGain(bytes)[kind := 1]), t, task))
  {
    hide Inv, IsDatagram, Hex, SocketOk, GoodBalance, OverBudget, Refilled, TaskOk, GoodAuthor, Gentle;
    hide MessageGain, Of, Add;
    SocketAt(s, ws);
    var gain := MessageGain(bytes)[kind := 1];
    var next := info.(counts := Add(info.counts, gain));
    FrameSocket(s.sockets[ws], s.now, bytes, kind, info, s.expires);
    FrameBalance(s, t, ws, next, bytes, kind, task);
    FrameTask(s, t, ws, next, task);
    GentleKeeps(s, ws, next, gain, t, task);
    assert Move(s, ws, next, gain, t, task) == SetTask(Update(s, ws, info, gain), t, task);
  }

  /** A counted message that ends its connection. */
  lemma AbandonKeeps(s: State, t: nat, ws: nat, bytes: nat, gain: map<Counter, nat>)
    requires t < |s.tasks| && s.tasks[t] == Idle && ws < |s.sockets| && !s.sockets[ws].archived
    requires gain == MessageGain(bytes) || gain == MessageGain(bytes)[Pong := 1]
    requires Inv(s)
    ensures Inv(Retired(s, t, ws, Refilled(s.sockets[ws], s.now), gain, Done))
  {
    hide Inv;
    SocketAt(s, ws);
    RetiredKeeps(s, t, ws, Refilled(s.sockets[ws], s.now), gain, Done);
  }

  lemma PingKeeps(s: State, t: nat, ws: nat, bytes: nat, frame: seq<byte>, env: Env)
    requires Counted(s, t, ws, bytes) && Inv(s)
    ensures var s1 := Update(s, ws, Refilled(s.sockets[ws], s.now), MessageGain(bytes)[Ping := 1]);
            var s2 := if ws in env.reachable then Sent(s1, ws, |frame|, Some(ServerPong)) else Finish(s1, t, ws, Done);
            Inv(s2)
  {
    hide Inv, OverBudget, MessageGain;
    var next := Refilled(s.sockets[ws], s.now);
    FrameKeeps(s, t, ws, bytes, Ping, next, Idle);
    var s1 := Update(s, ws, next, MessageGain(bytes)[Ping := 1]);
    assert SetTask(s1, t, Idle) == s1;
    if ws in env.reachable {
      SentKeeps(s1, t, ws, |frame|, Some(ServerPong));
    } else {
      FinishKeeps(s1, t, ws);
    }
  }

  lemma OnFrameKeeps(s: State, t: nat, ws: nat, message: seq<byte>, env: Env)
    requires Counted(s, t, ws, |message|) && Inv(s)
    ensures var s' := OnFrame(s, t, ws, Refilled(s.sockets[ws], s.now), MessageGain(|message|),
                              ParseClientFrame(message), env);
            Inv(s')
  {
    hide Inv, OverBudget, ParseClientFrame, Hex, Route, Retired, Sent, Finish, MessageGain;
    var next := Refilled(s.sockets[ws], s.now);
    var gain := MessageGain(|message|);
    match ParseClientFrame(message)
    case None => AbandonKeeps(s, t, ws, |message|, gain);
    case Some(PingFrame(frame)) => PingKeeps(s, t, ws, |message|, frame, env);
    case Some(PongFrame(frame)) =>
      if next.pendingPing != Some(Hex(Payload(frame))) {
        AbandonKeeps(s, t, ws, |message|, gain[Pong := 1]);
      } else {
        FrameKeeps(s, t, ws, |message|, Pong, next.(pendingPing := None, deadline := None), Rearm(Done));
      }
    case Some(DatagramFrame(destination, frame)) =>
      DatagramFields(message);
      FrameKeeps(s, t, ws, |message|, Datagram, next, Routing(ws, destination, frame));
      RouteKeeps(SetTask(Update(s, ws, next, gain[Datagram := 1]), t, Routing(ws, destination, frame)), t, env);
  }

  lemma DatagramFields(message: seq<byte>)
    requires ParseClientFrame(message).Some? && ParseClientFrame(message).value.DatagramFrame?
    ensures var DatagramFrame(destination, frame) := ParseClientFrame(message).value;
            IsDatagram(frame) && destination == Hex(frame[1..33])
  {
  }

  /** The counted authentication message is the first, so the count is the one of the phase. */
  lemma VerifyingSocket(s: State, ws: nat, after: Socket, gain: map<Counter, nat>, bytes: nat)
    requires ws < |s.sockets| && SocketOk(s.sockets[ws], s.expires)
    requires !s.sockets[ws].archived && s.sockets[ws].phase == Challenging && gain == MessageGain(bytes)
    requires var next := Refilled(s.sockets[ws], s.now);
             !OverBudget(next, gain) && after == next.(phase := Verifying, counts := Add(next.counts, gain))
    ensures GoodSocket(s, ws, after, gain)
  {
    hide IdOk;
  }

  lemma VerifyingTask(s: State, t: nat, ws: nat, after: Socket, task: Task)
    requires t < |s.tasks| && s.tasks[t] == Idle && ws < |s.sockets| && task.Verify? && task.ws == ws
    requires !s.sockets[ws].archived && s.sockets[ws].phase == Challenging && after.phase == Verifying
    requires after.id == s.sockets[ws].id && TimedOutSame(s.sockets[ws], after)
    ensures GoodForOthers(s, ws, after, t) && GoodAuthor(s, ws, after, t, task) && GoodAlarm(s, ws, after, t, task)
  {
  }

  lemma VerifyingBooks(s: State, t: nat, ws: nat, after: Socket, gain: map<Counter, nat>, bytes: nat, task: Task)
    requires t < |s.tasks| && s.tasks[t] == Idle && ws < |s.sockets| && task.Verify? && gain == MessageGain(bytes)
    requires !s.sockets[ws].archived && !after.archived && after.counts == Add(s.sockets[ws].counts, gain)
    ensures GoodLedger(s, ws, after, gain, t, task) && GoodBalance(s, ws, after, gain, t, task)
  {
    hide Add;
    assert Of(gain, Datagram) == Of(gain, Forwarded) == Of(gain, Dropped) == 0;
  }

  lemma VerifyingKeeps(s: State, t: nat, ws: nat, next: Socket, gain: map<Counter, nat>, message: seq<byte>)
    requires t < |s.tasks| && s.tasks[t] == Idle && ws < |s.sockets| && Inv(s)
    requires !s.sockets[ws].archived && s.sockets[ws].phase == Challenging
    requires next == Refilled(s.sockets[ws], s.now) && gain == MessageGain(|message|) && !OverBudget(next, gain)
    ensures Inv(SetTask(Update(s, ws, next.(phase := Verifying), gain), t, Verify(ws, message)))
  {
    hide Inv, SocketOk, OverBudget, MessageGain, Add, Of;
    hide GoodSocket, GoodForOthers, GoodAuthor, GoodLedger, GoodBalance;
    SocketAt(s, ws);
    var after := next.(phase := Verifying, counts := Add(next.counts, gain));
    var task := Verify(ws, message);
    VerifyingSocket(s, ws, after, gain, |message|);
    VerifyingTask(s, t, ws, after, task);
    VerifyingBooks(s, t, ws, after, gain, |message|, task);
    MoveKeeps(s, ws, after, gain, t, task);
    assert Move(s, ws, after, gain, t, task) == SetTask(Update(s, ws, next.(phase := Verifying), gain), t, task);
  }

  lemma OnMessageKeeps(s0: State, ws: nat, message: Message, env: Env)
    requires ws < |s0.sockets| && Inv(s0)
    ensures Inv(OnMessage(s0, ws, message, env))
  {
    hide Inv, OnFrame, OverBudget, Retired;
    var t := |s0.tasks|;
    SpawnKeeps(s0, Idle);
    var s := Spawn(s0, Idle);
    var info := s.sockets[ws];
    if info.archived || s.now >= info.expires || message.Text? {
      FinishKeeps(s, t, ws);
    } else {
      var next := Refilled(info, s.now);
      var gain := MessageGain(|message.bytes|);
      if OverBudget(next, gain) || info.phase == Verifying
         || (info.phase == Challenging && Past(info.deadline, s.now)) {
        AbandonKeeps(s, t, ws, |message.bytes|, gain);
      } else if info.phase == Challenging {
        VerifyingKeeps(s, t, ws, next, gain, message.bytes);
      } else {
        OnFrameKeeps(s, t, ws, message.bytes, env);
      }
    }
  }

  // ---------------------------------------------------------------- authorize

  lemma IdentifiedKeeps(s: State, t: nat)
    requires t < |s.tasks| && s.tasks[t].Identify? && Inv(s)
    ensures Inv(Identified(s, t))
  {
    hide Inv;
    var Identify(ws, id) := s.tasks[t];
    TaskAt(s, t);
    if id !in s.identities && |s.identities| < MAX_IDENTITIES {
      AdmittedKeeps(s, id);
      StepKeeps(s.(identities := s.identities + [id]), t, Claim(ws, id, true));
    } else {
      StepKeeps(s, t, Claim(ws, id, id in s.identities));
    }
  }

  lemma AdmittedKeeps(s: State, id: string)
    requires |s.identities| < MAX_IDENTITIES && Inv(s)
    ensures Inv(s.(identities := s.identities + [id]))
  {
    hide Inv;
    var s' := s.(identities := s.identities + [id]);
    CoveredAt(s);
    LimitsAt(s);
    IdentitiesAt(s);
    DeliveriesAt(s);
    ActorsKeep(s, s');
  }

  /** A claim that passes the checks of lines 81-82. */
  ghost predicate MayClaim(s: State, t: nat) {
    && t < |s.tasks| && s.tasks[t].Claim? && s.tasks[t].allowed && s.tasks[t].ws < |s.sockets|
    && !s.sockets[s.tasks[t].ws].archived && s.now < s.sockets[s.tasks[t].ws].expires
  }

  /** Every live holder of an identity is listed, so the scan finds the only one there can be. */
  lemma OnlyRival(s: State, ws: nat, id: string, roster: seq<nat>)
    requires IsRoster(s, roster) && ws < |s.sockets| && Inv(s)
    ensures var p := FirstMatch(s.sockets, roster, ws, id, false);
            forall j :: 0 <= j < |s.sockets| && j != ws && !s.sockets[j].archived && s.sockets[j].id == Some(id) ==>
              p < |roster| && roster[p] == j
  {
    hide Inv;
    var p := FirstMatch(s.sockets, roster, ws, id, false);
    forall j: nat | j < |s.sockets| && j != ws && !s.sockets[j].archived && s.sockets[j].id == Some(id)
      ensures p < |roster| && roster[p] == j
    {
      SocketAt(s, j);
      assert j in roster;
      var i :| 0 <= i < |roster| && roster[i] == j;
      assert Matches(s.sockets, roster[i], ws, id, false);
      if roster[p] != j {
        OneRoute(s, j, roster[p]);
      }
    }
  }

  /** Authenticating a socket whose identity no other live socket holds. */
  lemma AuthenticatedSocket(s: State, ws: nat, id: string, next: Socket)
    requires ws < |s.sockets| && IdOk(id) && SocketOk(s.sockets[ws], s.expires)
    requires !s.sockets[ws].archived && s.sockets[ws].phase == Verifying && !s.wiped && id in s.identities
    requires forall j :: 0 <= j < |s.sockets| && j != ws && !s.sockets[j].archived ==> s.sockets[j].id != Some(id)
    requires next == Claimed(s.sockets[ws], id).(counts := Add(s.sockets[ws].counts, map[Auth := 1]))
    ensures GoodSocket(s, ws, next, map[Auth := 1])
  {
    hide IdOk;
  }

  lemma AuthenticatedTask(s: State, t: nat, ws: nat, id: string, next: Socket, task: Task)
    requires t < |s.tasks| && ws < |s.sockets| && SocketOk(s.sockets[ws], s.expires)
    requires !s.sockets[ws].archived && s.sockets[ws].phase == Verifying
    requires forall u :: 0 <= u < |s.tasks| && u != t ==> Authorizes(s.tasks[u]) != Some(ws)
    requires (task == s.tasks[t] && task.Retire? && task.ws != ws && task.after.ClaimRest?)
             || (s.tasks[t].Claim? && task == Continue(ClaimRest(ws, id, [])))
    requires next == Claimed(s.sockets[ws], id).(counts := Add(s.sockets[ws].counts, map[Auth := 1]))
    ensures GoodForOthers(s, ws, next, t) && GoodAuthor(s, ws, next, t, task) && GoodAlarm(s, ws, next, t, task)
    ensures GoodLedger(s, ws, next, map[Auth := 1], t, task) && GoodBalance(s, ws, next, map[Auth := 1], t, task)
  {
    hide Add, IdOk;
  }

  lemma AuthenticateKeeps(s: State, t: nat, ws: nat, id: string, task: Task)
    requires t < |s.tasks| && ws < |s.sockets| && IdOk(id) && Inv(s)
    requires !s.sockets[ws].archived && s.sockets[ws].phase == Verifying && !s.wiped && id in s.identities
    requires forall j :: 0 <= j < |s.sockets| && j != ws && !s.sockets[j].archived ==> s.sockets[j].id != Some(id)
    requires forall u :: 0 <= u < |s.tasks| && u != t ==> Authorizes(s.tasks[u]) != Some(ws)
    requires (task == s.tasks[t] && task.Retire? && task.ws != ws && task.after.ClaimRest?)
             || (s.tasks[t].Claim? && task == Continue(ClaimRest(ws, id, [])))
    ensures Inv(SetTask(Update(s, ws, Claimed(s.sockets[ws], id), map[Auth := 1]), t, task))
  {
    hide Inv, SocketOk, Add, Of;
    hide GoodSocket, GoodForOthers, GoodAuthor, GoodLedger, GoodBalance;
    SocketAt(s, ws);
    TaskAt(s, t);
    var gain := map[Auth := 1];
    var next := Claimed(s.sockets[ws], id).(counts := Add(s.sockets[ws].counts, gain));
    AuthenticatedSocket(s, ws, id, next);
    AuthenticatedTask(s, t, ws, id, next, task);
    MoveKeeps(s, ws, next, gain, t, task);
    assert Move(s, ws, next, gain, t, task) == SetTask(Update(s, ws, Claimed(s.sockets[ws], id), gain), t, task);
  }

  lemma GreetKeeps(s: State, t: nat, ws: nat, env: Env)
    requires t < |s.tasks| && ws < |s.sockets| && Inv(s)
    requires s.tasks[t].Continue? && s.tasks[t].after.ClaimRest?
    ensures Inv(Greet(s, t, ws, env))
  {
    hide Inv;
    if !s.sockets[ws].archived && ws in env.reachable {
      SentKeeps(s, t, ws, 1, None);
      StepKeeps(Sent(s, ws, 1, None), t, ReadMeta(ws));
    } else {
      FinishKeeps(s, t, ws);
    }
  }

  lemma ClaimOnKeeps(s: State, t: nat, ws: nat, id: string, rest: seq<nat>, env: Env)
    requires t < |s.tasks| && ws < |s.sockets| && Inv(s)
    requires s.tasks[t].Continue? && s.tasks[t].after.ClaimRest?
    ensures Inv(ClaimOn(s, t, ws, id, rest, env))
  {
    hide Inv;
    var p := FirstMatch(s.sockets, rest, ws, id, false);
    if p < |rest| {
      SocketAt(s, rest[p]);
      RetiredKeeps(s, t, rest[p], s.sockets[rest[p]], map[], ClaimRest(ws, id, rest[p + 1..]));
    } else {
      GreetKeeps(s, t, ws, env);
    }
  }

  /** The claimant and its rival change places in one segment. */
  lemma SupersedeKeeps(s: State, t: nat, rival: nat, rest: seq<nat>)
    requires MayClaim(s, t)
    requires Matches(s.sockets, rival, s.tasks[t].ws, s.tasks[t].claimant, false)
    requires Inv(s)
    ensures var Claim(ws, id, _) := s.tasks[t];
            var s1 := Retired(s, t, rival, s.sockets[rival], map[], ClaimRest(ws, id, rest));
            var s2 := Update(s1, ws, Claimed(s.sockets[ws], id), map[Auth := 1]);
            Inv(s2)
  {
    hide Inv;
    var Claim(ws, id, _) := s.tasks[t];
    TaskAt(s, t);
    AuthorAt(s, t);
    LimitsAt(s);
    SocketAt(s, ws);
    SocketAt(s, rival);
    forall j: nat | j < |s.sockets| && j != rival && !s.sockets[j].archived
      ensures s.sockets[j].id != Some(id)
    {
      OneRoute(s, rival, j);
    }
    RetiredKeeps(s, t, rival, s.sockets[rival], map[], ClaimRest(ws, id, rest));
    var s1 := Retired(s, t, rival, s.sockets[rival], map[], ClaimRest(ws, id, rest));
    AuthenticateKeeps(s1, t, ws, id, s1.tasks[t]);
    var s2 := Update(s1, ws, Claimed(s.sockets[ws], id), map[Auth := 1]);
    TaskUnchanged(s2, t);
  }

  lemma TaskUnchanged(s: State, t: nat)
    requires t < |s.tasks|
    ensures SetTask(s, t, s.tasks[t]) == s
  {
  }

  lemma FirstClaimKeeps(s: State, t: nat, env: Env)
    requires MayClaim(s, t)
    requires forall j :: 0 <= j < |s.sockets| && j != s.tasks[t].ws && !s.sockets[j].archived ==>
               s.sockets[j].id != Some(s.tasks[t].claimant)
    requires Inv(s)
    ensures var Claim(ws, id, _) := s.tasks[t];
            var s1 := SetTask(Update(s, ws, Claimed(s.sockets[ws], id), map[Auth := 1]), t,
                              Continue(ClaimRest(ws, id, [])));
            var s2 := Greet(s1, t, ws, env);
            Inv(s2)
  {
    hide Inv;
    var Claim(ws, id, _) := s.tasks[t];
    TaskAt(s, t);
    AuthorAt(s, t);
    LimitsAt(s);
    SocketAt(s, ws);
    var task := Continue(ClaimRest(ws, id, []));
    AuthenticateKeeps(s, t, ws, id, task);
    GreetKeeps(SetTask(Update(s, ws, Claimed(s.sockets[ws], id), map[Auth := 1]), t, task), t, ws, env);
  }

  lemma ClaimRouteKeeps(s: State, t: nat, env: Env)
    requires t < |s.tasks| && s.tasks[t].Claim? && s.tasks[t].ws < |s.sockets|
    requires IsRoster(s, env.roster) && Inv(s)
    ensures Inv(ClaimRoute(s, t, env))
  {
    hide Inv, Retired, Greet;
    var Claim(ws, id, allowed) := s.tasks[t];
    var info := s.sockets[ws];
    if !allowed || info.archived || Past(info.deadline, s.now) || s.now >= info.expires {
      FinishKeeps(s, t, ws);
    } else {
      OnlyRival(s, ws, id, env.roster);
      var p := FirstMatch(s.sockets, env.roster, ws, id, false);
      if p < |env.roster| {
        SupersedeKeeps(s, t, env.roster[p], env.roster[p + 1..]);
      } else {
        FirstClaimKeeps(s, t, env);
      }
    }
  }
}
