/**
 * What the relay does with each message (infra/cloudflare/worker/src/iroh-relay.js, lines
 * 45-67 and 97-112), told by the sockets before and after: which messages end a session,
 * which are answered, and where a datagram goes.
 */
module RelayLaws {
  import opened Base
  import opened RelayMetrics
  import opened RelayProtocol
  import opened RelayModel
  import opened RelayInvariant
  import opened RelayTasks
  import opened RelayHandlers
  import opened RelayTheorems

  // ---------------------------------------------------------------- before and after

  /** Of the room, only these attachments may change, besides handlers, deliveries and the tally of increments. */
  ghost predicate OnlySockets(s: State, t: State, changed: set<nat>) {
    && |t.sockets| == |s.sockets|
    && (forall k :: 0 <= k < |s.sockets| && k !in changed ==> t.sockets[k] == s.sockets[k])
    && t == s.(sockets := t.sockets, tasks := t.tasks, ledger := t.ledger, delivered := t.delivered)
  }

  /** The counters named have been raised by what is said, and no others. */
  ghost predicate Rises(was: Socket, next: Socket, gain: map<Counter, nat>) {
    forall c: Counter :: next.counts[c] == was.counts[c] + if c in gain then gain[c] else 0
  }

  /** Counters apart, the attachment is the same; the rate window may have moved on. */
  ghost predicate Booked(was: Socket, next: Socket, gain: map<Counter, nat>) {
    && next == was.(counts := next.counts, bucket := next.bucket, bucketMessages := next.bucketMessages)
    && Rises(was, next, gain)
  }

  /** The session is over. */
  ghost predicate Over(was: Socket, next: Socket, gain: map<Counter, nat>) {
    && next == was.(archived := true, open := false,
                    counts := next.counts, bucket := next.bucket, bucketMessages := next.bucketMessages)
    && Rises(was, next, gain)
  }

  /** One more message of so many bytes is within the lifetime limits and the rate of 512 in ten seconds. */
  predicate WithinBudget(info: Socket, now: int, bytes: nat) {
    && info.counts[Messages] < 10_000
    && info.counts[InboundBytes] + bytes <= 2_097_152
    && (now - info.bucket >= 10_000 || info.bucketMessages < 512)
  }

  /** An authenticated session that may send a message of so many bytes now. */
  predicate MaySend(info: Socket, now: int, bytes: nat) {
    !info.archived && now < info.expires && info.phase == Authenticated && WithinBudget(info, now, bytes)
  }

  predicate IsPing(frame: seq<byte>) {
    |frame| == 9 && frame[0] == 9
  }

  predicate IsPong(frame: seq<byte>) {
    |frame| == 9 && frame[0] == 10
  }

  /** Tag 4 with at least one byte of payload or tag 5 with at least three, and an ECN field below 4. */
  predicate IsData(frame: seq<byte>) {
    |frame| <= 65_537
    && ((|frame| >= 34 && frame[0] == 4 && frame[33] <= 3) || (|frame| >= 36 && frame[0] == 5 && frame[33] <= 3))
  }

  lemma FramesParse(frame: seq<byte>)
    ensures match ParseClientFrame(frame)
            case None => !IsPing(frame) && !IsPong(frame) && !IsData(frame)
            case Some(PingFrame(f)) => IsPing(frame) && f == frame && !IsPong(frame) && !IsData(frame)
            case Some(PongFrame(f)) => IsPong(frame) && f == frame && !IsPing(frame) && !IsData(frame)
            case Some(DatagramFrame(d, f)) =>
              IsData(frame) && f == frame && d == Hex(frame[1..33]) && !IsPing(frame) && !IsPong(frame)
  {
  }

  // ---------------------------------------------------------------- reaching the branch

  lemma BudgetMeans(info: Socket, now: int, bytes: nat)
    ensures WithinBudget(info, now, bytes) <==> !OverBudget(Refilled(info, now), MessageGain(bytes))
  {
  }

  lemma RefilledSame(info: Socket, now: int)
    ensures Booked(info, Refilled(info, now), map[])
  {
  }

  lemma Raises(was: Socket, next: Socket, gain: map<Counter, nat>)
    requires Booked(was, next, map[])
    ensures Booked(was, next.(counts := Add(next.counts, gain)), gain)
    ensures Over(was, next.(archived := true, open := false, counts := Add(next.counts, gain)), gain)
  {
    hide Add;
  }

  lemma MaySendReaches(s: State, ws: nat, frame: seq<byte>, env: Env)
    requires ws < |s.sockets| && MaySend(s.sockets[ws], s.now, |frame|)
    ensures OnMessage(s, ws, Binary(frame), env)
         == OnFrame(Spawn(s, Idle), |s.tasks|, ws, Refilled(s.sockets[ws], s.now), MessageGain(|frame|),
                    ParseClientFrame(frame), env)
  {
    hide WithinBudget, OverBudget, OnFrame, Refilled, MessageGain, ParseClientFrame;
    BudgetMeans(s.sockets[ws], s.now, |frame|);
  }

  // ---------------------------------------------------------------- datagrams

  /** A live authenticated socket, as the platform lists it, whose identity is this key. */
  ghost predicate IsHolder(s: State, k: nat, key: seq<byte>) {
    && k < |s.sockets| && s.sockets[k].listed && !s.sockets[k].archived && s.sockets[k].phase == Authenticated
    && s.sockets[k].id.Some? && Pairs(s.sockets[k].id.value) == key
  }

  lemma HolderMatches(s: State, ws: nat, k: nat, key: seq<byte>)
    requires Inv(s) && k < |s.sockets| && |key| == 32
    ensures k != ws && IsHolder(s, k, key) <==> Matches(s.sockets, k, ws, Hex(key), true) && s.sockets[k].listed
  {
    hide Inv, Hex, Pairs;
    SocketAt(s, k);
    PairsHex(key);
    if s.sockets[k].id.Some? {
      IdBytes(s.sockets[k].id.value);
    }
  }

  /** A lookup in the platform's list finds the one holder, and nothing if there is none. */
  lemma LookupFinds(s: State, ws: nat, key: seq<byte>, roster: seq<nat>)
    requires Inv(s) && IsRoster(s, roster) && |key| == 32
    ensures var p := FirstMatch(s.sockets, roster, ws, Hex(key), true);
      && (p < |roster| ==> roster[p] != ws && IsHolder(s, roster[p], key))
      && (forall k: nat :: k != ws && IsHolder(s, k, key) ==> p < |roster| && roster[p] == k)
  {
    hide Inv, Hex, IsHolder;
    var p := FirstMatch(s.sockets, roster, ws, Hex(key), true);
    if p < |roster| {
      HolderMatches(s, ws, roster[p], key);
    }
    forall k: nat | k != ws && IsHolder(s, k, key)
      ensures p < |roster| && roster[p] == k
    {
      HolderIsListed(s, k, key);
      HolderMatches(s, ws, k, key);
      var i :| 0 <= i < |roster| && roster[i] == k;
      if roster[p] != k {
        OneRoute(s, roster[p], k);
      }
    }
  }

  lemma HolderIsListed(s: State, k: nat, key: seq<byte>)
    requires IsHolder(s, k, key)
    ensures k < |s.sockets| && s.sockets[k].listed && !s.sockets[k].archived
  {
  }

  /** The state in which the target of a datagram is looked up. */
  function Looking(s: State, ws: nat, frame: seq<byte>): State
    requires ws < |s.sockets| && |frame| >= 33
  {
    SetTask(Update(Spawn(s, Idle), ws, Refilled(s.sockets[ws], s.now), MessageGain(|frame|)[Datagram := 1]),
            |s.tasks|, Routing(ws, Hex(frame[1..33]), frame))
  }

  lemma DatagramReaches(s: State, ws: nat, frame: seq<byte>, env: Env)
    requires ws < |s.sockets| && MaySend(s.sockets[ws], s.now, |frame|) && IsData(frame)
    ensures OnMessage(s, ws, Binary(frame), env) == Route(Looking(s, ws, frame), |s.tasks|, env)
  {
    hide MaySend, Refilled, MessageGain, Route, ParseClientFrame, Hex, Update;
    MaySendReaches(s, ws, frame, env);
    FramesParse(frame);
  }

  lemma LookingAt(s: State, ws: nat, frame: seq<byte>)
    requires ws < |s.sockets| && |frame| >= 33
    ensures var u := Looking(s, ws, frame);
      && OnlySockets(s, u, {ws}) && u.delivered == s.delivered
      && u.tasks == s.tasks + [Routing(ws, Hex(frame[1..33]), frame)]
      && Booked(s.sockets[ws], u.sockets[ws], map[Messages := 1, InboundBytes := |frame|, Datagram := 1])
  {
    hide Refilled, Add;
    RefilledSame(s.sockets[ws], s.now);
    Raises(s.sockets[ws], Refilled(s.sockets[ws], s.now), MessageGain(|frame|)[Datagram := 1]);
    assert MessageGain(|frame|)[Datagram := 1] == map[Messages := 1, InboundBytes := |frame|, Datagram := 1];
    assert (s.tasks + [Idle])[|s.tasks| := Routing(ws, Hex(frame[1..33]), frame)]
        == s.tasks + [Routing(ws, Hex(frame[1..33]), frame)];
  }

  /** What is handed to the holder: the frame with its tag raised by two and the sender's key for the address. */
  ghost predicate HandedOver(d: Delivery, from: Socket, ws: nat, k: nat, frame: seq<byte>) {
    && d.from == ws && d.to == k && d.input == frame
    && from.id.Some? && |d.output| == |frame| >= 33
    && d.output[0] == (frame[0] as int + 2) % 256 && d.output[1..33] == Pairs(from.id.value)
    && d.output[33..] == frame[33..]
  }

  /** A holder was found and takes the frame: it is sent on, stamped, and booked on both sides. */
  ghost predicate IsForwardedTo(s: State, t: State, ws: nat, k: nat, frame: seq<byte>)
    requires ws < |s.sockets| && k < |s.sockets|
  {
    && OnlySockets(s, t, {ws, k}) && t.tasks == s.tasks + [Idle]
    && |t.delivered| == |s.delivered| + 1 && t.delivered[..|s.delivered|] == s.delivered
    && HandedOver(t.delivered[|s.delivered|], s.sockets[ws], ws, k, frame)
    && Booked(s.sockets[ws], t.sockets[ws], map[Messages := 1, InboundBytes := |frame|, Datagram := 1, Forwarded := 1])
    && Booked(s.sockets[k], t.sockets[k], map[OutboundBytes := |frame|])
  }

  /** Nobody holds the destination: the datagram is dropped. */
  ghost predicate IsDropped(s: State, t: State, ws: nat, frame: seq<byte>)
    requires ws < |s.sockets|
  {
    && OnlySockets(s, t, {ws}) && t.delivered == s.delivered && t.tasks == s.tasks + [Idle]
    && Booked(s.sockets[ws], t.sockets[ws], map[Messages := 1, InboundBytes := |frame|, Datagram := 1, Dropped := 1])
  }

  /** The holder does not take the frame: its session ends, and the drop is booked once that is done. */
  ghost predicate EndsHolder(s: State, t: State, ws: nat, k: nat, frame: seq<byte>)
    requires ws < |s.sockets| && k < |s.sockets|
  {
    && OnlySockets(s, t, {ws, k}) && t.delivered == s.delivered
    && t.tasks == s.tasks + [Retire(k, s.sockets[k].counts, s.sockets[k].id, DropFor(ws))]
    && Booked(s.sockets[ws], t.sockets[ws], map[Messages := 1, InboundBytes := |frame|, Datagram := 1])
    && Over(s.sockets[k], t.sockets[k], map[])
  }

  lemma DropsIt(s: State, ws: nat, frame: seq<byte>, env: Env)
    requires ws < |s.sockets| && |frame| >= 33
    requires FirstMatch(Looking(s, ws, frame).sockets, env.roster, ws, Hex(frame[1..33]), true) == |env.roster|
    ensures IsDropped(s, Route(Looking(s, ws, frame), |s.tasks|, env), ws, frame)
  {
    hide Looking, Hex, Add, Booked, FirstMatch, ForwardedFrame, Retired;
    LookingAt(s, ws, frame);
    var u := Looking(s, ws, frame);
    BooksMore(s.sockets[ws], u.sockets[ws], map[Messages := 1, InboundBytes := |frame|, Datagram := 1], Dropped);
    assert (s.tasks + [Routing(ws, Hex(frame[1..33]), frame)])[|s.tasks| := Idle] == s.tasks + [Idle];
  }

  /** One more counter in an attachment that has been booked. */
  lemma BooksMore(was: Socket, now: Socket, gain: map<Counter, nat>, c: Counter)
    requires Booked(was, now, gain) && c !in gain
    ensures Booked(was, now.(counts := Add(now.counts, map[c := 1])), gain[c := 1])
  {
  }

  lemma EndsIt(s: State, ws: nat, k: nat, frame: seq<byte>, env: Env)
    requires ws < |s.sockets| && k < |s.sockets| && k != ws && |frame| >= 33 && k !in env.reachable
    requires var p := FirstMatch(Looking(s, ws, frame).sockets, env.roster, ws, Hex(frame[1..33]), true);
             p < |env.roster| && env.roster[p] == k
    ensures EndsHolder(s, Route(Looking(s, ws, frame), |s.tasks|, env), ws, k, frame)
  {
    hide Looking, Hex, Add, Booked;
    LookingAt(s, ws, frame);
    var u := Looking(s, ws, frame);
    Ends(u.sockets[k]);
    AddNothing(u.sockets[k].counts);
    assert (s.tasks + [Routing(ws, Hex(frame[1..33]), frame)])[
        |s.tasks| := Retire(k, s.sockets[k].counts, s.sockets[k].id, DropFor(ws))]
        == s.tasks + [Retire(k, s.sockets[k].counts, s.sockets[k].id, DropFor(ws))];
  }

  lemma Ends(was: Socket)
    ensures Over(was, was.(archived := true, open := false, counts := Add(was.counts, map[])), map[])
  {
  }

  /** The two writes of a datagram that is sent on. */
  lemma RouteWrites(u: State, t: nat, env: Env, k: nat)
    requires t < |u.tasks| && u.tasks[t].Routing? && u.tasks[t].ws < |u.sockets| && k != u.tasks[t].ws
    requires k < |u.sockets| && k in env.reachable && CanForward(u.sockets[u.tasks[t].ws], u.tasks[t].frame)
    requires var p := FirstMatch(u.sockets, env.roster, u.tasks[t].ws, u.tasks[t].destination, true);
             p < |env.roster| && env.roster[p] == k
    ensures var Routing(ws, destination, frame) := u.tasks[t];
      var r := Route(u, t, env);
      var taker := u.sockets[k].(counts := Add(u.sockets[k].counts, SendGain(|frame|, None)));
      var sender := u.sockets[ws].(counts := Add(u.sockets[ws].counts, map[Forwarded := 1]));
      && r == u.(sockets := u.sockets[k := taker][ws := sender], tasks := u.tasks[t := Idle], ledger := r.ledger,
                 delivered := r.delivered)
      && exists routes :: r.delivered == u.delivered
           + [Delivery(ws, k, frame, ForwardedFrame(frame, u.sockets[ws].id.value), routes)]
  {
    hide Add, FirstMatch, RelayModel.Routes, SendGain;
    var Routing(ws, destination, frame) := u.tasks[t];
    assert |ForwardedFrame(frame, u.sockets[ws].id.value)| == |frame|;
    hide ForwardedFrame;
    assert Route(u, t, env).delivered == u.delivered
        + [Delivery(ws, k, frame, ForwardedFrame(frame, u.sockets[ws].id.value),
                    RelayModel.Routes(u.sockets, destination))];
  }

  lemma ForwardsIt(s: State, ws: nat, k: nat, frame: seq<byte>, env: Env)
    requires ws < |s.sockets| && k < |s.sockets| && k != ws && |frame| >= 33 && k in env.reachable
    requires s.sockets[ws].id.Some? && IsKey(s.sockets[ws].id.value)
    requires var p := FirstMatch(Looking(s, ws, frame).sockets, env.roster, ws, Hex(frame[1..33]), true);
             p < |env.roster| && env.roster[p] == k
    ensures IsForwardedTo(s, Route(Looking(s, ws, frame), |s.tasks|, env), ws, k, frame)
  {
    hide Looking, Hex, Add, Booked, HandedOver, ForwardedFrame, Route, FirstMatch, SendGain, IsKey;
    LookingAt(s, ws, frame);
    var u := Looking(s, ws, frame);
    StillBooked(s.sockets[ws], u.sockets[ws]);
    RouteWrites(u, |s.tasks|, env, k);
    BooksMore(s.sockets[ws], u.sockets[ws], map[Messages := 1, InboundBytes := |frame|, Datagram := 1], Forwarded);
    HandsOver(s.sockets[ws], ws, k, frame);
    TakesFrame(s.sockets[k], |frame|);
    TwoWrites(s, u, Route(u, |s.tasks|, env), ws, k, Routing(ws, Hex(frame[1..33]), frame));
    hide OnlySockets;
  }

  lemma TwoWrites(s: State, u: State, r: State, ws: nat, k: nat, task: Task)
    requires ws < |s.sockets| && k < |s.sockets| && OnlySockets(s, u, {ws}) && u.tasks == s.tasks + [task]
    requires |r.sockets| == |u.sockets| && r.sockets == u.sockets[k := r.sockets[k]][ws := r.sockets[ws]]
    requires r == u.(sockets := r.sockets, tasks := u.tasks[|s.tasks| := Idle], ledger := r.ledger,
                     delivered := r.delivered)
    ensures OnlySockets(s, r, {ws, k}) && r.tasks == s.tasks + [Idle]
  {
  }

  lemma HandsOver(from: Socket, ws: nat, k: nat, frame: seq<byte>)
    requires from.id.Some? && IsKey(from.id.value) && |frame| >= 33
    ensures forall routes ::
      HandedOver(Delivery(ws, k, frame, ForwardedFrame(frame, from.id.value), routes), from, ws, k, frame)
  {
    hide IsKey;
    ForwardedShape(frame, from.id.value);
  }

  lemma StillBooked(was: Socket, next: Socket)
    requires exists gain :: Booked(was, next, gain)
    ensures next.id == was.id && next.archived == was.archived
  {
  }

  lemma TakesFrame(was: Socket, bytes: nat)
    ensures Booked(was, was.(counts := Add(was.counts, SendGain(bytes, None))), map[OutboundBytes := bytes])
  {
  }

  /**
   * A datagram that may be sent goes to the one other live authenticated socket that holds its
   * destination, stamped with the sender's key; it is dropped if there is none, and a holder
   * that does not take it loses its session.
   */
  lemma DatagramIsRouted(s: State, ws: nat, frame: seq<byte>, env: Env)
    requires Inv(s) && Enabled(s, Receive(ws, Binary(frame), env))
    requires MaySend(s.sockets[ws], s.now, |frame|) && IsData(frame)
    ensures var t, key := Next(s, Receive(ws, Binary(frame), env)), frame[1..33];
      && (forall k: nat :: k != ws && IsHolder(s, k, key) ==>
            if k in env.reachable then IsForwardedTo(s, t, ws, k, frame) else EndsHolder(s, t, ws, k, frame))
      && ((forall k: nat :: k != ws ==> !IsHolder(s, k, key)) ==> IsDropped(s, t, ws, frame))
  {
    hide Inv, Looking, IsHolder, Hex, Route, OnMessage, IsForwardedTo, IsDropped, EndsHolder, WithinBudget, Booked;
    var u, key := Looking(s, ws, frame), frame[1..33];
    DatagramReaches(s, ws, frame, env);
    LookingAt(s, ws, frame);
    LookupFinds(s, ws, key, env.roster);
    LookupSkipsAsker(s.sockets, u.sockets, env.roster, ws, Hex(key), true);
    var p := FirstMatch(s.sockets, env.roster, ws, Hex(key), true);
    if p == |env.roster| {
      DropsIt(s, ws, frame, env);
    } else if env.roster[p] in env.reachable {
      SenderHasKey(s, ws);
      ForwardsIt(s, ws, env.roster[p], frame, env);
    } else {
      EndsIt(s, ws, env.roster[p], frame, env);
    }
  }

  lemma SenderHasKey(s: State, ws: nat)
    requires Inv(s) && ws < |s.sockets| && s.sockets[ws].phase == Authenticated
    ensures s.sockets[ws].id.Some? && IsKey(s.sockets[ws].id.value)
  {
    hide Inv;
    SocketAt(s, ws);
    IdBytes(s.sockets[ws].id.value);
  }

  /** The same between two consecutive states of any run. */
  lemma DatagramsAreRouted(run: seq<State>, events: seq<Event>, i: nat, ws: nat, frame: seq<byte>, env: Env)
    requires IsRun(run, events) && i < |events| && events[i] == Receive(ws, Binary(frame), env)
    requires ws < |run[i].sockets| && MaySend(run[i].sockets[ws], run[i].now, |frame|) && IsData(frame)
    ensures var s, t, key := run[i], run[i + 1], frame[1..33];
      && (forall k: nat :: k != ws && IsHolder(s, k, key) ==>
            if k in env.reachable then IsForwardedTo(s, t, ws, k, frame) else EndsHolder(s, t, ws, k, frame))
      && ((forall k: nat :: k != ws ==> !IsHolder(s, k, key)) ==> IsDropped(s, t, ws, frame))
  {
    hide Inv, Next, Enabled, MaySend, IsHolder, IsForwardedTo, IsDropped, EndsHolder;
    RunKeepsAll(run, events, i);
    assert Enabled(run[i], events[i]);
    DatagramIsRouted(run[i], ws, frame, env);
  }

  // ---------------------------------------------------------------- messages that end a session

  /** A message after which the session is over, given whether the sender's own socket takes an answer. */
  predicate EndsSession(info: Socket, now: int, message: Message, reachable: bool) {
    || now >= info.expires
    || message.Text?
    || !WithinBudget(info, now, |message.bytes|)
    || (match info.phase
        case Challenging => info.deadline.None? || now >= info.deadline.value
        case Verifying => true
        case Authenticated =>
          || (IsPing(message.bytes) && !reachable)
          || (IsPong(message.bytes) && info.pendingPing != Some(Hex(message.bytes[1..])))
          || (!IsPing(message.bytes) && !IsPong(message.bytes) && !IsData(message.bytes)))
  }

  /** What is still counted of it: nothing of a message that is late or text, and its type if it was a frame in time. */
  function LastGain(info: Socket, now: int, message: Message): map<Counter, nat> {
    if now >= info.expires || message.Text? then map[]
    else
      var gain := map[Messages := 1, InboundBytes := |message.bytes|];
      if !WithinBudget(info, now, |message.bytes|) || info.phase != Authenticated then gain
      else if IsPing(message.bytes) then gain[Ping := 1]
      else if IsPong(message.bytes) then gain[Pong := 1]
      else gain
  }

  /** Only this session is over, and its counters are in hand for the closing transaction. */
  ghost predicate SessionEnds(s: State, t: State, ws: nat, gain: map<Counter, nat>)
    requires ws < |s.sockets|
  {
    && OnlySockets(s, t, {ws}) && t.delivered == s.delivered
    && Over(s.sockets[ws], t.sockets[ws], gain)
    && t.tasks == s.tasks + [Retire(ws, t.sockets[ws].counts, s.sockets[ws].id, Done)]
  }

  lemma RetiredEnds(s: State, ws: nat, next: Socket, gain: map<Counter, nat>)
    requires ws < |s.sockets| && Booked(s.sockets[ws], next, map[])
    ensures SessionEnds(s, Retired(Spawn(s, Idle), |s.tasks|, ws, next, gain, Done), ws, gain)
  {
    hide Add, Booked, Over;
    StaysItself(s.sockets[ws], next);
    Raises(s.sockets[ws], next, gain);
    var t := Retired(Spawn(s, Idle), |s.tasks|, ws, next, gain, Done);
    assert t.tasks == s.tasks + [Retire(ws, t.sockets[ws].counts, s.sockets[ws].id, Done)];
  }

  lemma StaysItself(was: Socket, next: Socket)
    requires Booked(was, next, map[])
    ensures next.id == was.id && next.archived == was.archived && next.phase == was.phase
    ensures next.pendingPing == was.pendingPing && next.deadline == was.deadline
  {
  }

  lemma Unchanged(was: Socket)
    ensures Booked(was, was, map[])
  {
  }

  /** Every message that ends a session ends it in the same way. */
  lemma EndingMessage(s: State, ws: nat, message: Message, env: Env)
    requires ws < |s.sockets| && !s.sockets[ws].archived
    requires EndsSession(s.sockets[ws], s.now, message, ws in env.reachable)
    ensures SessionEnds(s, OnMessage(s, ws, message, env), ws, LastGain(s.sockets[ws], s.now, message))
  {
    hide SessionEnds, Refilled, OverBudget, WithinBudget, Retired, Booked, ParseClientFrame, Hex;
    hide IsPing, IsPong, IsData;
    var info := s.sockets[ws];
    Unchanged(info);
    RetiredEnds(s, ws, info, map[]);
    if !(s.now >= info.expires || message.Text?) {
      var bytes := message.bytes;
      BudgetMeans(info, s.now, |bytes|);
      RefilledSame(info, s.now);
      var next := Refilled(info, s.now);
      StaysItself(info, next);
      RetiredEnds(s, ws, next, map[Messages := 1, InboundBytes := |bytes|]);
      RetiredEnds(s, ws, next, map[Messages := 1, InboundBytes := |bytes|][Pong := 1]);
      FramesParse(bytes);
      if IsPing(bytes) {
        UnansweredPing(s, ws, bytes, next);
      }
    }
  }

  lemma UnansweredPing(s: State, ws: nat, bytes: seq<byte>, next: Socket)
    requires ws < |s.sockets| && !s.sockets[ws].archived && Booked(s.sockets[ws], next, map[])
    ensures var gain := map[Messages := 1, InboundBytes := |bytes|][Ping := 1];
      SessionEnds(s, Finish(Update(Spawn(s, Idle), ws, next, gain), |s.tasks|, ws, Done), ws, gain)
  {
    hide Add, Booked, Over, SessionEnds, Update, Retired, Finish;
    var gain := map[Messages := 1, InboundBytes := |bytes|][Ping := 1];
    StaysItself(s.sockets[ws], next);
    RetiredEnds(s, ws, next, gain);
    RetireWritten(Spawn(s, Idle), |s.tasks|, ws, next, gain, Done);
  }

  // ---------------------------------------------------------------- messages that do not

  /** A ping is answered with its own eight bytes. */
  ghost predicate IsAnswered(s: State, t: State, ws: nat)
    requires ws < |s.sockets|
  {
    && OnlySockets(s, t, {ws}) && t.delivered == s.delivered && t.tasks == s.tasks + [Idle]
    && Booked(s.sockets[ws], t.sockets[ws],
              map[Messages := 1, InboundBytes := 9, Ping := 1, ServerPong := 1, OutboundBytes := 9])
  }

  /** The awaited pong: nothing is awaited any more, and the alarm is scheduled anew. */
  ghost predicate IsCleared(s: State, t: State, ws: nat)
    requires ws < |s.sockets|
  {
    && OnlySockets(s, t, {ws}) && t.delivered == s.delivered && t.tasks == s.tasks + [Rearm(Done)]
    && Booked(s.sockets[ws].(pendingPing := None, deadline := None), t.sockets[ws],
              map[Messages := 1, InboundBytes := 9, Pong := 1])
  }

  /** The first message of a session is taken for its authentication, whatever it is. */
  ghost predicate IsVerified(s: State, t: State, ws: nat, frame: seq<byte>)
    requires ws < |s.sockets|
  {
    && OnlySockets(s, t, {ws}) && t.delivered == s.delivered && t.tasks == s.tasks + [Verify(ws, frame)]
    && Booked(s.sockets[ws].(phase := Verifying), t.sockets[ws], map[Messages := 1, InboundBytes := |frame|])
  }

  lemma PingIsAnswered(s: State, ws: nat, frame: seq<byte>, env: Env)
    requires ws < |s.sockets| && MaySend(s.sockets[ws], s.now, |frame|) && IsPing(frame) && ws in env.reachable
    ensures IsAnswered(s, OnMessage(s, ws, Binary(frame), env), ws)
  {
    hide MaySend, OnMessage, Refilled, Add, ParseClientFrame, Booked, MessageGain, SendGain, Retired, Finish, Hex;
    MaySendReaches(s, ws, frame, env);
    FramesParse(frame);
    var info := s.sockets[ws];
    var next := Refilled(info, s.now);
    RefilledSame(info, s.now);
    Raises(info, next, MessageGain(9)[Ping := 1]);
    var once := next.(counts := Add(next.counts, MessageGain(9)[Ping := 1]));
    BooksAnswer(info, once);
    assert OnMessage(s, ws, Binary(frame), env)
        == Sent(Update(Spawn(s, Idle), ws, next, MessageGain(9)[Ping := 1]), ws, 9, Some(ServerPong));
  }

  lemma BooksAnswer(was: Socket, now: Socket)
    requires Booked(was, now, MessageGain(9)[Ping := 1])
    ensures Booked(was, now.(counts := Add(now.counts, SendGain(9, Some(ServerPong)))),
                   map[Messages := 1, InboundBytes := 9, Ping := 1, ServerPong := 1, OutboundBytes := 9])
  {
  }

  lemma PongIsTaken(s: State, ws: nat, frame: seq<byte>, env: Env)
    requires ws < |s.sockets| && MaySend(s.sockets[ws], s.now, |frame|) && IsPong(frame)
    requires s.sockets[ws].pendingPing == Some(Hex(frame[1..]))
    ensures IsCleared(s, OnMessage(s, ws, Binary(frame), env), ws)
  {
    hide MaySend, OnMessage, Refilled, Add, ParseClientFrame, Booked, Hex;
    MaySendReaches(s, ws, frame, env);
    FramesParse(frame);
    var info := s.sockets[ws];
    var next := Refilled(info, s.now);
    RefilledSame(info, s.now);
    StaysItself(info, next);
    ClearedSame(info, next);
    Raises(info.(pendingPing := None, deadline := None), next.(pendingPing := None, deadline := None),
           MessageGain(9)[Pong := 1]);
    assert (s.tasks + [Idle])[|s.tasks| := Rearm(Done)] == s.tasks + [Rearm(Done)];
  }

  lemma ClearedSame(was: Socket, next: Socket)
    requires Booked(was, next, map[])
    ensures Booked(was.(pendingPing := None, deadline := None), next.(pendingPing := None, deadline := None), map[])
    ensures Booked(was.(phase := Verifying), next.(phase := Verifying), map[])
  {
  }

  lemma AuthenticationBegins(s: State, ws: nat, frame: seq<byte>, env: Env)
    requires ws < |s.sockets| && !s.sockets[ws].archived && s.sockets[ws].phase == Challenging
    requires !EndsSession(s.sockets[ws], s.now, Binary(frame), ws in env.reachable)
    ensures IsVerified(s, OnMessage(s, ws, Binary(frame), env), ws, frame)
  {
    hide Refilled, Add, Booked, WithinBudget, OverBudget;
    var info := s.sockets[ws];
    var next := Refilled(info, s.now);
    BudgetMeans(info, s.now, |frame|);
    RefilledSame(info, s.now);
    StaysItself(info, next);
    ClearedSame(info, next);
    Raises(info.(phase := Verifying), next.(phase := Verifying), MessageGain(|frame|));
    assert (s.tasks + [Idle])[|s.tasks| := Verify(ws, frame)] == s.tasks + [Verify(ws, frame)];
  }

  /**
   * What a message does, whoever sends it: it ends its session or begins its authentication, is
   * answered, clears the awaited pong, or is routed; of an archived socket nothing is taken.
   */
  lemma MessageIsHandled(s: State, ws: nat, message: Message, env: Env)
    requires ws < |s.sockets|
    ensures var t, info, reachable := OnMessage(s, ws, message, env), s.sockets[ws], ws in env.reachable;
      if info.archived then t == s.(tasks := s.tasks + [Continue(Done)])
      else if EndsSession(info, s.now, message, reachable) then SessionEnds(s, t, ws, LastGain(info, s.now, message))
      else match info.phase
        case Challenging => IsVerified(s, t, ws, message.bytes)
        case Verifying => false
        case Authenticated =>
          && MaySend(info, s.now, |message.bytes|)
          && (IsPing(message.bytes) || IsPong(message.bytes) || IsData(message.bytes))
          && (IsPing(message.bytes) ==> IsAnswered(s, t, ws))
          && (IsPong(message.bytes) ==> IsCleared(s, t, ws))
  {
    hide OnMessage, SessionEnds, IsVerified, IsAnswered, IsCleared, WithinBudget, LastGain, Hex;
    var info := s.sockets[ws];
    if info.archived {
      ArchivedIsDeaf(s, ws, message, env);
    } else if EndsSession(info, s.now, message, ws in env.reachable) {
      EndingMessage(s, ws, message, env);
    } else if info.phase == Challenging {
      AuthenticationBegins(s, ws, message.bytes, env);
    } else if IsPing(message.bytes) {
      PingIsAnswered(s, ws, message.bytes, env);
    } else if IsPong(message.bytes) {
      PongIsTaken(s, ws, message.bytes, env);
    }
  }

  lemma ArchivedIsDeaf(s: State, ws: nat, message: Message, env: Env)
    requires ws < |s.sockets| && s.sockets[ws].archived
    ensures OnMessage(s, ws, message, env) == s.(tasks := s.tasks + [Continue(Done)])
  {
    assert (s.tasks + [Idle])[|s.tasks| := Continue(Done)] == s.tasks + [Continue(Done)];
  }
}
