/**
 * The Durable Object relay as a state machine (infra/cloudflare/worker/src/iroh-relay.js).
 *
 * A handler is a task whose program counter names the `await` it is suspended at. One event
 * runs one synchronous segment: from an await (or an entry point) to the next await. Storage
 * transactions, `schedule`, and admission together with `acceptWebSocket` are single steps.
 */
module RelayModel {
  import opened Base
  import opened RelayMetrics
  import opened RelayProtocol

  // ---------------------------------------------------------------- data

  const HOUR := 3_600_000
  const MAX_UPGRADES := 20
  const MAX_OPEN := 4
  const MAX_IDENTITIES := 2
  const MAX_MESSAGES := 10_000
  const MAX_INBOUND := 2 * 1024 * 1024
  const MAX_BUCKET := 512

  datatype Phase = Challenging | Verifying | Authenticated

  /**
   * The attachment of one WebSocket. `open` says that its readyState is neither CLOSING nor
   * CLOSED, `listed` that getWebSockets() still returns it.
   */
  datatype Socket = Socket(
    phase: Phase, deadline: Option<int>, expires: int, id: Option<string>, archived: bool,
    counts: Counts, bucket: int, bucketMessages: nat, pendingPing: Option<string>,
    open: bool, listed: bool)

  datatype Meta = Meta(expires: int, ping: int, nextPing: Option<int>, alarmEvents: nat)

  datatype Closed = Closed(connections: nat, counts: Counts)

  /** What a handler does after the `finish` it is waiting for. */
  datatype Resume =
    | Done
    | ClaimRest(ws: nat, id: string, rest: seq<nat>)                            // authorize, lines 87-95
    | DropFor(ws: nat)                                                          // route, lines 109-110
    | SweepRest(meta: Meta, now: int, pingDue: bool, left: seq<nat>)            // alarm, lines 132-147
    | Swept(now: int)                                                           // alarm, past line 147

  datatype Task =
    | Idle
    | Verify(ws: nat, frame: seq<byte>)                                         // line 72
    | Identify(ws: nat, claimant: string)                                       // line 73
    | Claim(ws: nat, claimant: string, allowed: bool)                                 // line 81
    | Routing(ws: nat, destination: string, frame: seq<byte>)                   // line 97, never suspended
    | Retire(ws: nat, counts: Counts, id: Option<string>, after: Resume)         // line 154
    | Announce(ws: nat, id: Option<string>, after: Resume)                       // line 160
    | Rearm(after: Resume)                                                       // schedule
    | Continue(after: Resume)                                                    // back in the caller of finish
    | ReadMeta(ws: nat)                                                         // line 93
    | StorePing(ws: nat, copy: Option<Meta>)                                    // line 94
    | ReadAlarm                                                                 // line 127
    | RunAlarm(loaded: Meta)                                                    // line 129

  /** One datagram handed to a peer, with the frame it came from and every route to its destination at that time. */
  datatype Delivery = Delivery(from: nat, to: nat, input: seq<byte>, output: seq<byte>, routes: set<nat>)

  /**
   * Attachments, handlers in flight, storage and clock. `ledger` adds up every counter
   * increment ever made; `wiped` says that the final deleteAll has run; `armedAt` is the
   * instant of the latest setAlarm.
   */
  datatype State = State(
    expires: int, now: int, sockets: seq<Socket>, tasks: seq<Task>,
    meta: Option<Meta>, attempts: nat, identities: seq<string>, closed: Option<Closed>, alarm: Option<int>,
    ledger: Counts, wiped: bool, armedAt: int, delivered: seq<Delivery>)

  /**
   * What the platform decides during a segment: the order in which getWebSockets() lists the
   * sockets, which sends succeed, the random pings, and whether a signature is valid.
   */
  datatype Env = Env(roster: seq<nat>, reachable: set<nat>, pings: map<nat, string>, verified: bool)

  datatype Event =
    | Tick(ms: nat)
    | PeerClosing(ws: nat)
    | Departs(ws: nat)
    | Upgrade(ping: int)
    | Receive(ws: nat, message: Message, env: Env)
    | PeerClosed(ws: nat)
    | AlarmFires
    | Advance(task: nat, env: Env)

  function Init(expires: int, now: int): State {
    State(expires, now, [], [], None, 0, [], None, None, ZeroCounts(), false, now, [])
  }

  // ---------------------------------------------------------------- attachments

  /** Write back an attachment whose counters have been raised by `gain`. */
  function Update(s: State, ws: nat, info: Socket, gain: map<Counter, nat>): State
    requires ws < |s.sockets|
  {
    s.(sockets := s.sockets[ws := info.(counts := Add(info.counts, gain))], ledger := Add(s.ledger, gain))
  }

  function SetTask(s: State, t: nat, task: Task): State
    requires t < |s.tasks|
  {
    s.(tasks := s.tasks[t := task])
  }

  function Spawn(s: State, task: Task): State {
    s.(tasks := s.tasks + [task])
  }

  /** A send that succeeded: relay-metrics.js, lines 10-16. */
  function Sent(s: State, ws: nat, bytes: nat, category: Option<Counter>): State
    requires ws < |s.sockets|
  {
    Update(s, ws, s.sockets[ws], SendGain(bytes, category))
  }

  function SendGain(bytes: nat, category: Option<Counter>): map<Counter, nat> {
    if category.Some? then map[OutboundBytes := bytes, category.value := 1] else map[OutboundBytes := bytes]
  }

  /** JavaScript reads a missing deadline as 0. */
  predicate Past(deadline: Option<int>, now: int) {
    deadline.None? || now >= deadline.value
  }

  // ---------------------------------------------------------------- finish

  function ClosedOf(s: State): Closed {
    if s.closed.Some? then s.closed.value else Closed(0, ZeroCounts())
  }

  /** The segment of `finish` up to its transaction, for a socket that is not archived yet. */
  function Retired(s: State, t: nat, ws: nat, info: Socket, gain: map<Counter, nat>, after: Resume): State
    requires ws < |s.sockets| && t < |s.tasks|
  {
    var s1 := Update(s, ws, info.(archived := true, open := false), gain);
    SetTask(s1, t, Retire(ws, s1.sockets[ws].counts, info.id, after))
  }

  function Finish(s: State, t: nat, ws: nat, after: Resume): State
    requires ws < |s.sockets| && t < |s.tasks|
  {
    if s.sockets[ws].archived then SetTask(s, t, Continue(after))
    else Retired(s, t, ws, s.sockets[ws], map[], after)
  }

  lemma FinishLive(s: State, t: nat, ws: nat, after: Resume)
    requires ws < |s.sockets| && t < |s.tasks| && !s.sockets[ws].archived
    ensures Finish(s, t, ws, after) == Retired(s, t, ws, s.sockets[ws], map[], after)
  {
  }

  /** Retiring a socket right after its attachment was written back. */
  lemma RetireWritten(s: State, t: nat, ws: nat, next: Socket, gain: map<Counter, nat>, after: Resume)
    requires ws < |s.sockets| && t < |s.tasks| && !next.archived
    ensures Finish(Update(s, ws, next, gain), t, ws, after) == Retired(s, t, ws, next, gain, after)
  {
    AddNothing(Add(next.counts, gain));
    AddNothing(Add(s.ledger, gain));
    assert Finish(Update(s, ws, next, gain), t, ws, after).sockets == Retired(s, t, ws, next, gain, after).sockets;
  }

  function Commit(s: State, t: nat): State
    requires t < |s.tasks| && s.tasks[t].Retire?
  {
    var task := s.tasks[t];
    var closed := ClosedOf(s);
    SetTask(s.(closed := Some(Closed(closed.connections + 1, Add(closed.counts, task.counts)))),
            t, Announce(task.ws, task.id, task.after))
  }

  predicate HearsOf(info: Socket, id: string) {
    info.listed && info.phase == Authenticated && !info.archived && info.id != Some(id)
  }

  /** Lines 160-165: tell every other authenticated peer that an endpoint is gone. */
  function Announced(s: State, ws: nat, id: string, from: nat, reachable: set<nat>): State
    requires from <= |s.sockets|
    decreases |s.sockets| - from
  {
    if from == |s.sockets| then s
    else if from != ws && HearsOf(s.sockets[from], id) && from in reachable then
      Announced(Sent(s, from, 33, Some(EndpointGone)), ws, id, from + 1, reachable)
    else Announced(s, ws, id, from + 1, reachable)
  }

  lemma AnnouncedSteps(s: State, ws: nat, id: string, from: nat, reachable: set<nat>)
    requires from <= |s.sockets|
    ensures Announced(s, ws, id, from, reachable) ==
            if from == |s.sockets| then s
            else if from != ws && HearsOf(s.sockets[from], id) && from in reachable
            then Announced(Sent(s, from, 33, Some(EndpointGone)), ws, id, from + 1, reachable)
            else Announced(s, ws, id, from + 1, reachable)
  {
  }

  // ---------------------------------------------------------------- schedule

  predicate Active(info: Socket) {
    info.listed && !info.archived
  }

  function Earliest(sockets: seq<Socket>, limit: int): int {
    if sockets == [] then limit
    else
      var rest := Earliest(sockets[1..], limit);
      if Active(sockets[0]) && sockets[0].deadline.Some? then Min(sockets[0].deadline.value, rest) else rest
  }

  function NextAlarm(s: State, meta: Meta): int {
    if exists k :: 0 <= k < |s.sockets| && Active(s.sockets[k]) then
      Earliest(s.sockets, if meta.nextPing.Some? then Min(meta.expires, meta.nextPing.value) else meta.expires)
    else meta.expires + HOUR
  }

  function Armed(s: State): State {
    if s.meta.None? then s
    else s.(alarm := Some(Max(s.now + 1, NextAlarm(s, s.meta.value))), armedAt := s.now)
  }

  // ---------------------------------------------------------------- fetch and admit

  function Live(info: Socket): nat {
    if info.listed && !info.archived && info.open then 1 else 0
  }

  function LiveCount(): Socket -> nat {
    (info: Socket) => Live(info)
  }

  function NewSocket(s: State): Socket {
    Socket(Challenging, Some(s.now + 10_000), s.expires, None, false,
           Add(ZeroCounts(), SendGain(17, None)), s.now, 0, None, true, true)
  }

  predicate Admits(s: State, ping: int) {
    && RelayRoom(Some(s.expires - RELAY_TTL), ping, s.now, false).Some?
    && (s.meta.Some? ==> s.meta.value.ping == ping)
    && s.attempts < MAX_UPGRADES
    && Total(s.sockets, LiveCount()) < MAX_OPEN
  }

  function Fetch(s: State, ping: int): State {
    if !Admits(s, ping) then s
    else s.(
      meta := if s.meta.Some? then s.meta else Some(Meta(s.expires, ping, None, 0)),
      attempts := s.attempts + 1,
      sockets := s.sockets + [NewSocket(s)],
      ledger := Add(s.ledger, SendGain(17, None)),
      tasks := s.tasks + [Rearm(Done)])
  }

  // ---------------------------------------------------------------- webSocketMessage

  function Refilled(info: Socket, now: int): Socket {
    if now - info.bucket >= 10_000 then info.(bucket := now, bucketMessages := 1)
    else info.(bucketMessages := info.bucketMessages + 1)
  }

  function MessageGain(bytes: nat): map<Counter, nat> {
    map[Messages := 1, InboundBytes := bytes]
  }

  predicate OverBudget(info: Socket, gain: map<Counter, nat>) {
    || info.bucketMessages > MAX_BUCKET
    || info.counts[Messages] + Of(gain, Messages) > MAX_MESSAGES
    || info.counts[InboundBytes] + Of(gain, InboundBytes) > MAX_INBOUND
  }

  function OnMessage(s0: State, ws: nat, message: Message, env: Env): State
    requires ws < |s0.sockets|
  {
    var t := |s0.tasks|;
    var s := Spawn(s0, Idle);
    var info := s.sockets[ws];
    if info.archived || s.now >= info.expires || message.Text? then Finish(s, t, ws, Done)
    else
      var next := Refilled(info, s.now);
      var gain := MessageGain(|message.bytes|);
      if OverBudget(next, gain) then Retired(s, t, ws, next, gain, Done)
      else match info.phase
        case Challenging =>
          if Past(info.deadline, s.now) then Retired(s, t, ws, next, gain, Done)
          else SetTask(Update(s, ws, next.(phase := Verifying), gain), t, Verify(ws, message.bytes))
        case Verifying => Retired(s, t, ws, next, gain, Done)
        case Authenticated => OnFrame(s, t, ws, next, gain, ParseClientFrame(message.bytes), env)
  }

  /** A ping or pong frame without its tag. */
  function Payload(frame: seq<byte>): seq<byte> {
    if frame == [] then [] else frame[1..]
  }

  function OnFrame(s: State, t: nat, ws: nat, next: Socket, gain: map<Counter, nat>,
                   parsed: Option<ClientFrame>, env: Env): State
    requires ws < |s.sockets| && t < |s.tasks|
  {
    match parsed
    case None => Retired(s, t, ws, next, gain, Done)
    case Some(PingFrame(frame)) =>
      var s1 := Update(s, ws, next, gain[Ping := 1]);
      if ws in env.reachable then Sent(s1, ws, |frame|, Some(ServerPong)) else Finish(s1, t, ws, Done)
    case Some(PongFrame(frame)) =>
      if next.pendingPing != Some(Hex(Payload(frame))) then Retired(s, t, ws, next, gain[Pong := 1], Done)
      else SetTask(Update(s, ws, next.(pendingPing := None, deadline := None), gain[Pong := 1]), t, Rearm(Done))
    case Some(DatagramFrame(destination, frame)) =>
      Route(SetTask(Update(s, ws, next, gain[Datagram := 1]), t, Routing(ws, destination, frame)), t, env)
  }

  // ---------------------------------------------------------------- route

  /** Route lookups ask for the authenticated phase, the claim at line 89 does not. */
  predicate Matches(sockets: seq<Socket>, k: nat, ws: nat, id: string, routing: bool) {
    && k < |sockets| && k != ws && sockets[k].id == Some(id) && !sockets[k].archived
    && (routing ==> sockets[k].phase == Authenticated)
  }

  /** The position of the first socket of the list, other than `ws`, that holds `id`; `|list|` if there is none. */
  function FirstMatch(sockets: seq<Socket>, list: seq<nat>, ws: nat, id: string, routing: bool): (p: nat)
    ensures p <= |list|
    ensures p < |list| ==> Matches(sockets, list[p], ws, id, routing)
    ensures forall i :: 0 <= i < p ==> !Matches(sockets, list[i], ws, id, routing)
  {
    if list == [] then 0
    else if Matches(sockets, list[0], ws, id, routing) then 0
    else 1 + FirstMatch(sockets, list[1..], ws, id, routing)
  }

  /** The lookup does not look at the asking socket. */
  lemma {:induction false} LookupSkipsAsker(
      before: seq<Socket>, after: seq<Socket>, list: seq<nat>, ws: nat, id: string, routing: bool)
    requires ws < |before| && |after| == |before| && forall k :: 0 <= k < |before| && k != ws ==> after[k] == before[k]
    ensures FirstMatch(after, list, ws, id, routing) == FirstMatch(before, list, ws, id, routing)
  {
    if list == [] {
    } else {
      LookupSkipsAsker(before, after, list[1..], ws, id, routing);
    }
  }

  /** The live authenticated sockets that hold an identity. */
  function Routes(sockets: seq<Socket>, id: string): set<nat> {
    set k | 0 <= k < |sockets| && !sockets[k].archived && sockets[k].phase == Authenticated && sockets[k].id == Some(id)
  }

  predicate CanForward(info: Socket, frame: seq<byte>) {
    info.id.Some? && IsKey(info.id.value) && |frame| >= 33
  }

  function Route(s: State, t: nat, env: Env): State
    requires t < |s.tasks| && s.tasks[t].Routing? && s.tasks[t].ws < |s.sockets|
  {
    var Routing(ws, destination, frame) := s.tasks[t];
    var info := s.sockets[ws];
    var p := FirstMatch(s.sockets, env.roster, ws, destination, true);
    if p == |env.roster| then SetTask(Update(s, ws, info, map[Dropped := 1]), t, Idle)
    else
      var target := env.roster[p];
      if target in env.reachable && CanForward(info, frame) then
        var output := ForwardedFrame(frame, info.id.value);
        var s1 := Sent(s, target, |output|, None);
        var delivery := Delivery(ws, target, frame, output, Routes(s.sockets, destination));
        var s2 := s1.(delivered := s1.delivered + [delivery]);
        SetTask(Update(s2, ws, s2.sockets[ws], map[Forwarded := 1]), t, Idle)
      else Retired(s, t, target, s.sockets[target], map[], DropFor(ws))
  }

  /** Lines 109-110. */
  function DroppedLate(s: State, t: nat, ws: nat): State
    requires t < |s.tasks|
  {
    if ws < |s.sockets| && !s.sockets[ws].archived
    then SetTask(Update(s, ws, s.sockets[ws], map[Dropped := 1]), t, Idle)
    else SetTask(s, t, Idle)
  }

  // ---------------------------------------------------------------- authorize

  function Identified(s: State, t: nat): State
    requires t < |s.tasks| && s.tasks[t].Identify?
  {
    var Identify(ws, id) := s.tasks[t];
    if id in s.identities then SetTask(s, t, Claim(ws, id, true))
    else if |s.identities| >= MAX_IDENTITIES then SetTask(s, t, Claim(ws, id, false))
    else SetTask(s.(identities := s.identities + [id]), t, Claim(ws, id, true))
  }

  function Claimed(info: Socket, id: string): Socket {
    info.(id := Some(id), phase := Authenticated, deadline := None)
  }

  /**
   * Lines 81-91, stated by their effect: the socket becomes authenticated and the first
   * listed rival, if there is one, is archived in the same segment.
   */
  function ClaimRoute(s: State, t: nat, env: Env): State
    requires t < |s.tasks| && s.tasks[t].Claim? && s.tasks[t].ws < |s.sockets|
  {
    var Claim(ws, id, allowed) := s.tasks[t];
    var info := s.sockets[ws];
    if !allowed || info.archived || Past(info.deadline, s.now) || s.now >= info.expires then Finish(s, t, ws, Done)
    else TakeOver(s, t, ws, id, env)
  }

  function TakeOver(s: State, t: nat, ws: nat, id: string, env: Env): State
    requires t < |s.tasks| && ws < |s.sockets|
  {
    var claimed := Claimed(s.sockets[ws], id);
    var p := FirstMatch(s.sockets, env.roster, ws, id, false);
    if p < |env.roster| then
      var rival := env.roster[p];
      Update(Retired(s, t, rival, s.sockets[rival], map[], ClaimRest(ws, id, env.roster[p + 1..])),
             ws, claimed, map[Auth := 1])
    else
      Greet(SetTask(Update(s, ws, claimed, map[Auth := 1]), t, Continue(ClaimRest(ws, id, []))), t, ws, env)
  }

  /** Lines 91-93, once no rival is left in the list. */
  function Greet(s: State, t: nat, ws: nat, env: Env): State
    requires t < |s.tasks| && ws < |s.sockets|
  {
    if s.sockets[ws].archived then Finish(s, t, ws, Done)
    else if ws in env.reachable then SetTask(Sent(s, ws, 1, None), t, ReadMeta(ws))
    else Finish(s, t, ws, Done)
  }

  function ClaimOn(s: State, t: nat, ws: nat, id: string, rest: seq<nat>, env: Env): State
    requires t < |s.tasks| && ws < |s.sockets|
  {
    var p := FirstMatch(s.sockets, rest, ws, id, false);
    if p < |rest| then
      Retired(s, t, rest[p], s.sockets[rest[p]], map[], ClaimRest(ws, id, rest[p + 1..]))
    else Greet(s, t, ws, env)
  }

  function PingStored(s: State, t: nat): State
    requires t < |s.tasks| && s.tasks[t].StorePing? && s.tasks[t].ws < |s.sockets|
  {
    match s.tasks[t].copy
    case None => Finish(s, t, s.tasks[t].ws, Done)
    case Some(meta) =>
      var s1 := if meta.nextPing.Some? then s
                else s.(meta := Some(meta.(nextPing := Some(s.now + meta.ping * 1000))));
      SetTask(s1, t, Rearm(Done))
  }

  // ---------------------------------------------------------------- alarm

  predicate TimedOut(info: Socket, now: int) {
    now >= info.expires || (info.deadline.Some? && now >= info.deadline.value)
  }

  predicate WantsPing(info: Socket, pingDue: bool) {
    pingDue && info.phase == Authenticated && info.pendingPing.None?
  }

  function Pinged(info: Socket, now: int, ping: string): Socket {
    info.(pendingPing := Some(ping), deadline := Some(now + 5_000))
  }

  function PingFor(env: Env, ws: nat): string {
    if ws in env.pings then env.pings[ws] else ""
  }

  /** Lines 139-142. */
  function PingSent(s: State, t: nat, k: nat, later: Resume, env: Env): (sent: State)
    requires t < |s.tasks| && k < |s.sockets| && s.tasks[t] == Continue(later) && later.SweepRest?
    ensures |sent.tasks| == |s.tasks| && (sent.tasks[t].Continue? ==> sent.tasks[t] == Continue(later))
  {
    var s1 := Update(s, k, Pinged(s.sockets[k], later.now, PingFor(env, k)), map[]);
    if k in env.reachable then Sent(s1, k, 9, Some(ServerPing)) else Finish(s1, t, k, later)
  }

  /** One iteration of the loop at lines 132-144. */
  function Visit(s: State, t: nat, env: Env): (visited: State)
    requires t < |s.tasks| && s.tasks[t].Continue? && s.tasks[t].after.SweepRest? && s.tasks[t].after.left != []
    ensures |visited.tasks| == |s.tasks|
    ensures visited.tasks[t].Continue? ==>
      visited.tasks[t].after == s.tasks[t].after.(left := s.tasks[t].after.left[1..])
  {
    var after := s.tasks[t].after;
    var k := after.left[0];
    var later := after.(left := after.left[1..]);
    if k >= |s.sockets| || s.sockets[k].archived then SetTask(s, t, Continue(later))
    else if TimedOut(s.sockets[k], after.now) then Retired(s, t, k, s.sockets[k], map[], later)
    else if WantsPing(s.sockets[k], after.pingDue) then PingSent(SetTask(s, t, Continue(later)), t, k, later, env)
    else SetTask(s, t, Continue(later))
  }

  /** The loop up to the first `finish` it has to wait for, or to its end and line 147. */
  function Sweep(s: State, t: nat, env: Env): State
    requires t < |s.tasks| && s.tasks[t].Continue? && s.tasks[t].after.SweepRest?
    decreases |s.tasks[t].after.left|
  {
    var after := s.tasks[t].after;
    if after.left == [] then
      var meta :=
        if after.pingDue then after.meta.(nextPing := Some(after.now + after.meta.ping * 1000)) else after.meta;
      SetTask(s.(meta := Some(meta)), t, Rearm(Swept(after.now)))
    else
      var s1 := Visit(s, t, env);
      if s1.tasks[t].Continue? then Sweep(s1, t, env) else s1
  }

  function AlarmBegun(s: State, t: nat, env: Env): State
    requires t < |s.tasks| && s.tasks[t].RunAlarm?
  {
    var meta := s.tasks[t].loaded.(alarmEvents := s.tasks[t].loaded.alarmEvents + 1);
    if s.now >= meta.expires + HOUR then
      SetTask(s.(meta := None, attempts := 0, identities := [], closed := None, wiped := true), t, Idle)
    else
      var pingDue := meta.nextPing.Some? && s.now >= meta.nextPing.value;
      Sweep(SetTask(s, t, Continue(SweepRest(meta, s.now, pingDue, env.roster))), t, env)
  }

  predicate InAlarm(task: Task) {
    match task
    case ReadAlarm => true
    case RunAlarm(_) => true
    case Retire(_, _, _, after) => after.SweepRest? || after.Swept?
    case Announce(_, _, after) => after.SweepRest? || after.Swept?
    case Rearm(after) => after.SweepRest? || after.Swept?
    case Continue(after) => after.SweepRest? || after.Swept?
    case _ => false
  }

  // ---------------------------------------------------------------- snapshot

  datatype Snapshot = Snapshot(upgrades: nat, closedConnections: nat, active: nat, counts: Counts)

  /** The counters of `closed` with those of every active socket added, in the order of lines 175-178. */
  function Gathered(sockets: seq<Socket>, counts: Counts): Counts {
    if sockets == [] then counts
    else Gathered(sockets[1..], if Active(sockets[0]) then Add(counts, sockets[0].counts) else counts)
  }

  function ActiveOne(): Socket -> nat {
    (info: Socket) => if Active(info) then 1 else 0
  }

  function TakeSnapshot(s: State): Snapshot {
    Snapshot(s.attempts, ClosedOf(s).connections, Total(s.sockets, ActiveOne()),
             Gathered(s.sockets, ClosedOf(s).counts))
  }

  // ---------------------------------------------------------------- events

  function Resumed(s: State, t: nat, env: Env): State
    requires t < |s.tasks| && s.tasks[t].Continue?
  {
    match s.tasks[t].after
    case Done => SetTask(s, t, Idle)
    case Swept(_) => SetTask(s, t, Idle)
    case ClaimRest(ws, id, rest) => if ws < |s.sockets| then ClaimOn(s, t, ws, id, rest, env) else s
    case DropFor(ws) => DroppedLate(s, t, ws)
    case SweepRest(_, _, _, _) => Sweep(s, t, env)
  }

  /** Run task `t` to its next await. */
  function Run(s: State, t: nat, env: Env): State
    requires t < |s.tasks|
  {
    match s.tasks[t]
    case Idle => s
    case Verify(ws, frame) =>
      if env.verified && AuthenticationShape(frame) then SetTask(s, t, Identify(ws, PublicKey(frame)))
      else if ws < |s.sockets| then Finish(s, t, ws, Done) else s
    case Identify(_, _) => Identified(s, t)
    case Claim(ws, _, _) => if ws < |s.sockets| then ClaimRoute(s, t, env) else s
    case Routing(_, _, _) => s
    case Retire(_, _, _, _) => Commit(s, t)
    case Announce(ws, id, after) =>
      var s1 := SetTask(s, t, Rearm(after));
      if id.Some? then Announced(s1, ws, id.value, 0, env.reachable) else s1
    case Rearm(after) => SetTask(Armed(s), t, Continue(after))
    case Continue(_) => Resumed(s, t, env)
    case ReadMeta(ws) => SetTask(s, t, StorePing(ws, s.meta))
    case StorePing(ws, _) => if ws < |s.sockets| then PingStored(s, t) else s
    case ReadAlarm => SetTask(s, t, if s.meta.Some? then RunAlarm(s.meta.value) else Idle)
    case RunAlarm(_) => AlarmBegun(s, t, env)
  }

  /** getWebSockets() returns exactly the listed sockets, in some order. */
  ghost predicate IsRoster(s: State, roster: seq<nat>) {
    && (forall i :: 0 <= i < |roster| ==> roster[i] < |s.sockets| && s.sockets[roster[i]].listed)
    && (forall k :: 0 <= k < |s.sockets| && s.sockets[k].listed ==> k in roster)
  }

  ghost predicate Enabled(s: State, e: Event) {
    match e
    case Tick(_) => true
    case PeerClosing(ws) => ws < |s.sockets|
    case Departs(ws) => ws < |s.sockets| && s.sockets[ws].archived
    case Upgrade(_) => true
    case Receive(ws, _, env) => ws < |s.sockets| && IsRoster(s, env.roster)
    case PeerClosed(ws) => ws < |s.sockets|
    case AlarmFires =>
      s.alarm.Some? && s.alarm.value <= s.now && forall t :: 0 <= t < |s.tasks| ==> !InAlarm(s.tasks[t])
    case Advance(t, env) => t < |s.tasks| && IsRoster(s, env.roster)
  }

  ghost function Next(s: State, e: Event): State
    requires Enabled(s, e)
  {
    match e
    case Tick(ms) => s.(now := s.now + ms)
    case PeerClosing(ws) => s.(sockets := s.sockets[ws := s.sockets[ws].(open := false)])
    case Departs(ws) => s.(sockets := s.sockets[ws := s.sockets[ws].(listed := false)])
    case Upgrade(ping) => Fetch(s, ping)
    case Receive(ws, message, env) => OnMessage(s, ws, message, env)
    case PeerClosed(ws) => Finish(Spawn(s, Idle), |s.tasks|, ws, Done)
    case AlarmFires => Spawn(s.(alarm := None), ReadAlarm)
    case Advance(t, env) => Run(s, t, env)
  }

  /** `run` is a run of the relay: it starts empty and every later state comes from an enabled event. */
  ghost predicate IsRun(run: seq<State>, events: seq<Event>) {
    && |run| == |events| + 1
    && run[0] == Init(run[0].expires, run[0].now)
    && forall i :: 0 <= i < |events| ==> Enabled(run[i], events[i]) && run[i + 1] == Next(run[i], events[i])
  }

  predicate Quiescent(s: State) {
    forall t :: 0 <= t < |s.tasks| ==> s.tasks[t] == Idle
  }
}
