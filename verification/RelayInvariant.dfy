/** What holds of the relay at every await point of every interleaving. */
module RelayInvariant {
  import opened Base
  import opened RelayMetrics
  import opened RelayProtocol
  import opened RelayModel

  // ---------------------------------------------------------------- one socket

  ghost predicate IdOk(id: string) {
    IsHex(id) && |id| == 64
  }

  /** Every counted message of a live socket is its authentication or one of the three client frames. */
  ghost predicate LiveOk(info: Socket) {
    && info.listed
    && info.counts[Messages] <= MAX_MESSAGES && info.counts[InboundBytes] <= MAX_INBOUND
    && info.bucketMessages <= MAX_BUCKET
    && info.counts[Messages] == (if info.phase == Challenging then 0 else 1)
                                + info.counts[Ping] + info.counts[Pong] + info.counts[Datagram]
    && (info.phase == Authenticated ==> (info.deadline.Some? <==> info.pendingPing.Some?))
    && (info.phase != Authenticated ==> info.deadline.Some? && info.pendingPing.None?)
  }

  ghost predicate SocketOk(info: Socket, expires: int) {
    && info.expires == expires
    && (info.id.Some? <==> info.phase == Authenticated)
    && (info.id.Some? ==> IdOk(info.id.value))
    && info.counts[Messages] <= MAX_MESSAGES + 1
    && (info.archived ==> !info.open)
    && (!info.archived ==> LiveOk(info))
  }

  ghost predicate SocketsOk(s: State) {
    forall k :: 0 <= k < |s.sockets| ==> SocketOk(s.sockets[k], s.expires)
  }

  /** No two sockets that are not archived are authenticated with the same identity. */
  ghost predicate UniqueRoutes(s: State) {
    forall j, k :: 0 <= j < |s.sockets| && 0 <= k < |s.sockets| && j != k
                   && !s.sockets[j].archived && !s.sockets[k].archived && s.sockets[j].id.Some?
                   ==> s.sockets[j].id != s.sockets[k].id
  }

  // ---------------------------------------------------------------- one task

  /** Every socket that is not archived and not in `left` was, at `now`, short of its deadline and expiry. */
  ghost predicate Cleared(s: State, now: int, left: seq<nat>) {
    forall k :: 0 <= k < |s.sockets| && !s.sockets[k].archived && k !in left ==> !TimedOut(s.sockets[k], now)
  }

  ghost predicate ResumeOk(s: State, after: Resume) {
    match after
    case Done => true
    case ClaimRest(ws, _, _) => ws < |s.sockets|
    case DropFor(ws) => ws < |s.sockets|
    case SweepRest(meta, now, _, left) =>
      meta.expires == s.expires && now <= s.now && now < s.expires + HOUR && Cleared(s, now, left)
    case Swept(now) => now <= s.now && now < s.expires + HOUR && Cleared(s, now, [])
  }

  ghost predicate TaskOk(s: State, task: Task) {
    match task
    case Idle => true
    case Verify(ws, _) => ws < |s.sockets|
    case Identify(ws, id) => ws < |s.sockets| && IdOk(id)
    case Claim(ws, id, allowed) => ws < |s.sockets| && IdOk(id) && (allowed ==> s.wiped || id in s.identities)
    case Routing(ws, destination, frame) =>
      && ws < |s.sockets| && s.sockets[ws].phase == Authenticated
      && IsDatagram(frame) && destination == Hex(frame[1..33])
    case Retire(ws, counts, id, after) =>
      && ws < |s.sockets| && s.sockets[ws].archived && s.sockets[ws].counts == counts && s.sockets[ws].id == id
      && ResumeOk(s, after)
    case Announce(ws, id, after) =>
      ws < |s.sockets| && s.sockets[ws].archived && s.sockets[ws].id == id && ResumeOk(s, after)
    case Rearm(after) => ResumeOk(s, after)
    case Continue(after) => ResumeOk(s, after)
    case ReadMeta(ws) => ws < |s.sockets|
    case StorePing(ws, copy) =>
      ws < |s.sockets| && (if copy.Some? then copy.value.expires == s.expires else s.wiped)
    case ReadAlarm => true
    case RunAlarm(meta) => meta.expires == s.expires
  }

  ghost predicate TasksOk(s: State) {
    forall t :: 0 <= t < |s.tasks| ==> TaskOk(s, s.tasks[t])
  }

  /** The socket a task is authenticating. */
  function Authorizes(task: Task): Option<nat> {
    match task
    case Verify(ws, _) => Some(ws)
    case Identify(ws, _) => Some(ws)
    case Claim(ws, _, _) => Some(ws)
    case _ => None
  }

  /** A socket is being authenticated by at most one task, and only in the verifying phase. */
  ghost predicate AuthorsOk(s: State) {
    && (forall t :: 0 <= t < |s.tasks| && Authorizes(s.tasks[t]).Some? ==>
          Authorizes(s.tasks[t]).value < |s.sockets| && s.sockets[Authorizes(s.tasks[t]).value].phase == Verifying)
    && (forall t, u :: 0 <= t < |s.tasks| && 0 <= u < |s.tasks| && t != u && Authorizes(s.tasks[t]).Some? ==>
          Authorizes(s.tasks[t]) != Authorizes(s.tasks[u]))
  }

  /** Alarm handlers never overlap. */
  ghost predicate AlarmsOk(s: State) {
    forall t, u :: 0 <= t < |s.tasks| && 0 <= u < |s.tasks| && t != u && InAlarm(s.tasks[t]) ==> !InAlarm(s.tasks[u])
  }

  // ---------------------------------------------------------------- conservation

  function LiveWeight(c: Counter): Socket -> nat {
    (info: Socket) => if info.archived then 0 else info.counts[c]
  }

  function RetireWeight(c: Counter): Task -> nat {
    (task: Task) => if task.Retire? then task.counts[c] else 0
  }

  function ArchivedOne(): Socket -> nat {
    (info: Socket) => if info.archived then 1 else 0
  }

  function RetireOne(): Task -> nat {
    (task: Task) => if task.Retire? then 1 else 0
  }

  /** Every increment of a counter is in `closed`, in a live attachment, or in a retirement not committed yet. */
  ghost predicate Balanced(s: State, c: Counter) {
    s.ledger[c] == ClosedOf(s).counts[c] + Total(s.sockets, LiveWeight(c)) + Total(s.tasks, RetireWeight(c))
  }

  ghost predicate Connected(s: State) {
    ClosedOf(s).connections + Total(s.tasks, RetireOne()) == Total(s.sockets, ArchivedOne())
  }

  ghost predicate Conserved(s: State) {
    (forall c: Counter :: Balanced(s, c)) && Connected(s)
  }

  // ---------------------------------------------------------------- datagrams

  function Drops(task: Task): Option<nat> {
    match task
    case Routing(ws, _, _) => Some(ws)
    case Retire(_, _, _, after) => if after.DropFor? then Some(after.ws) else None
    case Announce(_, _, after) => if after.DropFor? then Some(after.ws) else None
    case Rearm(after) => if after.DropFor? then Some(after.ws) else None
    case Continue(after) => if after.DropFor? then Some(after.ws) else None
    case _ => None
  }

  function DropOne(ws: nat): Task -> nat {
    (task: Task) => if Drops(task) == Some(ws) then 1 else 0
  }

  function Undecided(info: Socket): int {
    info.counts[Datagram] as int - info.counts[Forwarded] as int - info.counts[Dropped] as int
  }

  /** A datagram has been forwarded, dropped, or waits for a failed target to be retired. */
  ghost predicate Accounted(s: State) {
    forall k :: 0 <= k < |s.sockets| && !s.sockets[k].archived ==> Undecided(s.sockets[k]) == Total(s.tasks, DropOne(k))
  }

  // ---------------------------------------------------------------- alarm coverage

  /** Tasks that will run `schedule` before they end. */
  predicate WillRearm(task: Task) {
    match task
    case Retire(_, _, _, _) => true
    case Announce(_, _, _) => true
    case Rearm(_) => true
    case Continue(after) => after.SweepRest?
    case ReadMeta(_) => true
    case StorePing(_, _) => true
    case ReadAlarm => true
    case RunAlarm(_) => true
    case _ => false
  }

  /** The armed alarm is no later than the socket's deadline and expiry, or one ms past the arming instant. */
  ghost predicate AlarmCovers(s: State, info: Socket) {
    && s.alarm.Some?
    && s.alarm.value <= Max(s.armedAt + 1, info.expires)
    && (info.deadline.Some? ==> s.alarm.value <= Max(s.armedAt + 1, info.deadline.value))
  }

  /** The armed alarm is no later than the deletion of a room that has been used. */
  ghost predicate DeletionArmed(s: State) {
    s.meta.Some? ==> s.alarm.Some? && s.alarm.value <= Max(s.armedAt + 1, s.expires + HOUR)
  }

  ghost predicate AllCovered(s: State) {
    && (forall k :: 0 <= k < |s.sockets| && !s.sockets[k].archived ==> AlarmCovers(s, s.sockets[k]))
    && DeletionArmed(s)
  }

  ghost predicate Rearming(s: State) {
    exists t :: 0 <= t < |s.tasks| && WillRearm(s.tasks[t])
  }

  ghost predicate Covered(s: State) {
    s.wiped || Rearming(s) || AllCovered(s)
  }

  // ---------------------------------------------------------------- limits

  ghost predicate Limits(s: State) {
    && |s.sockets| <= MAX_UPGRADES
    && Total(s.sockets, LiveCount()) <= MAX_OPEN
    && (s.meta.Some? ==> s.meta.value.expires == s.expires)
    && (s.wiped ==> s.now >= s.expires + HOUR)
    && (!s.wiped ==> s.attempts == |s.sockets|)
    && (!s.wiped && |s.sockets| > 0 ==> s.meta.Some?)
  }

  /** Every identity ever authenticated in the room. */
  ghost function Identities(sockets: seq<Socket>): set<string> {
    set k | 0 <= k < |sockets| && sockets[k].id.Some? :: sockets[k].id.value
  }

  ghost predicate IdentitiesOk(s: State) {
    && |s.identities| <= MAX_IDENTITIES
    && |Identities(s.sockets)| <= MAX_IDENTITIES
    && (!s.wiped ==>
          forall k :: 0 <= k < |s.sockets| && s.sockets[k].id.Some? ==> s.sockets[k].id.value in s.identities)
  }

  // ---------------------------------------------------------------- deliveries

  /** What the receiver got is the sender's frame, stamped with its identity, on the destination's one route. */
  ghost predicate DeliveryOk(sockets: seq<Socket>, d: Delivery) {
    && d.from < |sockets| && d.to < |sockets| && d.from != d.to
    && sockets[d.from].id.Some? && sockets[d.to].id.Some?
    && sockets[d.from].id != sockets[d.to].id
    && IsDatagram(d.input)
    && IsForwarded(d.output, d.input, sockets[d.from].id.value)
    && Hex(d.output[1..33]) == sockets[d.from].id.value
    && Hex(d.input[1..33]) == sockets[d.to].id.value
    && d.routes == {d.to}
  }

  ghost predicate DeliveriesOk(s: State) {
    forall i :: 0 <= i < |s.delivered| ==> DeliveryOk(s.sockets, s.delivered[i])
  }

  // ---------------------------------------------------------------- all of it

  ghost predicate Shape(s: State) {
    SocketsOk(s) && UniqueRoutes(s) && TasksOk(s) && AuthorsOk(s) && AlarmsOk(s)
  }

  ghost predicate Books(s: State) {
    (s.wiped || Conserved(s)) && Accounted(s)
  }

  ghost predicate Inv(s: State) {
    Shape(s) && Books(s) && Covered(s) && Limits(s) && IdentitiesOk(s) && DeliveriesOk(s)
  }

  lemma InitKeeps(expires: int, now: int)
    ensures Inv(Init(expires, now))
  {
    InitShape(expires, now);
    InitBooks(expires, now);
    InitLimits(expires, now);
    hide Shape, Books, Covered, Limits, IdentitiesOk;
  }

  lemma InitShape(expires: int, now: int)
    ensures Shape(Init(expires, now))
  {
  }

  lemma InitBooks(expires: int, now: int)
    ensures Books(Init(expires, now))
  {
  }

  lemma InitLimits(expires: int, now: int)
    ensures Covered(Init(expires, now)) && Limits(Init(expires, now)) && IdentitiesOk(Init(expires, now))
  {
    assert Identities([]) == {};
  }
}
