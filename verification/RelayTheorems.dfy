/** What every run of the relay keeps, in every interleaving of its handlers. */
module RelayTheorems {
  import opened Base
  import opened RelayMetrics
  import opened RelayProtocol
  import opened RelayModel
  import opened RelayInvariant
  import opened RelayMove
  import opened RelayTasks
  import opened RelaySteps
  import opened RelayHandlers
  import opened RelayAlarm
  import opened RelayEvolution

  // ---------------------------------------------------------------- one event

  lemma RunKeeps(s: State, t: nat, env: Env)
    requires t < |s.tasks| && IsRoster(s, env.roster) && Inv(s)
    ensures Inv(Run(s, t, env))
  {
    hide Inv, IsRoster, ClaimRoute, Identified, Announced, Armed, Resumed, AlarmBegun, Finish, Commit;
    hide PingStored, TaskOk;
    match s.tasks[t]
    case Idle =>
    case Routing(_, _, _) =>
    case Verify(ws, frame) => VerifiedKeeps(s, t, env);
    case Identify(_, _) => IdentifiedKeeps(s, t);
    case Claim(ws, _, _) =>
      if ws < |s.sockets| {
        ClaimRouteKeeps(s, t, env);
      }
    case Retire(_, _, _, _) => CommitKeeps(s, t);
    case Announce(ws, id, after) => AnnounceKeeps(s, t, env);
    case Rearm(after) => RearmKeeps(s, t);
    case Continue(_) => ResumedKeeps(s, t, env);
    case ReadMeta(ws) => ReadMetaKeeps(s, t);
    case StorePing(ws, _) =>
      if ws < |s.sockets| {
        PingStoredKeeps(s, t);
      }
    case ReadAlarm => ReadAlarmKeeps(s, t);
    case RunAlarm(_) => AlarmBegunKeeps(s, t, env);
  }

  lemma VerifiedKeeps(s: State, t: nat, env: Env)
    requires t < |s.tasks| && s.tasks[t].Verify? && Inv(s)
    ensures Inv(Run(s, t, env))
  {
    hide Inv;
    TaskAt(s, t);
    var Verify(ws, frame) := s.tasks[t];
    if env.verified && AuthenticationShape(frame) {
      HexShape(frame[1..33]);
      StepKeeps(s, t, Identify(ws, PublicKey(frame)));
    } else {
      FinishKeeps(s, t, ws);
    }
  }

  lemma AnnounceKeeps(s: State, t: nat, env: Env)
    requires t < |s.tasks| && s.tasks[t].Announce? && Inv(s)
    ensures Inv(Run(s, t, env))
  {
    hide Inv;
    TaskAt(s, t);
    var Announce(ws, id, after) := s.tasks[t];
    StepKeeps(s, t, Rearm(after));
    if id.Some? {
      AnnouncedKeeps(SetTask(s, t, Rearm(after)), t, ws, id.value, 0, env.reachable);
    }
  }

  lemma ReadMetaKeeps(s: State, t: nat)
    requires t < |s.tasks| && s.tasks[t].ReadMeta? && Inv(s)
    ensures Inv(SetTask(s, t, StorePing(s.tasks[t].ws, s.meta)))
  {
    hide Inv;
    TaskAt(s, t);
    LimitsAt(s);
    StepKeeps(s, t, StorePing(s.tasks[t].ws, s.meta));
  }

  lemma ReadAlarmKeeps(s: State, t: nat)
    requires t < |s.tasks| && s.tasks[t].ReadAlarm? && Inv(s)
    ensures Inv(SetTask(s, t, if s.meta.Some? then RunAlarm(s.meta.value) else Idle))
  {
    hide Inv;
    LimitsAt(s);
    StepKeeps(s, t, if s.meta.Some? then RunAlarm(s.meta.value) else Idle);
  }

  lemma ResumedKeeps(s: State, t: nat, env: Env)
    requires t < |s.tasks| && s.tasks[t].Continue? && Inv(s)
    ensures Inv(Resumed(s, t, env))
  {
    hide Inv, Sweep, ClaimOn;
    TaskAt(s, t);
    match s.tasks[t].after
    case Done => StepKeeps(s, t, Idle);
    case Swept(_) => StepKeeps(s, t, Idle);
    case ClaimRest(ws, id, rest) => ClaimOnKeeps(s, t, ws, id, rest, env);
    case DropFor(ws) =>
      if s.sockets[ws].archived {
        ForgetKeeps(s, t, ws);
      } else {
        SettledKeeps(s, t, ws, Dropped);
      }
    case SweepRest(_, _, _, _) => SweepKeeps(s, t, env);
  }

  /** A drop that is never booked, because its sender was archived meanwhile. */
  lemma ForgetKeeps(s: State, t: nat, ws: nat)
    requires t < |s.tasks| && s.tasks[t] == Continue(DropFor(ws)) && ws < |s.sockets| && s.sockets[ws].archived
    requires Inv(s)
    ensures Inv(SetTask(s, t, Idle))
  {
    hide TasksOk, AuthorsOk, AlarmsOk, Books, Covered, TaskOk;
    var s' := SetTask(s, t, Idle);
    ForgetBooks(s, t, ws);
    ForgetActors(s, t);
    RearmingMoves(s, t, Idle);
    ForgetCovered(s, t);
    DeliveriesShift(s, s');
  }

  lemma ForgetBooks(s: State, t: nat, ws: nat)
    requires t < |s.tasks| && s.tasks[t] == Continue(DropFor(ws)) && ws < |s.sockets| && s.sockets[ws].archived
    requires Books(s)
    ensures Books(SetTask(s, t, Idle))
  {
    var s' := SetTask(s, t, Idle);
    forall c: Counter
      ensures Balanced(s, c) ==> Balanced(s', c)
    {
      TotalUpdate(s.tasks, RetireWeight(c), t, Idle);
    }
    TotalUpdate(s.tasks, RetireOne(), t, Idle);
    forall j: nat | j < |s.sockets| && j != ws
      ensures Total(s'.tasks, DropOne(j)) == Total(s.tasks, DropOne(j))
    {
      TotalUpdate(s.tasks, DropOne(j), t, Idle);
    }
  }

  lemma ForgetActors(s: State, t: nat)
    requires t < |s.tasks| && s.tasks[t].Continue? && s.tasks[t].after.DropFor?
    requires TasksOk(s) && AuthorsOk(s) && AlarmsOk(s)
    ensures var s' := SetTask(s, t, Idle); TasksOk(s') && AuthorsOk(s') && AlarmsOk(s')
  {
    var s' := SetTask(s, t, Idle);
    forall u | 0 <= u < |s'.tasks|
      ensures TaskOk(s', s'.tasks[u])
    {
      TaskShifts(s, s', s'.tasks[u]);
    }
  }

  lemma ForgetCovered(s: State, t: nat)
    requires t < |s.tasks| && s.tasks[t].Continue? && s.tasks[t].after.DropFor? && Covered(s)
    ensures Covered(SetTask(s, t, Idle))
  {
    RearmingMoves(s, t, Idle);
    if AllCovered(s) {
      assert AllCovered(SetTask(s, t, Idle));
    }
  }

  lemma NextKeeps(s: State, e: Event)
    requires Enabled(s, e) && Inv(s)
    ensures Inv(Next(s, e))
  {
    hide Inv, Fetch, OnMessage, Run, Finish, InAlarm;
    match e
    case Tick(ms) => TickKeeps(s, ms);
    case PeerClosing(ws) => FadeKeeps(s, ws, s.sockets[ws].(open := false));
    case Departs(ws) => FadeKeeps(s, ws, s.sockets[ws].(listed := false));
    case Upgrade(ping) => FetchKeeps(s, ping);
    case Receive(ws, message, env) => OnMessageKeeps(s, ws, message, env);
    case PeerClosed(ws) =>
      SpawnIdleKeeps(s);
      FinishKeeps(Spawn(s, Idle), |s.tasks|, ws);
    case AlarmFires => AlarmFiresKeeps(s);
    case Advance(t, env) => RunKeeps(s, t, env);
  }

  lemma SpawnIdleKeeps(s: State)
    requires Inv(s)
    ensures Inv(Spawn(s, Idle))
  {
    hide Inv;
    SpawnKeeps(s, Idle);
  }

  /** No route lookup is ever suspended at an await. */
  ghost predicate Calm(s: State) {
    forall t :: 0 <= t < |s.tasks| ==> !s.tasks[t].Routing?
  }

  lemma NextEvolves(s: State, e: Event)
    requires Enabled(s, e) && Calm(s) && Inv(s)
    ensures Evolves(s, Next(s, e)) && Calm(Next(s, e))
  {
    hide Inv, Fetch, OnMessage, Run, Finish, InAlarm;
    match e
    case Tick(ms) =>
    case PeerClosing(ws) =>
    case Departs(ws) =>
    case Upgrade(ping) => FetchEvolves(s, ping);
    case Receive(ws, message, env) =>
      OnMessageSegment(s, ws, message, env);
      EvolvesInPlace(s, Spawn(s, Idle));
      EvolvesTransitive(s, Spawn(s, Idle), Next(s, e));
    case PeerClosed(ws) =>
      FinishSegment(Spawn(s, Idle), |s.tasks|, ws, Done);
      EvolvesInPlace(s, Spawn(s, Idle));
      EvolvesTransitive(s, Spawn(s, Idle), Next(s, e));
    case AlarmFires =>
    case Advance(t, env) =>
      ClaimsAreFresh(s, t);
      RunSegment(s, t, env);
  }

  lemma ClaimsAreFresh(s: State, t: nat)
    requires t < |s.tasks| && Inv(s)
    ensures s.tasks[t].Claim? && s.tasks[t].ws < |s.sockets| ==> s.sockets[s.tasks[t].ws].id.None?
  {
    hide Inv;
    if s.tasks[t].Claim? {
      AuthorAt(s, t);
      SocketAt(s, s.tasks[t].ws);
    }
  }

  /** A suspended task refers to sockets that exist. */
  lemma TaskRefers(s: State, t: nat)
    requires t < |s.tasks| && Inv(s)
    ensures match s.tasks[t]
            case Verify(ws, _) => ws < |s.sockets|
            case Claim(ws, _, _) => ws < |s.sockets|
            case StorePing(ws, _) => ws < |s.sockets|
            case Continue(ClaimRest(ws, _, _)) => ws < |s.sockets|
            case Continue(DropFor(ws)) => ws < |s.sockets|
            case _ => true
  {
    hide Inv;
    TaskAt(s, t);
  }

  lemma FetchEvolves(s: State, ping: int)
    requires Calm(s)
    ensures Evolves(s, Fetch(s, ping)) && Calm(Fetch(s, ping))
  {
    if Admits(s, ping) {
      assert forall k :: 0 <= k < |s.sockets| ==> Fetch(s, ping).sockets[k] == s.sockets[k];
    }
  }

  // ---------------------------------------------------------------- whole runs

  lemma {:induction false} RunKeepsAll(run: seq<State>, events: seq<Event>, i: nat)
    requires IsRun(run, events) && i < |run|
    ensures Inv(run[i]) && Calm(run[i])
  {
    hide Inv, Next, Enabled;
    if i == 0 {
      InitKeeps(run[0].expires, run[0].now);
    } else {
      RunKeepsAll(run, events, i - 1);
      NextKeeps(run[i - 1], events[i - 1]);
      NextEvolves(run[i - 1], events[i - 1]);
    }
  }

  lemma {:induction false} RunEvolves(run: seq<State>, events: seq<Event>, i: nat, j: nat)
    requires IsRun(run, events) && i <= j < |run|
    ensures Evolves(run[i], run[j])
    decreases j - i
  {
    hide Inv, Next, Enabled, Evolves;
    if i == j {
      EvolvesInPlace(run[i], run[i]);
    } else {
      RunEvolves(run, events, i, j - 1);
      RunKeepsAll(run, events, j - 1);
      NextEvolves(run[j - 1], events[j - 1]);
      EvolvesTransitive(run[i], run[j - 1], run[j]);
    }
  }

  /** In every interleaving, at every await point, at most one socket that is not archived holds an identity. */
  lemma OneRoutePerIdentity(run: seq<State>, events: seq<Event>, i: nat, j: nat, k: nat)
    requires IsRun(run, events) && i < |run|
    requires j < |run[i].sockets| && k < |run[i].sockets| && j != k
    requires !run[i].sockets[j].archived && run[i].sockets[j].phase == Authenticated
    requires !run[i].sockets[k].archived && run[i].sockets[k].phase == Authenticated
    ensures run[i].sockets[j].id.Some? && run[i].sockets[j].id != run[i].sockets[k].id
  {
    hide Inv, Next, Enabled;
    RunKeepsAll(run, events, i);
    SocketAt(run[i], j);
    OneRoute(run[i], j, k);
  }

  /** Archiving is permanent and freezes the counters; an identity, once claimed, never changes. */
  lemma ArchivedForGood(run: seq<State>, events: seq<Event>, i: nat, j: nat, k: nat)
    requires IsRun(run, events) && i <= j < |run| && k < |run[i].sockets|
    ensures k < |run[j].sockets|
    ensures run[i].sockets[k].archived ==>
      run[j].sockets[k].archived && run[j].sockets[k].counts == run[i].sockets[k].counts
    ensures run[i].sockets[k].id.Some? ==> run[j].sockets[k].id == run[i].sockets[k].id
    ensures forall c: Counter :: run[i].sockets[k].counts[c] <= run[j].sockets[k].counts[c]
  {
    hide Next, Enabled;
    RunEvolves(run, events, i, j);
    assert Ages(run[i].sockets[k], run[j].sockets[k]);
  }

  /**
   * Until storage is deleted, every increment ever made is in `closed`, in a socket that is not archived, or in a
   * retirement whose transaction is still to come; and `closed.connections` lacks exactly those retirements.
   */
  lemma LedgerBalances(run: seq<State>, events: seq<Event>, i: nat, c: Counter)
    requires IsRun(run, events) && i < |run| && !run[i].wiped
    ensures run[i].ledger[c] ==
            ClosedOf(run[i]).counts[c] + Total(run[i].sockets, LiveWeight(c)) + Total(run[i].tasks, RetireWeight(c))
    ensures ClosedOf(run[i]).connections + Total(run[i].tasks, RetireOne()) == Total(run[i].sockets, ArchivedOne())
  {
    hide Inv, Next, Enabled;
    RunKeepsAll(run, events, i);
    BooksAt(run[i]);
    assert Balanced(run[i], c);
  }

  // ---------------------------------------------------------------- snapshots at rest

  lemma {:induction false} GatheredTotal(sockets: seq<Socket>, counts: Counts, c: Counter)
    requires forall k :: 0 <= k < |sockets| ==> (Active(sockets[k]) <==> !sockets[k].archived)
    ensures Gathered(sockets, counts)[c] == counts[c] + Total(sockets, LiveWeight(c))
  {
    if sockets == [] {
    } else {
      var tail := sockets[1..];
      assert forall k :: 0 <= k < |tail| ==> tail[k] == sockets[k + 1];
      GatheredTotal(tail, if Active(sockets[0]) then Add(counts, sockets[0].counts) else counts, c);
    }
  }

  lemma {:induction false} ActiveOrArchived(sockets: seq<Socket>)
    requires forall k :: 0 <= k < |sockets| ==> (Active(sockets[k]) <==> !sockets[k].archived)
    ensures Total(sockets, ActiveOne()) + Total(sockets, ArchivedOne()) == |sockets|
  {
    if sockets == [] {
    } else {
      var tail := sockets[1..];
      assert forall k :: 0 <= k < |tail| ==> tail[k] == sockets[k + 1];
      ActiveOrArchived(tail);
    }
  }

  lemma NobodyRetiring(s: State, c: Counter)
    requires Quiescent(s)
    ensures Total(s.tasks, RetireWeight(c)) == 0 && Total(s.tasks, RetireOne()) == 0
  {
    TotalBound(s.tasks, RetireWeight(c), 0);
    TotalBound(s.tasks, RetireOne(), 0);
  }

  lemma ActiveMeansLive(s: State)
    requires Inv(s)
    ensures forall k :: 0 <= k < |s.sockets| ==> (Active(s.sockets[k]) <==> !s.sockets[k].archived)
  {
    hide Inv;
    forall k: nat | k < |s.sockets|
      ensures Active(s.sockets[k]) <==> !s.sockets[k].archived
    {
      SocketAt(s, k);
    }
  }

  /** At rest and before deletion, a snapshot reports every increment ever made and every upgrade exactly once. */
  lemma SnapshotIsComplete(run: seq<State>, events: seq<Event>, i: nat, c: Counter)
    requires IsRun(run, events) && i < |run| && Quiescent(run[i]) && !run[i].wiped
    ensures var snapshot := TakeSnapshot(run[i]);
            snapshot.counts[c] == run[i].ledger[c] && snapshot.upgrades == snapshot.closedConnections + snapshot.active
  {
    hide Inv, Next, Enabled, Conserved;
    var s := run[i];
    RunKeepsAll(run, events, i);
    LedgerBalances(run, events, i, c);
    LimitsAt(s);
    ActiveMeansLive(s);
    GatheredTotal(s.sockets, ClosedOf(s).counts, c);
    ActiveOrArchived(s.sockets);
    NobodyRetiring(s, c);
  }

  // ---------------------------------------------------------------- per-socket accounts

  /** The books of one socket that is not archived: every message, every datagram, and the budgets. */
  lemma MessagesAccounted(run: seq<State>, events: seq<Event>, i: nat, k: nat)
    requires IsRun(run, events) && i < |run| && k < |run[i].sockets| && !run[i].sockets[k].archived
    ensures var info := run[i].sockets[k];
            && info.counts[Messages] == (if info.phase == Challenging then 0 else 1)
                                        + info.counts[Ping] + info.counts[Pong] + info.counts[Datagram]
            && info.counts[Datagram] == info.counts[Forwarded] + info.counts[Dropped] + Total(run[i].tasks, DropOne(k))
            && info.counts[Messages] <= MAX_MESSAGES && info.counts[InboundBytes] <= MAX_INBOUND
            && info.bucketMessages <= MAX_BUCKET
            && (info.phase == Authenticated ==> (info.deadline.Some? <==> info.pendingPing.Some?))
  {
    hide Inv, Next, Enabled;
    RunKeepsAll(run, events, i);
    SocketAt(run[i], k);
    AccountedAt(run[i], k);
  }

  // ---------------------------------------------------------------- the alarm

  /** With no handler in flight, the alarm covers the deadline and the expiry of every socket that is not archived. */
  lemma AlarmCoversAtRest(run: seq<State>, events: seq<Event>, i: nat, k: nat)
    requires IsRun(run, events) && i < |run| && Quiescent(run[i]) && !run[i].wiped
    requires k < |run[i].sockets| && !run[i].sockets[k].archived
    ensures var s := run[i];
            && s.alarm.Some?
            && s.alarm.value <= Max(s.armedAt + 1, s.expires)
            && (s.sockets[k].deadline.Some? ==> s.alarm.value <= Max(s.armedAt + 1, s.sockets[k].deadline.value))
  {
    hide Inv, Next, Enabled;
    RunKeepsAll(run, events, i);
    CoveredAt(run[i]);
    SocketAt(run[i], k);
    assert AlarmCovers(run[i], run[i].sockets[k]);
  }

  /** With no handler in flight, a room that was ever used has an alarm no later than the deletion of its storage. */
  lemma DeletionIsArmed(run: seq<State>, events: seq<Event>, i: nat)
    requires IsRun(run, events) && i < |run| && Quiescent(run[i]) && !run[i].wiped && run[i].attempts > 0
    ensures run[i].alarm.Some? && run[i].alarm.value <= Max(run[i].armedAt + 1, run[i].expires + HOUR)
  {
    hide Inv, Next, Enabled;
    RunKeepsAll(run, events, i);
    CoveredAt(run[i]);
    LimitsAt(run[i]);
    assert DeletionArmed(run[i]);
  }

  /** Once the loop of an alarm is over, no socket that is not archived was due at the alarm's own instant. */
  lemma AlarmClears(run: seq<State>, events: seq<Event>, i: nat, t: nat, k: nat)
    requires IsRun(run, events) && i < |run| && t < |run[i].tasks|
    requires run[i].tasks[t].Rearm? || run[i].tasks[t].Continue?
    requires run[i].tasks[t].after.Swept?
    requires k < |run[i].sockets| && !run[i].sockets[k].archived
    ensures var now := run[i].tasks[t].after.now;
            now < run[i].sockets[k].expires
            && (run[i].sockets[k].deadline.Some? ==> now < run[i].sockets[k].deadline.value)
  {
    hide Inv, Next, Enabled;
    RunKeepsAll(run, events, i);
    TaskAt(run[i], t);
  }

  // ---------------------------------------------------------------- deliveries

  /**
   * Every frame handed to a peer keeps its length and its bytes from 33 on, has its tag raised by 2, carries the
   * sender's authenticated identity, and went to the socket authenticated as its destination, never to the sender;
   * when it was sent, that socket was the one live authenticated holder of the destination identity.
   */
  lemma DeliveriesAreStamped(run: seq<State>, events: seq<Event>, i: nat, d: Delivery)
    requires IsRun(run, events) && i < |run| && d in run[i].delivered
    ensures var s := run[i];
            && d.from < |s.sockets| && d.to < |s.sockets| && d.from != d.to
            && s.sockets[d.from].id.Some? && s.sockets[d.to].id.Some?
            && |d.output| == |d.input| >= 34 && d.output[33..] == d.input[33..]
            && d.output[0] as int == d.input[0] as int + 2
            && Hex(d.output[1..33]) == s.sockets[d.from].id.value
            && Hex(d.input[1..33]) == s.sockets[d.to].id.value
            && Hex(d.input[1..33]) != s.sockets[d.from].id.value
            && d.routes == {d.to}
  {
    hide Inv, Next, Enabled, Hex;
    RunKeepsAll(run, events, i);
    DeliveriesAt(run[i]);
    assert DeliveryOk(run[i].sockets, d);
  }

  // ---------------------------------------------------------------- the room as a whole

  function MessageWeight(): Socket -> nat {
    (info: Socket) => info.counts[Messages]
  }

  /** Over its whole life, also after deleteAll, a room sees few upgrades, identities, open sockets and messages. */
  lemma RoomIsBounded(run: seq<State>, events: seq<Event>, i: nat)
    requires IsRun(run, events) && i < |run|
    ensures |run[i].sockets| <= 20
    ensures |Identities(run[i].sockets)| <= 2
    ensures Total(run[i].sockets, LiveCount()) <= 4
    ensures Total(run[i].sockets, MessageWeight()) <= 20 * 10_001
  {
    hide Inv, Next, Enabled;
    var s := run[i];
    RunKeepsAll(run, events, i);
    LimitsAt(s);
    IdentitiesAt(s);
    forall k: nat | k < |s.sockets|
      ensures MessageWeight()(s.sockets[k]) <= 10_001
    {
      SocketAt(s, k);
    }
    TotalBound(s.sockets, MessageWeight(), 10_001);
  }
}
