/** The segments of alarm, finish, schedule and fetch, and the platform's own steps, keep the invariant. */
module RelayAlarm {
  import opened Base
  import opened RelayMetrics
  import opened RelayProtocol
  import opened RelayModel
  import opened RelayInvariant
  import opened RelayMove
  import opened RelayTasks
  import opened RelaySteps
  import opened RelayHandlers

  // ---------------------------------------------------------------- storage

  /** Writing the room's record keeps the invariant while its writer is yet to schedule. */
  lemma MetaKeeps(s: State, t: nat, meta: Meta)
    requires meta.expires == s.expires && t < |s.tasks| && WillRearm(s.tasks[t]) && Inv(s)
    ensures Inv(s.(meta := Some(meta)))
  {
    hide Inv;
    assert Rearming(s.(meta := Some(meta)));
    LimitsAt(s);
    IdentitiesAt(s);
    DeliveriesAt(s);
    ActorsKeep(s, s.(meta := Some(meta)));
  }

  lemma PingStoredKeeps(s: State, t: nat)
    requires t < |s.tasks| && s.tasks[t].StorePing? && s.tasks[t].ws < |s.sockets| && Inv(s)
    ensures Inv(PingStored(s, t))
  {
    hide Inv;
    TaskAt(s, t);
    match s.tasks[t].copy
    case None => FinishKeeps(s, t, s.tasks[t].ws);
    case Some(meta) =>
      if meta.nextPing.None? {
        var meta' := meta.(nextPing := Some(s.now + meta.ping * 1000));
        MetaKeeps(s, t, meta');
        StepKeeps(s.(meta := Some(meta')), t, Rearm(Done));
      } else {
        StepKeeps(s, t, Rearm(Done));
      }
  }

  // ---------------------------------------------------------------- the alarm loop

  ghost predicate Sweeping(s: State, t: nat) {
    t < |s.tasks| && s.tasks[t].Continue? && s.tasks[t].after.SweepRest?
  }

  /** Marking a socket as pinged moves its deadline past the alarm's own instant. */
  lemma PingedKeeps(s: State, t: nat, k: nat, later: Resume, ping: string)
    requires Sweeping(s, t) && s.tasks[t] == Continue(later) && k < |s.sockets| && !s.sockets[k].archived
    requires !TimedOut(s.sockets[k], later.now) && s.sockets[k].phase == Authenticated
    requires Inv(s)
    ensures Inv(Update(s, k, Pinged(s.sockets[k], later.now, ping), map[]))
  {
    hide Inv;
    TaskAt(s, t);
    SocketAt(s, k);
    var info := Pinged(s.sockets[k], later.now, ping);
    var next := info.(counts := Add(info.counts, map[]));
    var s' := Move(s, k, next, map[], t, Continue(later));
    assert Cleared(s', later.now, later.left);
    MoveKeeps(s, k, next, map[], t, Continue(later));
    assert s' == Update(s, k, info, map[]);
  }

  lemma PingSentKeeps(s: State, t: nat, k: nat, later: Resume, env: Env)
    requires Sweeping(s, t) && s.tasks[t] == Continue(later) && k < |s.sockets| && !s.sockets[k].archived
    requires !TimedOut(s.sockets[k], later.now) && s.sockets[k].phase == Authenticated
    requires Inv(s)
    ensures Inv(PingSent(s, t, k, later, env))
  {
    hide Inv;
    var s1 := Update(s, k, Pinged(s.sockets[k], later.now, PingFor(env, k)), map[]);
    PingedKeeps(s, t, k, later, PingFor(env, k));
    if k in env.reachable {
      SentKeeps(s1, t, k, 9, Some(ServerPing));
    } else {
      TaskAt(s1, t);
      SocketAt(s1, k);
      RetiredKeeps(s1, t, k, s1.sockets[k], map[], later);
    }
  }

  /** A step of the loop leaves the head of the list behind. */
  lemma SkipKeeps(s: State, t: nat)
    requires Sweeping(s, t) && s.tasks[t].after.left != [] && Inv(s)
    requires var k := s.tasks[t].after.left[0];
             k >= |s.sockets| || s.sockets[k].archived || !TimedOut(s.sockets[k], s.tasks[t].after.now)
    ensures Inv(SetTask(s, t, Continue(s.tasks[t].after.(left := s.tasks[t].after.left[1..]))))
  {
    hide Inv;
    TaskAt(s, t);
    var after := s.tasks[t].after;
    var later := after.(left := after.left[1..]);
    assert Cleared(s, later.now, later.left) by {
      forall j | 0 <= j < |s.sockets| && !s.sockets[j].archived && j !in later.left
        ensures !TimedOut(s.sockets[j], later.now)
      {
        assert j == after.left[0] || j !in after.left;
      }
    }
    StepKeeps(s, t, Continue(later));
  }

  lemma VisitKeeps(s: State, t: nat, env: Env)
    requires Sweeping(s, t) && s.tasks[t].after.left != [] && Inv(s)
    ensures Inv(Visit(s, t, env))
  {
    hide Inv, PingSent;
    var after := s.tasks[t].after;
    var k := after.left[0];
    var later := after.(left := after.left[1..]);
    if k < |s.sockets| && !s.sockets[k].archived && TimedOut(s.sockets[k], after.now) {
      TimedOutKeeps(s, t);
    } else {
      SkipKeeps(s, t);
      if k < |s.sockets| && !s.sockets[k].archived && WantsPing(s.sockets[k], after.pingDue) {
        PingSentKeeps(SetTask(s, t, Continue(later)), t, k, later, env);
      }
    }
  }

  lemma TimedOutKeeps(s: State, t: nat)
    requires Sweeping(s, t) && s.tasks[t].after.left != []
    requires var k := s.tasks[t].after.left[0]; k < |s.sockets| && !s.sockets[k].archived
    requires Inv(s)
    ensures var k := s.tasks[t].after.left[0];
            Inv(Retired(s, t, k, s.sockets[k], map[], s.tasks[t].after.(left := s.tasks[t].after.left[1..])))
  {
    hide Inv;
    TaskAt(s, t);
    var after := s.tasks[t].after;
    var k := after.left[0];
    var later := after.(left := after.left[1..]);
    SocketAt(s, k);
    assert [k] + later.left == after.left;
    assert k in later.left ==> ResumeOk(s, later);
    RetiredKeeps(s, t, k, s.sockets[k], map[], later);
  }

  lemma {:induction false} SweepKeeps(s: State, t: nat, env: Env)
    requires Sweeping(s, t) && Inv(s)
    ensures Inv(Sweep(s, t, env))
    decreases |s.tasks[t].after.left|
  {
    hide Inv;
    TaskAt(s, t);
    var after := s.tasks[t].after;
    if after.left == [] {
      var meta :=
        if after.pingDue then after.meta.(nextPing := Some(after.now + after.meta.ping * 1000)) else after.meta;
      MetaKeeps(s, t, meta);
      StepKeeps(s.(meta := Some(meta)), t, Rearm(Swept(after.now)));
    } else {
      hide Visit;
      VisitKeeps(s, t, env);
      var s1 := Visit(s, t, env);
      if s1.tasks[t].Continue? {
        SweepKeeps(s1, t, env);
      }
    }
  }

  /** deleteAll: nothing in memory changes, and the room is past its last hour. */
  lemma WipeKeeps(s: State)
    requires s.now >= s.expires + HOUR && Inv(s)
    ensures Inv(s.(meta := None, attempts := 0, identities := [], closed := None, wiped := true))
  {
    hide Inv;
    var s' := s.(meta := None, attempts := 0, identities := [], closed := None, wiped := true);
    LimitsAt(s);
    IdentitiesAt(s);
    DeliveriesAt(s);
    ActorsKeep(s, s');
  }

  lemma DeletedKeeps(s: State, t: nat)
    requires t < |s.tasks| && s.tasks[t].RunAlarm? && s.now >= s.tasks[t].loaded.expires + HOUR && Inv(s)
    ensures Inv(SetTask(s.(meta := None, attempts := 0, identities := [], closed := None, wiped := true), t, Idle))
  {
    hide Inv;
    TaskAt(s, t);
    WipeKeeps(s);
    StepKeeps(s.(meta := None, attempts := 0, identities := [], closed := None, wiped := true), t, Idle);
  }

  lemma SweepBeginsKeeps(s: State, t: nat, meta: Meta, pingDue: bool, roster: seq<nat>)
    requires t < |s.tasks| && s.tasks[t].RunAlarm? && IsRoster(s, roster) && Inv(s)
    requires meta == s.tasks[t].loaded.(alarmEvents := s.tasks[t].loaded.alarmEvents + 1)
    requires s.now < meta.expires + HOUR
    ensures Inv(SetTask(s, t, Continue(SweepRest(meta, s.now, pingDue, roster))))
  {
    hide Inv;
    TaskAt(s, t);
    assert Cleared(s, s.now, roster) by {
      forall j: nat | j < |s.sockets| && !s.sockets[j].archived
        ensures j in roster
      {
        SocketAt(s, j);
      }
    }
    StepKeeps(s, t, Continue(SweepRest(meta, s.now, pingDue, roster)));
  }

  lemma AlarmBegunKeeps(s: State, t: nat, env: Env)
    requires t < |s.tasks| && s.tasks[t].RunAlarm? && IsRoster(s, env.roster) && Inv(s)
    ensures Inv(AlarmBegun(s, t, env))
  {
    hide Inv, IsRoster, Sweep;
    var loaded := s.tasks[t].loaded;
    var meta := loaded.(alarmEvents := loaded.alarmEvents + 1);
    if s.now >= meta.expires + HOUR {
      DeletedKeeps(s, t);
    } else {
      var pingDue := meta.nextPing.Some? && s.now >= meta.nextPing.value;
      SweepBeginsKeeps(s, t, meta, pingDue, env.roster);
      SweepKeeps(SetTask(s, t, Continue(SweepRest(meta, s.now, pingDue, env.roster))), t, env);
    }
  }

  // ---------------------------------------------------------------- finish after its transaction

  lemma CommitBooks(s: State, t: nat)
    requires t < |s.tasks| && s.tasks[t].Retire?
    requires s.wiped || Conserved(s)
    requires Accounted(s)
    ensures Books(Commit(s, t))
  {
    CommitAccounts(s, t);
    hide Accounted, Balanced, Connected;
    if !s.wiped {
      forall c: Counter
        ensures Balanced(Commit(s, t), c)
      {
        CommitCounter(s, t, c);
      }
      CommitConnections(s, t);
    }
  }

  lemma CommitCounter(s: State, t: nat, c: Counter)
    requires t < |s.tasks| && s.tasks[t].Retire? && !s.wiped && Balanced(s, c)
    ensures Balanced(Commit(s, t), c)
  {
    TotalUpdate(s.tasks, RetireWeight(c), t, Commit(s, t).tasks[t]);
  }

  lemma CommitConnections(s: State, t: nat)
    requires t < |s.tasks| && s.tasks[t].Retire? && !s.wiped && Connected(s)
    ensures Connected(Commit(s, t))
  {
    TotalUpdate(s.tasks, RetireOne(), t, Commit(s, t).tasks[t]);
  }

  lemma CommitAccounts(s: State, t: nat)
    requires t < |s.tasks| && s.tasks[t].Retire? && Accounted(s)
    ensures Accounted(Commit(s, t))
  {
    var s' := Commit(s, t);
    forall j: nat | j < |s.sockets|
      ensures Total(s'.tasks, DropOne(j)) == Total(s.tasks, DropOne(j))
    {
      TotalUpdate(s.tasks, DropOne(j), t, s'.tasks[t]);
    }
  }

  lemma CommitTasks(s: State, t: nat)
    requires t < |s.tasks| && s.tasks[t].Retire?
    requires TasksOk(s) && AuthorsOk(s) && AlarmsOk(s)
    ensures TasksOk(Commit(s, t)) && AuthorsOk(Commit(s, t)) && AlarmsOk(Commit(s, t)) && Rearming(Commit(s, t))
  {
    var s' := Commit(s, t);
    assert TaskOk(s, s.tasks[t]);
    forall u | 0 <= u < |s'.tasks|
      ensures TaskOk(s', s'.tasks[u])
    {
      TaskShifts(s, s', s'.tasks[u]);
    }
    assert WillRearm(s'.tasks[t]);
  }

  lemma CommitKeeps(s: State, t: nat)
    requires t < |s.tasks| && s.tasks[t].Retire? && Inv(s)
    ensures Inv(Commit(s, t))
  {
    hide TasksOk, AuthorsOk, AlarmsOk, Conserved, Accounted, Rearming;
    CommitBooks(s, t);
    CommitTasks(s, t);
    DeliveriesShift(s, Commit(s, t));
  }

  lemma {:induction false} AnnouncedKeeps(s: State, t: nat, ws: nat, id: string, from: nat, reachable: set<nat>)
    requires t < |s.tasks| && from <= |s.sockets| && Inv(s)
    ensures Inv(Announced(s, ws, id, from, reachable))
    decreases |s.sockets| - from
  {
    hide Inv, SendGain, Add;
    if from == |s.sockets| {
    } else if from != ws && HearsOf(s.sockets[from], id) && from in reachable {
      SentKeeps(s, t, from, 33, Some(EndpointGone));
      AnnouncedKeeps(Sent(s, from, 33, Some(EndpointGone)), t, ws, id, from + 1, reachable);
    } else {
      AnnouncedKeeps(s, t, ws, id, from + 1, reachable);
    }
  }

  // ---------------------------------------------------------------- schedule

  /** The computed alarm is the earliest of the limit and the deadlines of the active sockets. */
  lemma {:induction false} EarliestBound(sockets: seq<Socket>, limit: int)
    ensures Earliest(sockets, limit) <= limit
    ensures forall k :: 0 <= k < |sockets| && Active(sockets[k]) && sockets[k].deadline.Some? ==>
              Earliest(sockets, limit) <= sockets[k].deadline.value
    ensures Earliest(sockets, limit) == limit
            || exists k :: 0 <= k < |sockets| && Active(sockets[k])
                           && sockets[k].deadline == Some(Earliest(sockets, limit))
  {
    if sockets == [] {
    } else {
      var tail := sockets[1..];
      EarliestBound(tail, limit);
      var rest := Earliest(tail, limit);
      assert forall k :: 1 <= k < |sockets| ==> sockets[k] == tail[k - 1];
      if rest != limit {
        var k :| 0 <= k < |tail| && Active(tail[k]) && tail[k].deadline == Some(rest);
        assert Active(sockets[k + 1]) && sockets[k + 1].deadline == Some(rest);
      }
      if Active(sockets[0]) && sockets[0].deadline.Some? && sockets[0].deadline.value < rest {
        assert sockets[0].deadline == Some(Earliest(sockets, limit));
      }
    }
  }

  /** Right after `schedule`, every live socket is covered. */
  lemma ArmedCovers(s: State)
    requires s.meta.Some? && s.meta.value.expires == s.expires && Inv(s)
    ensures AllCovered(Armed(s))
  {
    hide Inv;
    var meta := s.meta.value;
    EarliestBound(s.sockets, if meta.nextPing.Some? then Min(meta.expires, meta.nextPing.value) else meta.expires);
    forall k: nat | k < |s.sockets| && !s.sockets[k].archived
      ensures AlarmCovers(Armed(s), s.sockets[k])
    {
      SocketAt(s, k);
      assert Active(s.sockets[k]);
    }
  }

  lemma ArmedKeeps(s: State)
    requires AllCovered(Armed(s)) || s.wiped
    requires Inv(s)
    ensures Inv(Armed(s))
  {
    hide Inv, AllCovered, NextAlarm;
    LimitsAt(s);
    IdentitiesAt(s);
    DeliveriesAt(s);
    ActorsKeep(s, Armed(s));
  }

  lemma RearmKeeps(s: State, t: nat)
    requires t < |s.tasks| && s.tasks[t].Rearm? && Inv(s)
    ensures Inv(SetTask(Armed(s), t, Continue(s.tasks[t].after)))
  {
    hide Inv;
    LimitsAt(s);
    if s.meta.Some? {
      ArmedCovers(s);
    }
    ArmedKeeps(s);
    TaskAt(Armed(s), t);
    StepKeeps(Armed(s), t, Continue(s.tasks[t].after));
  }

  // ---------------------------------------------------------------- fetch

  lemma BooksAt(s: State)
    requires Inv(s)
    ensures s.wiped || Conserved(s)
  {
  }

  lemma FetchBooks(s: State, ping: int)
    requires Admits(s, ping) && Inv(s)
    ensures Books(Fetch(s, ping))
  {
    BooksAt(s);
    FetchAccounts(s, ping);
    hide Inv, Accounted, Balanced, Connected;
    if !s.wiped {
      forall c: Counter
        ensures Balanced(Fetch(s, ping), c)
      {
        FetchCounter(s, ping, c);
      }
      FetchConnections(s, ping);
    }
  }

  lemma FetchCounter(s: State, ping: int, c: Counter)
    requires Admits(s, ping) && !s.wiped && Balanced(s, c)
    ensures Balanced(Fetch(s, ping), c)
  {
    TotalAppend(s.sockets, LiveWeight(c), NewSocket(s));
    TotalAppend(s.tasks, RetireWeight(c), Rearm(Done));
  }

  lemma FetchConnections(s: State, ping: int)
    requires Admits(s, ping) && !s.wiped && Connected(s)
    ensures Connected(Fetch(s, ping))
  {
    TotalAppend(s.sockets, ArchivedOne(), NewSocket(s));
    TotalAppend(s.tasks, RetireOne(), Rearm(Done));
  }

  lemma FetchAccounts(s: State, ping: int)
    requires Admits(s, ping) && Inv(s)
    ensures Accounted(Fetch(s, ping))
  {
    hide Inv;
    var s' := Fetch(s, ping);
    forall j: nat | j < |s'.sockets| && !s'.sockets[j].archived
      ensures Undecided(s'.sockets[j]) == Total(s'.tasks, DropOne(j))
    {
      TotalAppend(s.tasks, DropOne(j), Rearm(Done));
      if j == |s.sockets| {
        NothingPending(s);
      } else {
        AccountedAt(s, j);
      }
    }
  }

  lemma AccountedAt(s: State, k: nat)
    requires k < |s.sockets| && !s.sockets[k].archived && Inv(s)
    ensures Undecided(s.sockets[k]) == Total(s.tasks, DropOne(k))
  {
  }

  /** No task refers to a socket that does not exist yet. */
  lemma NothingPending(s: State)
    requires Inv(s)
    ensures Total(s.tasks, DropOne(|s.sockets|)) == 0
  {
    hide Inv;
    forall u: nat | u < |s.tasks|
      ensures DropOne(|s.sockets|)(s.tasks[u]) == 0
    {
      TaskAt(s, u);
    }
    TotalBound(s.tasks, DropOne(|s.sockets|), 0);
  }

  lemma FetchTasks(s: State, ping: int)
    requires TasksOk(s) && AuthorsOk(s) && AlarmsOk(s) && Admits(s, ping)
    ensures TasksOk(Fetch(s, ping)) && AuthorsOk(Fetch(s, ping)) && AlarmsOk(Fetch(s, ping))
  {
    hide AuthorsOk, AlarmsOk, NewSocket, Add, RelayRoom, LiveCount;
    FetchAuthors(s, ping);
    var s' := Fetch(s, ping);
    assert s'.tasks == s.tasks + [Rearm(Done)];
    assert TaskOk(s', Rearm(Done));
    forall u | 0 <= u < |s.tasks|
      ensures TaskOk(s', s.tasks[u])
    {
      FetchTask(s, ping, s.tasks[u]);
    }
  }

  lemma FetchAuthors(s: State, ping: int)
    requires AuthorsOk(s) && AlarmsOk(s) && Admits(s, ping)
    ensures AuthorsOk(Fetch(s, ping)) && AlarmsOk(Fetch(s, ping))
  {
    hide NewSocket, Add, RelayRoom, LiveCount;
    var s' := Fetch(s, ping);
    assert forall u :: 0 <= u < |s'.tasks| ==> s'.tasks[u] == if u == |s.tasks| then Rearm(Done) else s.tasks[u];
    assert forall k :: 0 <= k < |s.sockets| ==> s'.sockets[k] == s.sockets[k];
  }

  lemma FetchTask(s: State, ping: int, task: Task)
    requires Admits(s, ping) && TaskOk(s, task)
    ensures TaskOk(Fetch(s, ping), task)
  {
    hide ResumeOk, NewSocket, Add, LiveCount, RelayRoom;
    match task
    case Retire(_, _, _, after) => FetchResume(s, ping, after);
    case Announce(_, _, after) => FetchResume(s, ping, after);
    case Rearm(after) => FetchResume(s, ping, after);
    case Continue(after) => FetchResume(s, ping, after);
    case _ =>
  }

  lemma FetchResume(s: State, ping: int, after: Resume)
    requires Admits(s, ping) && ResumeOk(s, after)
    ensures ResumeOk(Fetch(s, ping), after)
  {
  }

  lemma FetchLimits(s: State, ping: int)
    requires Limits(s) && Admits(s, ping)
    ensures Limits(Fetch(s, ping))
  {
    TotalAppend(s.sockets, LiveCount(), NewSocket(s));
  }

  lemma FetchRest(s: State, ping: int)
    requires Limits(s) && IdentitiesOk(s) && DeliveriesOk(s) && Admits(s, ping)
    ensures Limits(Fetch(s, ping)) && IdentitiesOk(Fetch(s, ping)) && DeliveriesOk(Fetch(s, ping))
  {
    FetchLimits(s, ping);
    hide Limits, DeliveryOk;
    var s' := Fetch(s, ping);
    assert forall k :: 0 <= k < |s.sockets| ==> s'.sockets[k] == s.sockets[k];
    assert Identities(s'.sockets) == Identities(s.sockets);
    forall i | 0 <= i < |s'.delivered|
      ensures DeliveryOk(s'.sockets, s'.delivered[i])
    {
      StillDelivered(s.sockets, s.delivered[i], NewSocket(s));
    }
  }

  lemma StillDelivered(sockets: seq<Socket>, d: Delivery, newcomer: Socket)
    requires DeliveryOk(sockets, d)
    ensures DeliveryOk(sockets + [newcomer], d)
  {
  }

  lemma FetchShape(s: State, ping: int)
    requires SocketsOk(s) && UniqueRoutes(s) && Admits(s, ping)
    ensures SocketsOk(Fetch(s, ping)) && UniqueRoutes(Fetch(s, ping)) && Rearming(Fetch(s, ping))
  {
    var s' := Fetch(s, ping);
    assert SocketOk(NewSocket(s), s.expires);
    assert forall k :: 0 <= k < |s'.sockets| ==>
      s'.sockets[k] == if k == |s.sockets| then NewSocket(s) else s.sockets[k];
    assert WillRearm(s'.tasks[|s.tasks|]);
  }

  lemma FetchKeeps(s: State, ping: int)
    requires Inv(s)
    ensures Inv(Fetch(s, ping))
  {
    if Admits(s, ping) {
      hide SocketsOk, UniqueRoutes, TasksOk, AuthorsOk, AlarmsOk, Books;
      hide Rearming, Limits, IdentitiesOk, DeliveriesOk, Fetch;
      FetchShape(s, ping);
      FetchBooks(s, ping);
      FetchTasks(s, ping);
      FetchRest(s, ping);
    }
  }

  // ---------------------------------------------------------------- the platform

  /** A socket that starts closing, or that leaves the list of the platform once archived. */
  ghost predicate Fades(was: Socket, next: Socket) {
    && next == was.(open := next.open, listed := next.listed)
    && (next.open ==> was.open) && (next.listed ==> was.listed) && (next.listed == was.listed || was.archived)
  }

  lemma FadeBooks(s: State, k: nat, next: Socket)
    requires k < |s.sockets| && Fades(s.sockets[k], next) && Books(s)
    ensures Books(s.(sockets := s.sockets[k := next]))
  {
    var s' := s.(sockets := s.sockets[k := next]);
    forall c: Counter
      ensures Balanced(s, c) ==> Balanced(s', c)
    {
      TotalUpdate(s.sockets, LiveWeight(c), k, next);
    }
    TotalUpdate(s.sockets, ArchivedOne(), k, next);
  }

  lemma FadeResume(s: State, k: nat, next: Socket, after: Resume)
    requires k < |s.sockets| && Fades(s.sockets[k], next) && ResumeOk(s, after)
    ensures ResumeOk(s.(sockets := s.sockets[k := next]), after)
  {
  }

  lemma FadeTask(s: State, k: nat, next: Socket, task: Task)
    requires k < |s.sockets| && Fades(s.sockets[k], next) && TaskOk(s, task)
    ensures TaskOk(s.(sockets := s.sockets[k := next]), task)
  {
    hide ResumeOk;
    match task
    case Retire(_, _, _, after) => FadeResume(s, k, next, after);
    case Announce(_, _, after) => FadeResume(s, k, next, after);
    case Rearm(after) => FadeResume(s, k, next, after);
    case Continue(after) => FadeResume(s, k, next, after);
    case _ =>
  }

  lemma FadeTasks(s: State, k: nat, next: Socket)
    requires k < |s.sockets| && Fades(s.sockets[k], next) && TasksOk(s)
    ensures TasksOk(s.(sockets := s.sockets[k := next]))
  {
    hide TaskOk;
    var s' := s.(sockets := s.sockets[k := next]);
    forall u | 0 <= u < |s.tasks|
      ensures TaskOk(s', s.tasks[u])
    {
      FadeTask(s, k, next, s.tasks[u]);
    }
  }

  lemma FadeRest(s: State, k: nat, next: Socket)
    requires k < |s.sockets| && Fades(s.sockets[k], next)
    requires Covered(s) && Limits(s) && IdentitiesOk(s) && DeliveriesOk(s)
    ensures var s' := s.(sockets := s.sockets[k := next]);
            Covered(s') && Limits(s') && IdentitiesOk(s') && DeliveriesOk(s')
  {
    var s' := s.(sockets := s.sockets[k := next]);
    TotalUpdate(s.sockets, LiveCount(), k, next);
    assert forall j :: 0 <= j < |s.sockets| ==> s'.sockets[j].id == s.sockets[j].id;
    assert Identities(s'.sockets) == Identities(s.sockets);
    forall i | 0 <= i < |s'.delivered|
      ensures DeliveryOk(s'.sockets, s'.delivered[i])
    {
      assert DeliveryOk(s.sockets, s.delivered[i]);
    }
    if AllCovered(s) {
      forall j | 0 <= j < |s'.sockets| && !s'.sockets[j].archived
        ensures AlarmCovers(s', s'.sockets[j])
      {
        assert AlarmCovers(s, s.sockets[j]);
      }
    }
  }

  lemma FadeShape(s: State, k: nat, next: Socket)
    requires k < |s.sockets| && Fades(s.sockets[k], next) && Shape(s)
    ensures Shape(s.(sockets := s.sockets[k := next]))
  {
    hide TasksOk;
    FadeTasks(s, k, next);
  }

  lemma FadeKeeps(s: State, k: nat, next: Socket)
    requires k < |s.sockets| && Fades(s.sockets[k], next) && Inv(s)
    ensures Inv(s.(sockets := s.sockets[k := next]))
  {
    hide Shape, Books, Covered, Limits, IdentitiesOk, DeliveriesOk;
    FadeShape(s, k, next);
    FadeBooks(s, k, next);
    FadeRest(s, k, next);
  }

  lemma TickKeeps(s: State, ms: nat)
    requires Inv(s)
    ensures Inv(s.(now := s.now + ms))
  {
    hide Inv;
    CoveredAt(s);
    LimitsAt(s);
    IdentitiesAt(s);
    DeliveriesAt(s);
    ActorsKeep(s, s.(now := s.now + ms));
  }

  lemma AlarmFiresKeeps(s: State)
    requires forall t :: 0 <= t < |s.tasks| ==> !InAlarm(s.tasks[t])
    requires Inv(s)
    ensures Inv(Spawn(s.(alarm := None), ReadAlarm))
  {
    hide Inv;
    SpawnKeeps(s, ReadAlarm);
    var s1 := Spawn(s, ReadAlarm);
    var s' := Spawn(s.(alarm := None), ReadAlarm);
    assert WillRearm(s'.tasks[|s.tasks|]);
    LimitsAt(s1);
    IdentitiesAt(s1);
    DeliveriesAt(s1);
    ActorsKeep(s1, s');
  }
}
