/**
 * Admission, closing and the alarm of the relay (infra/cloudflare/worker/src/iroh-relay.js,
 * lines 13-44 and 113-167): what each of these steps does, socket by socket.
 */
module RelayTimers {
  import opened Base
  import opened RelayMetrics
  import opened RelayProtocol
  import opened RelayModel
  import opened RelayInvariant
  import opened RelayTasks
  import opened RelayTheorems
  import opened RelayLaws
  import opened RelayIdentity
  import RelayAlarm

  // ---------------------------------------------------------------- admission

  /** The sockets that count against the limit: listed, neither archived nor closing. */
  function OpenSockets(sockets: seq<Socket>): set<nat> {
    set k | 0 <= k < |sockets| && sockets[k].listed && !sockets[k].archived && sockets[k].open
  }

  lemma {:induction false} OpenCount(sockets: seq<Socket>)
    ensures Total(sockets, LiveCount()) == |OpenSockets(sockets)|
  {
    if sockets == [] {
      assert OpenSockets(sockets) == {};
    } else {
      var rest, last := sockets[..|sockets| - 1], sockets[|sockets| - 1];
      assert sockets == rest + [last];
      OpenCount(rest);
      TotalAppend(rest, LiveCount(), last);
      if Live(last) == 1 {
        assert OpenSockets(sockets) == OpenSockets(rest) + {|rest|};
      } else {
        assert OpenSockets(sockets) == OpenSockets(rest);
      }
    }
  }

  /** The room is in its half hour, the interval is one on offer and the room's own, and there is a place. */
  ghost predicate MayJoin(s: State, ping: int) {
    && s.expires - 1_800_000 <= s.now + 30_000 && s.now < s.expires
    && ping in {15, 30, 60, 120, 300}
    && (s.meta.Some? ==> s.meta.value.ping == ping)
    && s.attempts < 20 && |OpenSockets(s.sockets)| < 4
  }

  /** A session that has been sent its challenge of 17 bytes and has ten seconds to answer it. */
  ghost predicate IsChallenged(s: State, next: Socket) {
    && next.phase == Challenging && next.deadline == Some(s.now + 10_000) && next.expires == s.expires
    && next.id.None? && next.pendingPing.None? && !next.archived && next.open && next.listed
    && next.bucket == s.now && next.bucketMessages == 0
    && forall c: Counter :: next.counts[c] == if c == OutboundBytes then 17 else 0
  }

  /** An upgrade becomes a challenged session exactly if it may join; otherwise nothing changes. */
  lemma UpgradeIsDecided(s: State, ping: int)
    ensures var r := Next(s, Upgrade(ping));
      if MayJoin(s, ping)
      then && |r.sockets| == |s.sockets| + 1 && r.sockets[..|s.sockets|] == s.sockets
           && IsChallenged(s, r.sockets[|s.sockets|])
           && r == s.(sockets := r.sockets, ledger := r.ledger, tasks := s.tasks + [Rearm(Done)],
                      attempts := s.attempts + 1,
                      meta := if s.meta.Some? then s.meta else Some(Meta(s.expires, ping, None, 0)))
      else r == s
  {
    hide MayJoin, Admits, IsChallenged, NewSocket, Add;
    JoinMeans(s, ping);
    Challenges(s);
  }

  lemma JoinMeans(s: State, ping: int)
    ensures MayJoin(s, ping) <==> Admits(s, ping)
  {
    hide LiveCount, OpenSockets, Total;
    OpenCount(s.sockets);
  }

  lemma Challenges(s: State)
    ensures IsChallenged(s, NewSocket(s))
  {
  }

  // ---------------------------------------------------------------- closing

  /** A transport that closes or fails ends its session, if that is not over yet. */
  lemma ClosureEnds(s: State, ws: nat)
    requires Enabled(s, PeerClosed(ws))
    ensures var r := Next(s, PeerClosed(ws));
      if s.sockets[ws].archived then r == s.(tasks := s.tasks + [Continue(Done)])
      else SessionEnds(s, r, ws, map[])
  {
    hide SessionEnds, Retired;
    if s.sockets[ws].archived {
      assert (s.tasks + [Idle])[|s.tasks| := Continue(Done)] == s.tasks + [Continue(Done)];
    } else {
      Unchanged(s.sockets[ws]);
      RetiredEnds(s, ws, s.sockets[ws], map[]);
    }
  }

  /** The closing transaction adds one connection and its counters to what was there. */
  lemma ClosingIsBooked(s: State, t: nat, env: Env)
    requires Enabled(s, Advance(t, env)) && s.tasks[t].Retire?
    ensures var Retire(ws, counts, id, after) := s.tasks[t];
      var r := Next(s, Advance(t, env));
      && r == s.(closed := r.closed, tasks := s.tasks[t := Announce(ws, id, after)])
      && r.closed.Some?
      && r.closed.value.connections == (if s.closed.Some? then s.closed.value.connections else 0) + 1
      && forall c: Counter ::
           r.closed.value.counts[c] == (if s.closed.Some? then s.closed.value.counts[c] else 0) + counts[c]
  {
    hide IsRoster;
  }

  /** A socket that is told of the end of an endpoint: another, live, authenticated as somebody else, and reachable. */
  ghost predicate IsTold(info: Socket, k: nat, ws: nat, id: string, reachable: set<nat>) {
    && k != ws && k in reachable
    && info.listed && !info.archived && info.phase == Authenticated && info.id != Some(id)
  }

  /** Exactly the sockets that are to be told from a position on have been told. */
  ghost predicate Told(s: State, r: State, ws: nat, id: string, from: nat, reachable: set<nat>) {
    && |r.sockets| == |s.sockets| && r == s.(sockets := r.sockets, ledger := r.ledger)
    && forall k :: 0 <= k < |s.sockets| ==>
         if k >= from && IsTold(s.sockets[k], k, ws, id, reachable)
         then r.sockets[k] == s.sockets[k].(counts := r.sockets[k].counts)
              && Rises(s.sockets[k], r.sockets[k], map[EndpointGone := 1, OutboundBytes := 33])
         else r.sockets[k] == s.sockets[k]
  }

  lemma {:induction false} AnnouncedTells(s: State, ws: nat, id: string, from: nat, reachable: set<nat>)
    requires from <= |s.sockets|
    ensures Told(s, Announced(s, ws, id, from, reachable), ws, id, from, reachable)
    decreases |s.sockets| - from
  {
    hide Rises, Add, SendGain, Told, Announced;
    AnnouncedSteps(s, ws, id, from, reachable);
    if from == |s.sockets| {
      NobodyTold(s, ws, id, reachable);
    } else if from != ws && HearsOf(s.sockets[from], id) && from in reachable {
      var s1 := Sent(s, from, 33, Some(EndpointGone));
      AnnouncedTells(s1, ws, id, from + 1, reachable);
      GoneIsSent(s.sockets[from]);
      OneMoreTold(s, s1, Announced(s1, ws, id, from + 1, reachable), ws, id, from, reachable);
    } else {
      AnnouncedTells(s, ws, id, from + 1, reachable);
      OneMoreTold(s, s, Announced(s, ws, id, from + 1, reachable), ws, id, from, reachable);
    }
  }

  lemma NobodyTold(s: State, ws: nat, id: string, reachable: set<nat>)
    ensures Told(s, s, ws, id, |s.sockets|, reachable)
  {
  }

  lemma OneMoreTold(s: State, s1: State, r: State, ws: nat, id: string, from: nat, reachable: set<nat>)
    requires from < |s.sockets| && |s1.sockets| == |s.sockets| && s1 == s.(sockets := s1.sockets, ledger := s1.ledger)
    requires forall k :: 0 <= k < |s.sockets| && k != from ==> s1.sockets[k] == s.sockets[k]
    requires if IsTold(s.sockets[from], from, ws, id, reachable)
             then s1.sockets[from] == s.sockets[from].(counts := s1.sockets[from].counts)
                  && Rises(s.sockets[from], s1.sockets[from], map[EndpointGone := 1, OutboundBytes := 33])
             else s1.sockets[from] == s.sockets[from]
    requires Told(s1, r, ws, id, from + 1, reachable)
    ensures Told(s, r, ws, id, from, reachable)
  {
    hide Rises;
    assert r.sockets[from] == s1.sockets[from];
  }

  lemma GoneIsSent(was: Socket)
    ensures Rises(was, was.(counts := Add(was.counts, SendGain(33, Some(EndpointGone)))),
                  map[EndpointGone := 1, OutboundBytes := 33])
  {
  }

  /** The end of an authenticated endpoint is told to all who are to be told, and to nobody else. */
  lemma EndIsTold(s: State, t: nat, env: Env)
    requires Enabled(s, Advance(t, env)) && s.tasks[t].Announce?
    ensures var Announce(ws, id, after) := s.tasks[t];
      var r, s1 := Next(s, Advance(t, env)), s.(tasks := s.tasks[t := Rearm(after)]);
      if id.None? then r == s1 else Told(s1, r, ws, id.value, 0, env.reachable)
  {
    hide Announced, Told, IsRoster;
    var Announce(ws, id, after) := s.tasks[t];
    if id.Some? {
      AnnouncedTells(SetTask(s, t, Rearm(after)), ws, id.value, 0, env.reachable);
    }
  }

  // ---------------------------------------------------------------- scheduling

  /** An instant the alarm has to cover. */
  ghost predicate IsDueTime(s: State, meta: Meta, time: int) {
    if exists k :: 0 <= k < |s.sockets| && s.sockets[k].listed && !s.sockets[k].archived
    then time == meta.expires || meta.nextPing == Some(time)
         || exists k :: 0 <= k < |s.sockets| && s.sockets[k].listed && !s.sockets[k].archived
                        && s.sockets[k].deadline == Some(time)
    else time == meta.expires + 3_600_000
  }

  /** The alarm is set for the first instant to cover, and never for the past. */
  lemma AlarmIsSet(s: State, t: nat, env: Env)
    requires Enabled(s, Advance(t, env)) && s.tasks[t].Rearm?
    ensures var r, tasks := Next(s, Advance(t, env)), s.tasks[t := Continue(s.tasks[t].after)];
      if s.meta.None? then r == s.(tasks := tasks)
      else && r == s.(alarm := r.alarm, armedAt := s.now, tasks := tasks)
           && exists first :: IsDueTime(s, s.meta.value, first)
                && (forall time :: IsDueTime(s, s.meta.value, time) ==> first <= time)
                && r.alarm == Some(if first <= s.now then s.now + 1 else first)
  {
    hide IsRoster, NextAlarm, IsDueTime;
    if s.meta.Some? {
      FirstDue(s, s.meta.value);
    }
  }

  lemma FirstDue(s: State, meta: Meta)
    ensures IsDueTime(s, meta, NextAlarm(s, meta))
    ensures forall time :: IsDueTime(s, meta, time) ==> NextAlarm(s, meta) <= time
  {
    hide Earliest;
    RelayAlarm.EarliestBound(
      s.sockets, if meta.nextPing.Some? then Min(meta.expires, meta.nextPing.value) else meta.expires);
  }

  // ---------------------------------------------------------------- the alarm

  predicate IsDue(info: Socket, now: int) {
    now >= info.expires || (info.deadline.Some? && now >= info.deadline.value)
  }

  predicate IsPinged(info: Socket, now: int, pingDue: bool) {
    !info.archived && !IsDue(info, now) && pingDue && info.phase == Authenticated && info.pendingPing.None?
  }

  /**
   * What the alarm's loop does to one attachment: a live session that is due is over; one that
   * is to be pinged awaits its pong for five seconds, and is over if the ping cannot be sent;
   * everything else is left alone.
   */
  ghost predicate IsVisited(was: Socket, next: Socket, now: int, pingDue: bool, ping: string, reachable: bool) {
    if !was.archived && IsDue(was, now) then Over(was, next, map[])
    else if IsPinged(was, now, pingDue) then
      if reachable
      then next == was.(pendingPing := Some(ping), deadline := Some(now + 5_000), counts := next.counts)
           && Rises(was, next, map[ServerPing := 1, OutboundBytes := 9])
      else Over(was.(pendingPing := Some(ping), deadline := Some(now + 5_000)), next, map[])
    else next == was
  }

  function PingOf(env: Env, k: nat): string {
    if k in env.pings then env.pings[k] else ""
  }

  /** Only the sockets, this handler and the record of the room may have changed. */
  ghost predicate StaysRoom(s: State, r: State, t: nat) {
    && |r.sockets| == |s.sockets| && |r.tasks| == |s.tasks| && t < |s.tasks|
    && r == s.(sockets := r.sockets, ledger := r.ledger, tasks := s.tasks[t := r.tasks[t]], meta := r.meta)
  }

  /** The loop has visited these sockets and no others. */
  ghost predicate HaveBeenVisited(s: State, r: State, done: seq<nat>, now: int, pingDue: bool, env: Env)
    requires |r.sockets| == |s.sockets|
  {
    forall k :: 0 <= k < |s.sockets| ==>
      if k in done
      then IsVisited(s.sockets[k], r.sockets[k], now, pingDue, PingOf(env, k), k in env.reachable)
      else r.sockets[k] == s.sockets[k]
  }

  /** The loop has come to its end: the record is written back, with the next ping if one was due. */
  ghost predicate EndsLoop(r: State, t: nat, meta: Meta, now: int, pingDue: bool)
    requires t < |r.tasks|
  {
    && r.tasks[t] == Rearm(Swept(now))
    && r.meta == Some(if pingDue then meta.(nextPing := Some(now + 1000 * meta.ping)) else meta)
  }

  /** The loop waits for the closing of a session that it has just ended. */
  ghost predicate WaitsFor(s: State, r: State, t: nat, k: nat, later: Resume)
    requires t < |r.tasks| && |r.sockets| == |s.sockets|
  {
    && k < |s.sockets| && !s.sockets[k].archived && r.sockets[k].archived && r.meta == s.meta
    && r.tasks[t] == Retire(k, r.sockets[k].counts, s.sockets[k].id, later)
  }

  ghost predicate Sweeps(s: State, r: State, t: nat, after: Resume, m: nat, env: Env)
    requires after.SweepRest?
  {
    && StaysRoom(s, r, t) && m <= |after.left|
    && HaveBeenVisited(s, r, after.left[..m], after.now, after.pingDue, env)
    && if m == |after.left| && !r.tasks[t].Retire? then EndsLoop(r, t, after.meta, after.now, after.pingDue)
       else 0 < m && WaitsFor(s, r, t, after.left[m - 1], after.(left := after.left[m..]))
  }

  lemma PingedIs(was: Socket, now: int, ping: string)
    ensures var next := Pinged(was, now, ping);
      && next.(counts := Add(next.counts, map[])) == next
      && var sent := next.(counts := Add(next.counts, SendGain(9, Some(ServerPing))));
         sent == was.(pendingPing := Some(ping), deadline := Some(now + 5_000), counts := sent.counts)
         && Rises(was, sent, map[ServerPing := 1, OutboundBytes := 9])
  {
  }

  /** What one visit writes: one attachment and the task. */
  ghost predicate Writes(s: State, r: State, t: nat, k: nat, next: Socket, task: Task)
    requires t < |s.tasks| && k < |s.sockets|
  {
    r == s.(sockets := s.sockets[k := next], tasks := s.tasks[t := task], ledger := r.ledger)
  }

  lemma DueWrites(s: State, t: nat, k: nat, later: Resume)
    requires t < |s.tasks| && k < |s.sockets|
    ensures var was := s.sockets[k];
      var next := was.(archived := true, open := false, counts := Add(was.counts, map[]));
      Writes(s, Retired(s, t, k, was, map[], later), t, k, next, Retire(k, next.counts, was.id, later))
  {
    hide Add;
  }

  lemma PingWrites(s: State, t: nat, k: nat, now: int, later: Resume, env: Env)
    requires t < |s.tasks| && k < |s.sockets| && later.SweepRest? && later.now == now && !s.sockets[k].archived
    ensures var r, was := PingSent(SetTask(s, t, Continue(later)), t, k, later, env), s.sockets[k];
      var next := Pinged(was, now, PingOf(env, k));
      next.(counts := Add(next.counts, map[])) == next ==>
        if k in env.reachable
        then Writes(s, r, t, k, next.(counts := Add(next.counts, SendGain(9, Some(ServerPing)))), Continue(later))
        else var last := next.(archived := true, open := false, counts := Add(next.counts, map[]));
             Writes(s, r, t, k, last, Retire(k, last.counts, was.id, later))
  {
    hide Add, SendGain;
  }

  lemma WritesOne(s: State, r: State, t: nat, k: nat, next: Socket, task: Task, now: int, pingDue: bool, env: Env)
    requires t < |s.tasks| && k < |s.sockets| && Writes(s, r, t, k, next, task)
    requires IsVisited(s.sockets[k], next, now, pingDue, PingOf(env, k), k in env.reachable)
    ensures StaysRoom(s, r, t) && r.meta == s.meta && r.tasks[t] == task
    ensures HaveBeenVisited(s, r, [k], now, pingDue, env)
    ensures forall j :: 0 <= j < |s.sockets| && j != k ==> r.sockets[j] == s.sockets[j]
    ensures r.sockets[k] == next
  {
    hide IsVisited;
    assert s.sockets[k := s.sockets[k]] == s.sockets;
  }

  /** One visit: only the first socket of the list may change, and the loop goes on unless it has ended a session. */
  lemma VisitVisits(s: State, t: nat, env: Env)
    requires t < |s.tasks| && s.tasks[t].Continue? && s.tasks[t].after.SweepRest? && s.tasks[t].after.left != []
    ensures var after := s.tasks[t].after;
      var later := after.(left := after.left[1..]);
      var r := Visit(s, t, env);
      && StaysRoom(s, r, t) && r.meta == s.meta
      && HaveBeenVisited(s, r, [after.left[0]], after.now, after.pingDue, env)
      && (if r.tasks[t].Continue? then r.tasks[t] == Continue(later)
          else WaitsFor(s, r, t, after.left[0], later))
      && (r.tasks[t].Continue? ==>
            forall k :: 0 <= k < |s.sockets| ==> r.sockets[k].archived == s.sockets[k].archived)
  {
    hide Add, IsVisited, Writes, StaysRoom, HaveBeenVisited, PingSent, Retired, SendGain;
    var after := s.tasks[t].after;
    var later, k := after.(left := after.left[1..]), after.left[0];
    var r := Visit(s, t, env);
    if k >= |s.sockets| {
      NobodyVisited(s, t, k, later, after.now, after.pingDue, env);
    } else {
      var was := s.sockets[k];
      VisitedIs(was, after.now, after.pingDue, PingOf(env, k));
      if !was.archived && IsDue(was, after.now) {
        DueWrites(s, t, k, later);
        var next := was.(archived := true, open := false, counts := Add(was.counts, map[]));
        WritesOne(s, r, t, k, next, Retire(k, next.counts, was.id, later), after.now, after.pingDue, env);
      } else if IsPinged(was, after.now, after.pingDue) {
        PingWrites(s, t, k, after.now, later, env);
        var next := Pinged(was, after.now, PingOf(env, k));
        if k in env.reachable {
          WritesOne(s, r, t, k, next.(counts := Add(next.counts, SendGain(9, Some(ServerPing)))), Continue(later),
                    after.now, after.pingDue, env);
        } else {
          var last := next.(archived := true, open := false, counts := Add(next.counts, map[]));
          WritesOne(s, r, t, k, last, Retire(k, last.counts, was.id, later), after.now, after.pingDue, env);
        }
      } else {
        NothingWrites(s, t, k, later);
        WritesOne(s, r, t, k, was, Continue(later), after.now, after.pingDue, env);
      }
    }
  }

  lemma NothingWrites(s: State, t: nat, k: nat, later: Resume)
    requires t < |s.tasks| && k < |s.sockets|
    ensures Writes(s, SetTask(s, t, Continue(later)), t, k, s.sockets[k], Continue(later))
  {
    assert s.sockets[k := s.sockets[k]] == s.sockets;
  }

  lemma NobodyVisited(s: State, t: nat, k: nat, later: Resume, now: int, pingDue: bool, env: Env)
    requires t < |s.tasks| && k >= |s.sockets|
    ensures StaysRoom(s, SetTask(s, t, Continue(later)), t)
    ensures HaveBeenVisited(s, SetTask(s, t, Continue(later)), [k], now, pingDue, env)
  {
  }

  /** The four ways a visit can go, for one attachment. */
  lemma VisitedIs(was: Socket, now: int, pingDue: bool, ping: string)
    ensures !was.archived && IsDue(was, now) ==>
      forall reachable :: IsVisited(was, was.(archived := true, open := false, counts := Add(was.counts, map[])),
                                    now, pingDue, ping, reachable)
    ensures IsPinged(was, now, pingDue) ==>
      var next := Pinged(was, now, ping);
      && next.(counts := Add(next.counts, map[])) == next
      && IsVisited(was, next.(counts := Add(next.counts, SendGain(9, Some(ServerPing)))), now, pingDue, ping, true)
      && IsVisited(was, next.(archived := true, open := false, counts := Add(next.counts, map[])),
                   now, pingDue, ping, false)
    ensures !IsPinged(was, now, pingDue) && (was.archived || !IsDue(was, now)) ==>
      forall reachable :: IsVisited(was, was, now, pingDue, ping, reachable)
  {
    PingedIs(was, now, ping);
    Ends(was);
    Ends(Pinged(was, now, ping));
  }

  /** Two parts of the loop, one after the other. */
  lemma VisitedTwice(was: Socket, next: Socket, last: Socket, now: int, pingDue: bool, ping: string, reachable: bool)
    requires IsVisited(was, next, now, pingDue, ping, reachable) && next.archived == was.archived
    requires IsVisited(next, last, now, pingDue, ping, reachable) && now < now + 5_000
    ensures IsVisited(was, last, now, pingDue, ping, reachable)
  {
  }

  lemma VisitsJoin(
      s: State, s1: State, r: State, k: nat, done: seq<nat>, now: int, pingDue: bool, env: Env)
    requires |s1.sockets| == |s.sockets| && |r.sockets| == |s.sockets|
    requires HaveBeenVisited(s, s1, [k], now, pingDue, env) && HaveBeenVisited(s1, r, done, now, pingDue, env)
    requires forall j :: 0 <= j < |s.sockets| ==> s1.sockets[j].archived == s.sockets[j].archived
    ensures HaveBeenVisited(s, r, [k] + done, now, pingDue, env)
  {
    hide IsVisited;
    forall j | 0 <= j < |s.sockets| && j == k && j in done
      ensures IsVisited(s.sockets[j], r.sockets[j], now, pingDue, PingOf(env, j), j in env.reachable)
    {
      VisitedTwice(s.sockets[j], s1.sockets[j], r.sockets[j], now, pingDue, PingOf(env, j), j in env.reachable);
    }
  }

  lemma VisitsKeepIds(s: State, r: State, done: seq<nat>, now: int, pingDue: bool, env: Env)
    requires |r.sockets| == |s.sockets| && HaveBeenVisited(s, r, done, now, pingDue, env)
    ensures forall k :: 0 <= k < |s.sockets| ==>
      r.sockets[k].id == s.sockets[k].id && (s.sockets[k].archived ==> r.sockets[k].archived)
  {
  }

  /** The loop from any position on: it visits sockets in order until it has to wait for a closing, or all of them. */
  lemma {:induction false} SweepSweeps(s: State, t: nat, env: Env) returns (m: nat)
    requires t < |s.tasks| && s.tasks[t].Continue? && s.tasks[t].after.SweepRest?
    ensures Sweeps(s, Sweep(s, t, env), t, s.tasks[t].after, m, env)
    decreases |s.tasks[t].after.left|
  {
    hide IsVisited, Visit, StaysRoom, HaveBeenVisited, Sweeps, EndsLoop, WaitsFor;
    var after := s.tasks[t].after;
    if after.left == [] {
      m := 0;
      LoopEnds(s, t, env);
    } else {
      var s1 := Visit(s, t, env);
      VisitVisits(s, t, env);
      RoomFacts(s, s1, t);
      if s1.tasks[t].Continue? {
        var more := SweepSweeps(s1, t, env);
        m := more + 1;
        VisitsKeepIds(s, s1, [after.left[0]], after.now, after.pingDue, env);
        SweepsOn(s, s1, Sweep(s1, t, env), t, after, more, env);
      } else {
        m := 1;
        SweepStops(s, s1, t, after, env);
      }
    }
  }

  lemma RoomFacts(s: State, r: State, t: nat)
    requires StaysRoom(s, r, t)
    ensures |r.sockets| == |s.sockets| && |r.tasks| == |s.tasks| && t < |s.tasks|
  {
  }

  lemma LoopEnds(s: State, t: nat, env: Env)
    requires t < |s.tasks| && s.tasks[t].Continue? && s.tasks[t].after.SweepRest? && s.tasks[t].after.left == []
    ensures Sweeps(s, Sweep(s, t, env), t, s.tasks[t].after, 0, env)
  {
    hide IsVisited;
  }

  lemma SweepStops(s: State, r: State, t: nat, after: Resume, env: Env)
    requires after.SweepRest? && after.left != [] && StaysRoom(s, r, t)
    requires HaveBeenVisited(s, r, [after.left[0]], after.now, after.pingDue, env)
    requires WaitsFor(s, r, t, after.left[0], after.(left := after.left[1..]))
    ensures Sweeps(s, r, t, after, 1, env)
  {
    hide IsVisited;
    assert after.left[..1] == [after.left[0]];
  }

  lemma SweepsOn(s: State, s1: State, r: State, t: nat, after: Resume, more: nat, env: Env)
    requires after.SweepRest? && after.left != [] && StaysRoom(s, s1, t) && s1.meta == s.meta
    requires HaveBeenVisited(s, s1, [after.left[0]], after.now, after.pingDue, env)
    requires forall k :: 0 <= k < |s.sockets| ==>
      s1.sockets[k].archived == s.sockets[k].archived && s1.sockets[k].id == s.sockets[k].id
    requires Sweeps(s1, r, t, after.(left := after.left[1..]), more, env)
    ensures Sweeps(s, r, t, after, more + 1, env)
  {
    hide HaveBeenVisited, EndsLoop;
    VisitsJoin(s, s1, r, after.left[0], after.left[1..][..more], after.now, after.pingDue, env);
    assert after.left[..more + 1] == [after.left[0]] + after.left[1..][..more];
    assert after.left[1..][more..] == after.left[more + 1..];
    assert s.tasks[t := s1.tasks[t]][t := r.tasks[t]] == s.tasks[t := r.tasks[t]];
  }

  lemma SweepsFrom(s: State, r: State, t: nat, task: Task, after: Resume, m: nat, env: Env)
    requires t < |s.tasks| && after.SweepRest? && Sweeps(SetTask(s, t, task), r, t, after, m, env)
    ensures Sweeps(s, r, t, after, m, env)
  {
    hide IsVisited, EndsLoop;
    assert s.tasks[t := task][t := r.tasks[t]] == s.tasks[t := r.tasks[t]];
    assert HaveBeenVisited(s, r, after.left[..m], after.now, after.pingDue, env);
  }

  /** What an alarm has to do when it begins: the record counts it, and a ping is due from its time on. */
  function WholeLoop(loaded: Meta, now: int, roster: seq<nat>): (after: Resume)
    ensures after.SweepRest?
  {
    SweepRest(loaded.(alarmEvents := loaded.alarmEvents + 1), now,
              loaded.nextPing.Some? && now >= loaded.nextPing.value, roster)
  }

  /**
   * An alarm an hour past the expiry deletes the storage. An earlier one counts itself and visits
   * the sockets: it ends the sessions that are due and pings the authenticated ones if a ping is
   * due, waiting for each closing it causes.
   */
  lemma AlarmIsRun(s: State, t: nat, env: Env)
    requires Enabled(s, Advance(t, env)) && s.tasks[t].RunAlarm?
    ensures var r, loaded := Next(s, Advance(t, env)), s.tasks[t].loaded;
      if s.now >= loaded.expires + 3_600_000
      then r == s.(meta := None, attempts := 0, identities := [], closed := None, wiped := true,
                   tasks := s.tasks[t := Idle])
      else exists m: nat :: Sweeps(s, r, t, WholeLoop(loaded, s.now, env.roster), m, env)
  {
    hide IsRoster, Sweep, Sweeps;
    var loaded := s.tasks[t].loaded;
    if s.now < loaded.expires + 3_600_000 {
      var after := WholeLoop(loaded, s.now, env.roster);
      var m := SweepSweeps(SetTask(s, t, Continue(after)), t, env);
      SweepsFrom(s, Sweep(SetTask(s, t, Continue(after)), t, env), t, Continue(after), after, m, env);
      assert Next(s, Advance(t, env)) == Sweep(SetTask(s, t, Continue(after)), t, env);
    }
  }

  /** After a closing the alarm's loop goes on where it was, with the instant and the record it began with. */
  lemma AlarmGoesOn(s: State, t: nat, env: Env)
    requires Enabled(s, Advance(t, env)) && s.tasks[t].Continue? && s.tasks[t].after.SweepRest?
    ensures exists m: nat :: Sweeps(s, Next(s, Advance(t, env)), t, s.tasks[t].after, m, env)
  {
    hide IsRoster, Sweep, Sweeps;
    var m := SweepSweeps(s, t, env);
    assert Next(s, Advance(t, env)) == Sweep(s, t, env);
  }

  /** An alarm in a room that is not known any more does nothing. */
  lemma AlarmBegins(s: State, t: nat, env: Env)
    ensures Enabled(s, AlarmFires) ==> Next(s, AlarmFires) == s.(alarm := None, tasks := s.tasks + [ReadAlarm])
    ensures Enabled(s, Advance(t, env)) && s.tasks[t] == ReadAlarm ==>
      Next(s, Advance(t, env))
        == s.(tasks := s.tasks[t := if s.meta.Some? then RunAlarm(s.meta.value) else Idle])
  {
  }
}
