/** What one event may change: archived sockets are frozen, counters never go back, other tasks are left alone. */
module RelayEvolution {
  import opened Base
  import opened RelayMetrics
  import opened RelayProtocol
  import opened RelayModel

  /** How an attachment may differ after some events. */
  ghost predicate Ages(was: Socket, now: Socket) {
    && (was.archived ==> now.archived && now.counts == was.counts && now.id == was.id && now.phase == was.phase)
    && (was.id.Some? ==> now.id == was.id)
    && now.expires == was.expires
    && forall c: Counter :: was.counts[c] <= now.counts[c]
  }

  ghost predicate Evolves(s: State, s': State) {
    && s'.expires == s.expires && s.now <= s'.now && (s.wiped ==> s'.wiped)
    && |s.sockets| <= |s'.sockets|
    && (forall k :: 0 <= k < |s.sockets| ==> Ages(s.sockets[k], s'.sockets[k]))
    && (forall c: Counter :: s.ledger[c] <= s'.ledger[c])
    && s.delivered <= s'.delivered
  }

  /** A segment of task `t`: no other task moves, and `t` is not left in the middle of a lookup. */
  ghost predicate Segment(s: State, s': State, t: nat) {
    && Evolves(s, s') && t < |s.tasks| && |s'.tasks| == |s.tasks| && !s'.tasks[t].Routing?
    && forall u :: 0 <= u < |s.tasks| && u != t ==> s'.tasks[u] == s.tasks[u]
  }

  /** Storage, the alarm and tasks may change freely. */
  lemma EvolvesInPlace(s: State, s': State)
    requires s'.expires == s.expires && s'.now == s.now && (s.wiped ==> s'.wiped)
    requires s'.sockets == s.sockets && s'.ledger == s.ledger && s'.delivered == s.delivered
    ensures Evolves(s, s')
  {
  }

  lemma EvolvesTransitive(a: State, b: State, c: State)
    requires Evolves(a, b) && Evolves(b, c)
    ensures Evolves(a, c)
  {
    forall k | 0 <= k < |a.sockets|
      ensures Ages(a.sockets[k], c.sockets[k])
    {
      assert Ages(a.sockets[k], b.sockets[k]) && Ages(b.sockets[k], c.sockets[k]);
    }
  }

  lemma SegmentsJoin(a: State, b: State, c: State, t: nat)
    requires Evolves(a, b) && |b.tasks| == |a.tasks|
    requires forall u :: 0 <= u < |a.tasks| && u != t ==> b.tasks[u] == a.tasks[u]
    requires Segment(b, c, t)
    ensures Segment(a, c, t)
  {
    EvolvesTransitive(a, b, c);
  }

  // ---------------------------------------------------------------- the building blocks

  lemma UpdateEvolves(s: State, k: nat, info: Socket, gain: map<Counter, nat>)
    requires k < |s.sockets| && !s.sockets[k].archived
    requires info.counts == s.sockets[k].counts && info.expires == s.sockets[k].expires
    requires s.sockets[k].id.Some? ==> info.id == s.sockets[k].id
    ensures Evolves(s, Update(s, k, info, gain))
  {
  }

  lemma UpdateSegment(s: State, t: nat, k: nat, info: Socket, gain: map<Counter, nat>, task: Task)
    requires k < |s.sockets| && t < |s.tasks| && !s.sockets[k].archived
    requires info.counts == s.sockets[k].counts && info.expires == s.sockets[k].expires
    requires s.sockets[k].id.Some? ==> info.id == s.sockets[k].id
    ensures var s' := SetTask(Update(s, k, info, gain), t, task);
            && Evolves(s, s') && s'.tasks == s.tasks[t := task] && (!task.Routing? ==> Segment(s, s', t))
            && |s'.sockets| == |s.sockets| && s'.sockets[k].archived == info.archived
  {
    UpdateEvolves(s, k, info, gain);
  }

  lemma RetiredSegment(s: State, t: nat, ws: nat, info: Socket, gain: map<Counter, nat>, after: Resume)
    requires ws < |s.sockets| && t < |s.tasks| && !s.sockets[ws].archived
    requires info.counts == s.sockets[ws].counts && info.expires == s.sockets[ws].expires && info.id == s.sockets[ws].id
    ensures Segment(s, Retired(s, t, ws, info, gain, after), t)
  {
    UpdateEvolves(s, ws, info.(archived := true, open := false), gain);
  }

  lemma FinishSegment(s: State, t: nat, ws: nat, after: Resume)
    requires ws < |s.sockets| && t < |s.tasks|
    ensures Segment(s, Finish(s, t, ws, after), t)
  {
    if !s.sockets[ws].archived {
      RetiredSegment(s, t, ws, s.sockets[ws], map[], after);
    }
  }

  lemma GoneEvolves(s: State, k: nat)
    requires k < |s.sockets| && !s.sockets[k].archived
    ensures var s1 := Sent(s, k, 33, Some(EndpointGone));
      Evolves(s, s1) && s1.tasks == s.tasks && |s1.sockets| == |s.sockets|
  {
    hide Evolves, SendGain;
    UpdateEvolves(s, k, s.sockets[k], SendGain(33, Some(EndpointGone)));
  }

  lemma {:induction false} AnnouncedEvolves(s: State, ws: nat, id: string, from: nat, reachable: set<nat>)
    requires from <= |s.sockets|
    ensures Evolves(s, Announced(s, ws, id, from, reachable)) && Announced(s, ws, id, from, reachable).tasks == s.tasks
    decreases |s.sockets| - from
  {
    hide Evolves, Sent;
    EvolvesInPlace(s, s);
    if from < |s.sockets| {
      if from != ws && HearsOf(s.sockets[from], id) && from in reachable {
        var s1 := Sent(s, from, 33, Some(EndpointGone));
        GoneEvolves(s, from);
        AnnouncedEvolves(s1, ws, id, from + 1, reachable);
        EvolvesTransitive(s, s1, Announced(s1, ws, id, from + 1, reachable));
      } else {
        AnnouncedEvolves(s, ws, id, from + 1, reachable);
      }
    }
  }

  // ---------------------------------------------------------------- route and webSocketMessage

  lemma ForwardedEvolves(s: State, ws: nat, target: nat, delivery: Delivery)
    requires ws < |s.sockets| && target < |s.sockets| && !s.sockets[ws].archived && !s.sockets[target].archived
    ensures var s1 := Sent(s, target, |delivery.output|, None);
            var s2 := s1.(delivered := s1.delivered + [delivery]);
            Evolves(s, Update(s2, ws, s2.sockets[ws], map[Forwarded := 1]))
  {
    var s1 := Sent(s, target, |delivery.output|, None);
    var s2 := s1.(delivered := s1.delivered + [delivery]);
    UpdateEvolves(s, target, s.sockets[target], SendGain(|delivery.output|, None));
    UpdateEvolves(s2, ws, s2.sockets[ws], map[Forwarded := 1]);
    EvolvesTransitive(s, s2, Update(s2, ws, s2.sockets[ws], map[Forwarded := 1]));
  }

  lemma RouteSegment(s: State, t: nat, env: Env)
    requires t < |s.tasks| && s.tasks[t].Routing? && s.tasks[t].ws < |s.sockets| && !s.sockets[s.tasks[t].ws].archived
    ensures Segment(s, Route(s, t, env), t)
  {
    var Routing(ws, destination, frame) := s.tasks[t];
    var info := s.sockets[ws];
    var p := FirstMatch(s.sockets, env.roster, ws, destination, true);
    if p == |env.roster| {
      UpdateEvolves(s, ws, info, map[Dropped := 1]);
    } else {
      var target := env.roster[p];
      if target in env.reachable && CanForward(info, frame) {
        var output := ForwardedFrame(frame, info.id.value);
        ForwardedEvolves(s, ws, target, Delivery(ws, target, frame, output, Routes(s.sockets, destination)));
      } else {
        RetiredSegment(s, t, target, s.sockets[target], map[], DropFor(ws));
      }
    }
  }

  lemma OnPingSegment(s: State, t: nat, ws: nat, next: Socket, gain: map<Counter, nat>, bytes: nat, env: Env)
    requires ws < |s.sockets| && t < |s.tasks| && !s.sockets[ws].archived && s.tasks[t] == Idle && !next.archived
    requires next.counts == s.sockets[ws].counts && next.expires == s.sockets[ws].expires && next.id == s.sockets[ws].id
    ensures var s1 := Update(s, ws, next, gain);
            Segment(s, if ws in env.reachable then Sent(s1, ws, bytes, Some(ServerPong))
                       else Finish(s1, t, ws, Done), t)
  {
    hide Evolves;
    var s1 := Update(s, ws, next, gain);
    UpdateEvolves(s, ws, next, gain);
    if ws in env.reachable {
      UpdateEvolves(s1, ws, s1.sockets[ws], SendGain(bytes, Some(ServerPong)));
      EvolvesTransitive(s, s1, Sent(s1, ws, bytes, Some(ServerPong)));
    } else {
      FinishSegment(s1, t, ws, Done);
      SegmentsJoin(s, s1, Finish(s1, t, ws, Done), t);
    }
  }

  lemma OnFrameSegment(s: State, t: nat, ws: nat, next: Socket, gain: map<Counter, nat>,
                       parsed: Option<ClientFrame>, env: Env)
    requires ws < |s.sockets| && t < |s.tasks| && !s.sockets[ws].archived && s.tasks[t] == Idle
    requires next.counts == s.sockets[ws].counts && next.expires == s.sockets[ws].expires && next.id == s.sockets[ws].id
    requires !next.archived
    ensures Segment(s, OnFrame(s, t, ws, next, gain, parsed, env), t)
  {
    hide Evolves, Route, Hex, Finish, Retired, Sent;
    match parsed
    case None => RetiredSegment(s, t, ws, next, gain, Done);
    case Some(PingFrame(frame)) =>
      OnPingSegment(s, t, ws, next, gain[Ping := 1], |frame|, env);
    case Some(PongFrame(frame)) =>
      if next.pendingPing != Some(Hex(Payload(frame))) {
        RetiredSegment(s, t, ws, next, gain[Pong := 1], Done);
      } else {
        UpdateSegment(s, t, ws, next.(pendingPing := None, deadline := None), gain[Pong := 1], Rearm(Done));
      }
    case Some(DatagramFrame(destination, frame)) =>
      var s1 := SetTask(Update(s, ws, next, gain[Datagram := 1]), t, Routing(ws, destination, frame));
      UpdateSegment(s, t, ws, next, gain[Datagram := 1], Routing(ws, destination, frame));
      RouteSegment(s1, t, env);
      SegmentsJoin(s, s1, Route(s1, t, env), t);
  }

  lemma OnMessageSegment(s0: State, ws: nat, message: Message, env: Env)
    requires ws < |s0.sockets|
    ensures Segment(Spawn(s0, Idle), OnMessage(s0, ws, message, env), |s0.tasks|)
  {
    hide OnFrame, Retired, Finish, OverBudget, MessageGain, Evolves, ParseClientFrame;
    var t := |s0.tasks|;
    var s := Spawn(s0, Idle);
    var info := s.sockets[ws];
    if info.archived || s.now >= info.expires || message.Text? {
      FinishSegment(s, t, ws, Done);
    } else {
      var next := Refilled(info, s.now);
      var gain := MessageGain(|message.bytes|);
      if OverBudget(next, gain) || info.phase == Verifying
         || (info.phase == Challenging && Past(info.deadline, s.now)) {
        RetiredSegment(s, t, ws, next, gain, Done);
      } else if info.phase == Challenging {
        UpdateSegment(s, t, ws, next.(phase := Verifying), gain, Verify(ws, message.bytes));
      } else {
        OnFrameSegment(s, t, ws, next, gain, ParseClientFrame(message.bytes), env);
      }
    }
  }

  // ---------------------------------------------------------------- authorize

  lemma GreetSegment(s: State, t: nat, ws: nat, env: Env)
    requires t < |s.tasks| && ws < |s.sockets|
    ensures Segment(s, Greet(s, t, ws, env), t)
  {
    if !s.sockets[ws].archived && ws in env.reachable {
      UpdateEvolves(s, ws, s.sockets[ws], SendGain(1, None));
    } else {
      FinishSegment(s, t, ws, Done);
    }
  }

  /** Retiring a rival and claiming its identity is one segment. */
  lemma SupersedeSegment(s: State, t: nat, rival: nat, rest: seq<nat>)
    requires t < |s.tasks| && s.tasks[t].Claim? && s.tasks[t].ws < |s.sockets| && rival < |s.sockets|
    requires rival != s.tasks[t].ws && !s.sockets[s.tasks[t].ws].archived && s.sockets[s.tasks[t].ws].id.None?
    requires !s.sockets[rival].archived
    ensures var Claim(ws, id, _) := s.tasks[t];
      Segment(s, Update(Retired(s, t, rival, s.sockets[rival], map[], ClaimRest(ws, id, rest)), ws,
                        Claimed(s.sockets[ws], id), map[Auth := 1]), t)
  {
    hide Evolves;
    var Claim(ws, id, _) := s.tasks[t];
    var s1 := Retired(s, t, rival, s.sockets[rival], map[], ClaimRest(ws, id, rest));
    RetiredSegment(s, t, rival, s.sockets[rival], map[], ClaimRest(ws, id, rest));
    UpdateEvolves(s1, ws, Claimed(s.sockets[ws], id), map[Auth := 1]);
    EvolvesTransitive(s, s1, Update(s1, ws, Claimed(s.sockets[ws], id), map[Auth := 1]));
  }

  /** So is claiming an identity nobody holds and greeting its owner. */
  lemma FirstClaimSegment(s: State, t: nat, env: Env)
    requires t < |s.tasks| && s.tasks[t].Claim? && s.tasks[t].ws < |s.sockets|
    requires !s.sockets[s.tasks[t].ws].archived && s.sockets[s.tasks[t].ws].id.None?
    ensures var Claim(ws, id, _) := s.tasks[t];
      var s1 := SetTask(Update(s, ws, Claimed(s.sockets[ws], id), map[Auth := 1]), t, Continue(ClaimRest(ws, id, [])));
      Segment(s, Greet(s1, t, ws, env), t)
  {
    hide Evolves, Greet;
    var Claim(ws, id, _) := s.tasks[t];
    var s1 := SetTask(Update(s, ws, Claimed(s.sockets[ws], id), map[Auth := 1]), t, Continue(ClaimRest(ws, id, [])));
    UpdateSegment(s, t, ws, Claimed(s.sockets[ws], id), map[Auth := 1], Continue(ClaimRest(ws, id, [])));
    GreetSegment(s1, t, ws, env);
    SegmentsJoin(s, s1, Greet(s1, t, ws, env), t);
  }

  lemma ClaimRouteSegment(s: State, t: nat, env: Env)
    requires t < |s.tasks| && s.tasks[t].Claim? && s.tasks[t].ws < |s.sockets|
    requires s.sockets[s.tasks[t].ws].id.None? || s.sockets[s.tasks[t].ws].archived
    ensures Segment(s, ClaimRoute(s, t, env), t)
  {
    hide Evolves, Greet, Retired, Update, Claimed, Finish;
    var Claim(ws, id, allowed) := s.tasks[t];
    var info := s.sockets[ws];
    if !allowed || info.archived || Past(info.deadline, s.now) || s.now >= info.expires {
      FinishSegment(s, t, ws, Done);
    } else {
      var p := FirstMatch(s.sockets, env.roster, ws, id, false);
      if p < |env.roster| {
        SupersedeSegment(s, t, env.roster[p], env.roster[p + 1..]);
      } else {
        FirstClaimSegment(s, t, env);
      }
    }
  }

  lemma ClaimOnSegment(s: State, t: nat, ws: nat, id: string, rest: seq<nat>, env: Env)
    requires t < |s.tasks| && ws < |s.sockets|
    ensures Segment(s, ClaimOn(s, t, ws, id, rest, env), t)
  {
    var p := FirstMatch(s.sockets, rest, ws, id, false);
    if p < |rest| {
      RetiredSegment(s, t, rest[p], s.sockets[rest[p]], map[], ClaimRest(ws, id, rest[p + 1..]));
    } else {
      GreetSegment(s, t, ws, env);
    }
  }

  // ---------------------------------------------------------------- alarm

  lemma PingSentSegment(s: State, t: nat, k: nat, later: Resume, env: Env)
    requires t < |s.tasks| && k < |s.sockets| && !s.sockets[k].archived
    requires s.tasks[t] == Continue(later) && later.SweepRest?
    ensures Segment(s, PingSent(s, t, k, later, env), t)
  {
    hide Evolves;
    var info := Pinged(s.sockets[k], later.now, PingFor(env, k));
    var s1 := Update(s, k, info, map[]);
    UpdateEvolves(s, k, info, map[]);
    if k in env.reachable {
      UpdateEvolves(s1, k, s1.sockets[k], SendGain(9, Some(ServerPing)));
      EvolvesTransitive(s, s1, Sent(s1, k, 9, Some(ServerPing)));
    } else {
      FinishSegment(s1, t, k, later);
      SegmentsJoin(s, s1, Finish(s1, t, k, later), t);
    }
  }

  lemma VisitSegment(s: State, t: nat, env: Env)
    requires t < |s.tasks| && s.tasks[t].Continue? && s.tasks[t].after.SweepRest? && s.tasks[t].after.left != []
    ensures Segment(s, Visit(s, t, env), t)
  {
    var after := s.tasks[t].after;
    var k := after.left[0];
    var later := after.(left := after.left[1..]);
    hide Evolves, TimedOut, WantsPing, PingSent;
    EvolvesInPlace(s, SetTask(s, t, Continue(later)));
    if k >= |s.sockets| || s.sockets[k].archived {
    } else if TimedOut(s.sockets[k], after.now) {
      RetiredSegment(s, t, k, s.sockets[k], map[], later);
    } else if WantsPing(s.sockets[k], after.pingDue) {
      var s0 := SetTask(s, t, Continue(later));
      PingSentSegment(s0, t, k, later, env);
      SegmentsJoin(s, s0, PingSent(s0, t, k, later, env), t);
    }
  }

  lemma {:induction false} SweepSegment(s: State, t: nat, env: Env)
    requires t < |s.tasks| && s.tasks[t].Continue? && s.tasks[t].after.SweepRest?
    ensures Segment(s, Sweep(s, t, env), t)
    decreases |s.tasks[t].after.left|
  {
    hide Visit;
    if s.tasks[t].after.left == [] {
    } else {
      VisitSegment(s, t, env);
      var s1 := Visit(s, t, env);
      if s1.tasks[t].Continue? {
        SweepSegment(s1, t, env);
        SegmentsJoin(s, s1, Sweep(s1, t, env), t);
      }
    }
  }

  lemma ResumedSegment(s: State, t: nat, env: Env)
    requires t < |s.tasks| && s.tasks[t].Continue?
    ensures Segment(s, Resumed(s, t, env), t)
  {
    hide Sweep, ClaimOn;
    match s.tasks[t].after
    case Done =>
    case Swept(_) =>
    case ClaimRest(ws, id, rest) =>
      if ws < |s.sockets| {
        ClaimOnSegment(s, t, ws, id, rest, env);
      }
    case DropFor(ws) =>
      if ws < |s.sockets| && !s.sockets[ws].archived {
        UpdateEvolves(s, ws, s.sockets[ws], map[Dropped := 1]);
      }
    case SweepRest(_, _, _, _) => SweepSegment(s, t, env);
  }

  lemma AlarmBegunSegment(s: State, t: nat, env: Env)
    requires t < |s.tasks| && s.tasks[t].RunAlarm?
    ensures Segment(s, AlarmBegun(s, t, env), t)
  {
    hide Sweep;
    var meta := s.tasks[t].loaded.(alarmEvents := s.tasks[t].loaded.alarmEvents + 1);
    if s.now < meta.expires + HOUR {
      var pingDue := meta.nextPing.Some? && s.now >= meta.nextPing.value;
      var s1 := SetTask(s, t, Continue(SweepRest(meta, s.now, pingDue, env.roster)));
      SweepSegment(s1, t, env);
      SegmentsJoin(s, s1, Sweep(s1, t, env), t);
    }
  }

  // ---------------------------------------------------------------- any task

  lemma RunSegment(s: State, t: nat, env: Env)
    requires t < |s.tasks| && !s.tasks[t].Routing?
    requires s.tasks[t].Claim? && s.tasks[t].ws < |s.sockets| ==> s.sockets[s.tasks[t].ws].id.None?
    ensures Segment(s, Run(s, t, env), t)
  {
    hide ClaimRoute, Resumed, AlarmBegun, Finish, Identified, Commit, Announced, Armed, Evolves;
    match s.tasks[t]
    case Idle => EvolvesInPlace(s, s);
    case Verify(ws, frame) =>
      if env.verified && AuthenticationShape(frame) {
        EvolvesInPlace(s, Run(s, t, env));
      } else if ws < |s.sockets| {
        FinishSegment(s, t, ws, Done);
      } else {
        EvolvesInPlace(s, s);
      }
    case Identify(_, _) => IdentifiedSegment(s, t);
    case Claim(ws, _, _) =>
      if ws < |s.sockets| {
        ClaimRouteSegment(s, t, env);
      } else {
        EvolvesInPlace(s, s);
      }
    case Retire(_, _, _, _) => CommitSegment(s, t);
    case Announce(ws, id, after) =>
      var s1 := SetTask(s, t, Rearm(after));
      EvolvesInPlace(s, s1);
      if id.Some? {
        AnnouncedEvolves(s1, ws, id.value, 0, env.reachable);
        EvolvesTransitive(s, s1, Announced(s1, ws, id.value, 0, env.reachable));
      }
    case Rearm(after) =>
      ArmedEvolves(s);
      EvolvesInPlace(Armed(s), Run(s, t, env));
      EvolvesTransitive(s, Armed(s), Run(s, t, env));
    case Continue(_) => ResumedSegment(s, t, env);
    case ReadMeta(_) => EvolvesInPlace(s, Run(s, t, env));
    case StorePing(ws, copy) => StoreSegment(s, t, env);
    case ReadAlarm => EvolvesInPlace(s, Run(s, t, env));
    case RunAlarm(_) => AlarmBegunSegment(s, t, env);
  }

  lemma IdentifiedSegment(s: State, t: nat)
    requires t < |s.tasks| && s.tasks[t].Identify?
    ensures Segment(s, Identified(s, t), t)
  {
    hide Evolves;
    EvolvesInPlace(s, Identified(s, t));
  }

  lemma CommitSegment(s: State, t: nat)
    requires t < |s.tasks| && s.tasks[t].Retire?
    ensures Segment(s, Commit(s, t), t)
  {
    hide Evolves;
    EvolvesInPlace(s, Commit(s, t));
  }

  lemma StoreSegment(s: State, t: nat, env: Env)
    requires t < |s.tasks| && s.tasks[t].StorePing?
    ensures Segment(s, Run(s, t, env), t)
  {
    hide Evolves, Finish;
    if s.tasks[t].ws < |s.sockets| && s.tasks[t].copy.None? {
      FinishSegment(s, t, s.tasks[t].ws, Done);
    } else {
      EvolvesInPlace(s, Run(s, t, env));
    }
  }

  lemma ArmedEvolves(s: State)
    ensures Evolves(s, Armed(s)) && Armed(s).tasks == s.tasks
  {
  }
}
