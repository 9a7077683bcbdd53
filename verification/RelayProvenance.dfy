/**
 * Where the identity of a socket comes from, over whole runs: from the key in the first message
 * of its own session, after a signature under that key has been found valid.
 */
module RelayProvenance {
  import opened Base
  import RelayMetrics
  import opened RelayProtocol
  import opened RelayModel
  import opened RelayInvariant
  import opened RelayTasks
  import opened RelayTheorems
  import opened RelayEvolution
  import opened RelayLaws
  import opened RelayIdentity
  import opened RelayTimers

  // ---------------------------------------------------------------- one event

  /** The event is the first message of a session still being challenged. */
  ghost predicate Begins(s: State, e: Event, ws: nat, frame: seq<byte>) {
    && e.Receive? && e.ws == ws && e.message == Binary(frame)
    && ws < |s.sockets| && s.sockets[ws].phase == Challenging
  }

  /** The event resumes a handler with the frame of its session found valid: 98 bytes with the key in bytes 1 to 32. */
  ghost predicate Proves(s: State, e: Event, ws: nat, frame: seq<byte>, id: string) {
    && e.Advance? && e.env.verified && e.task < |s.tasks| && s.tasks[e.task] == Verify(ws, frame)
    && IsAuthentication(frame) && IsHex(id) && Pairs(id) == frame[1..33]
  }

  /** No attachment gets an identity. */
  ghost predicate SameIds(s: State, r: State) {
    && |s.sockets| <= |r.sockets|
    && (forall k :: 0 <= k < |s.sockets| ==> r.sockets[k].id == s.sockets[k].id)
    && forall k :: |s.sockets| <= k < |r.sockets| ==> r.sockets[k].id.None?
  }

  predicate Handles(task: Task) {
    task.Verify? || task.Identify? || task.Claim?
  }

  /** Whatever this event leaves in progress or authenticated was so before, or comes from the step before it. */
  ghost predicate Sourced(s: State, e: Event, r: State) {
    && (forall u :: 0 <= u < |r.tasks| && Handles(r.tasks[u]) && !(u < |s.tasks| && r.tasks[u] == s.tasks[u]) ==>
          match r.tasks[u]
          case Verify(ws, frame) => Begins(s, e, ws, frame)
          case Identify(ws, id) => exists frame :: Proves(s, e, ws, frame, id)
          case Claim(ws, id, _) => u < |s.tasks| && s.tasks[u] == Identify(ws, id)
          case _ => true)
    && (forall k :: 0 <= k < |r.sockets| && r.sockets[k].id.Some?
                    && !(k < |s.sockets| && r.sockets[k].id == s.sockets[k].id) ==>
          exists t, allowed :: 0 <= t < |s.tasks| && s.tasks[t] == Claim(k, r.sockets[k].id.value, allowed))
  }

  lemma SameIdsSourced(s: State, e: Event, r: State)
    requires SameIds(s, r)
    requires forall u :: 0 <= u < |r.tasks| && Handles(r.tasks[u]) ==> u < |s.tasks| && r.tasks[u] == s.tasks[u]
    ensures Sourced(s, e, r)
  {
  }

  lemma OneTask(s: State, e: Event, r: State, t: nat)
    requires t < |s.tasks| && SameIds(s, r) && |r.tasks| == |s.tasks| && r.tasks == s.tasks[t := r.tasks[t]]
    requires !Handles(r.tasks[t])
    ensures Sourced(s, e, r)
  {
  }

  lemma FinishedIds(s: State, r: State, t: nat, ws: nat, after: Resume)
    requires t < |s.tasks| && ws < |s.sockets| && Finishes(s, r, t, ws, after)
    ensures SameIds(s, r) && |r.tasks| == |s.tasks| && r.tasks == s.tasks[t := r.tasks[t]] && !Handles(r.tasks[t])
  {
    hide Rises;
    assert forall k :: 0 <= k < |s.sockets| && k != ws ==> r.sockets[k].id == s.sockets[k].id;
  }

  /** A handler is added, and it does not authenticate anybody. */
  lemma MoreTasks(s: State, e: Event, r: State, task: Task)
    requires SameIds(s, r) && r.tasks == s.tasks + [task] && !Handles(task)
    ensures Sourced(s, e, r)
  {
    assert forall u :: 0 <= u < |s.tasks| ==> r.tasks[u] == s.tasks[u];
  }

  lemma OnlySocketsIds(s: State, r: State, j: nat, k: nat)
    requires j < |s.sockets| && k < |s.sockets| && OnlySockets(s, r, {j, k})
    requires r.sockets[j].id == s.sockets[j].id && r.sockets[k].id == s.sockets[k].id
    ensures SameIds(s, r)
  {
    assert forall i :: 0 <= i < |s.sockets| && i != j && i != k ==> r.sockets[i] == s.sockets[i];
  }

  lemma OneSocketIds(s: State, r: State, j: nat)
    requires j < |s.sockets| && OnlySockets(s, r, {j}) && r.sockets[j].id == s.sockets[j].id
    ensures SameIds(s, r)
  {
    assert forall i :: 0 <= i < |s.sockets| && i != j ==> r.sockets[i] == s.sockets[i];
  }

  lemma BookedId(was: Socket, next: Socket, gain: map<RelayMetrics.Counter, nat>)
    ensures Booked(was, next, gain) || Over(was, next, gain) ==> next.id == was.id
  {
  }

  // ---------------------------------------------------------------- messages

  lemma EndsSourced(s: State, e: Event, r: State, ws: nat, gain: map<RelayMetrics.Counter, nat>)
    requires ws < |s.sockets| && SessionEnds(s, r, ws, gain)
    ensures Sourced(s, e, r)
  {
    hide Rises, Sourced, SameIds;
    OneSocketIds(s, r, ws);
    MoreTasks(s, e, r, Retire(ws, r.sockets[ws].counts, s.sockets[ws].id, Done));
  }

  lemma TakenSourced(s: State, e: Event, r: State, ws: nat)
    requires ws < |s.sockets| && (IsAnswered(s, r, ws) || IsCleared(s, r, ws))
    ensures Sourced(s, e, r)
  {
    hide Rises, Sourced, SameIds;
    OneSocketIds(s, r, ws);
    MoreTasks(s, e, r, if IsAnswered(s, r, ws) then Idle else Rearm(Done));
  }

  lemma VerifiedSourced(s: State, e: Event, r: State, ws: nat, frame: seq<byte>)
    requires ws < |s.sockets| && IsVerified(s, r, ws, frame) && Begins(s, e, ws, frame)
    ensures Sourced(s, e, r)
  {
    hide Rises, OnlySockets, Begins;
    assert SameIds(s, r) by {
      OneSocketIds(s, r, ws);
    }
    assert forall u :: 0 <= u < |s.tasks| ==> r.tasks[u] == s.tasks[u];
  }

  lemma RoutedSourced(s: State, ws: nat, frame: seq<byte>, env: Env)
    requires Inv(s) && Enabled(s, Receive(ws, Binary(frame), env))
    requires MaySend(s.sockets[ws], s.now, |frame|) && IsData(frame)
    ensures Sourced(s, Receive(ws, Binary(frame), env), Next(s, Receive(ws, Binary(frame), env)))
  {
    hide Inv, Next, Enabled, MaySend, IsHolder, Sourced, IsForwardedTo, EndsHolder, IsDropped;
    var e := Receive(ws, Binary(frame), env);
    var r, key := Next(s, e), frame[1..33];
    EnabledSender(s, ws, Binary(frame), env);
    DatagramIsRouted(s, ws, frame, env);
    if k: nat :| k != ws && IsHolder(s, k, key) {
      HolderIsListed(s, k, key);
      HeldSourced(s, e, r, ws, k, frame);
    } else {
      DroppedSourced(s, e, r, ws, frame);
    }
  }

  lemma HeldSourced(s: State, e: Event, r: State, ws: nat, k: nat, frame: seq<byte>)
    requires ws < |s.sockets| && k < |s.sockets|
    requires IsForwardedTo(s, r, ws, k, frame) || EndsHolder(s, r, ws, k, frame)
    ensures Sourced(s, e, r)
  {
    hide Rises, HandedOver, Sourced, SameIds;
    OnlySocketsIds(s, r, ws, k);
    MoreTasks(s, e, r, r.tasks[|s.tasks|]);
  }

  lemma DroppedSourced(s: State, e: Event, r: State, ws: nat, frame: seq<byte>)
    requires ws < |s.sockets| && IsDropped(s, r, ws, frame)
    ensures Sourced(s, e, r)
  {
    hide Rises, Sourced, SameIds;
    OneSocketIds(s, r, ws);
    MoreTasks(s, e, r, Idle);
  }

  lemma EnabledSender(s: State, ws: nat, message: Message, env: Env)
    requires Enabled(s, Receive(ws, message, env))
    ensures ws < |s.sockets| && Next(s, Receive(ws, message, env)) == OnMessage(s, ws, message, env)
  {
  }

  lemma ReceivedSourced(s: State, ws: nat, message: Message, env: Env)
    requires Inv(s) && Enabled(s, Receive(ws, message, env))
    ensures Sourced(s, Receive(ws, message, env), Next(s, Receive(ws, message, env)))
  {
    hide Inv, Next, Enabled, MaySend, Sourced, SessionEnds, IsAnswered, IsCleared, IsVerified, LastGain, IsData;
    hide IsPing, IsPong;
    var e := Receive(ws, message, env);
    EnabledSender(s, ws, message, env);
    var r, info := Next(s, e), s.sockets[ws];
    MessageIsHandled(s, ws, message, env);
    if info.archived {
      MoreTasks(s, e, r, Continue(Done));
    } else if EndsSession(info, s.now, message, ws in env.reachable) {
      EndsSourced(s, e, r, ws, LastGain(info, s.now, message));
    } else if info.phase == Challenging {
      VerifiedSourced(s, e, r, ws, message.bytes);
    } else if IsPing(message.bytes) || IsPong(message.bytes) {
      TakenSourced(s, e, r, ws);
    } else {
      RoutedSourced(s, ws, message.bytes, env);
    }
  }

  // ---------------------------------------------------------------- resumed handlers

  lemma FinishedSourced(s: State, e: Event, r: State, t: nat, ws: nat, after: Resume)
    requires t < |s.tasks| && ws < |s.sockets| && Finishes(s, r, t, ws, after)
    ensures Sourced(s, e, r)
  {
    hide Finishes, Sourced, SameIds;
    FinishedIds(s, r, t, ws, after);
    OneTask(s, e, r, t);
  }

  lemma VerifySourced(s: State, t: nat, env: Env)
    requires Inv(s) && Enabled(s, Advance(t, env)) && s.tasks[t].Verify?
    ensures Sourced(s, Advance(t, env), Next(s, Advance(t, env)))
  {
    hide Inv, Next, Finishes, IsRoster, Pairs, IsHex;
    var Verify(ws, frame) := s.tasks[t];
    var e := Advance(t, env);
    VerificationResumes(s, t, env);
    if env.verified && IsAuthentication(frame) {
      var id :| IsHex(id) && Pairs(id) == frame[1..33] && Next(s, e) == s.(tasks := s.tasks[t := Identify(ws, id)]);
      assert Proves(s, e, ws, frame, id);
    } else {
      FinishedSourced(s, e, Next(s, e), t, ws, Done);
    }
  }

  lemma IdentifySourced(s: State, t: nat, env: Env)
    requires Enabled(s, Advance(t, env)) && s.tasks[t].Identify?
    ensures Sourced(s, Advance(t, env), Next(s, Advance(t, env)))
  {
    hide Next, IsRoster;
    TransactionAdmits(s, t, env);
  }

  lemma ClaimSourced(s: State, t: nat, env: Env)
    requires Inv(s) && Enabled(s, Advance(t, env)) && s.tasks[t].Claim?
    ensures Sourced(s, Advance(t, env), Next(s, Advance(t, env)))
  {
    hide Inv, Next, Finishes, TakesOver, Welcomes, IsRoster, IsRival, Sourced;
    var Claim(ws, id, allowed) := s.tasks[t];
    var r, e := Next(s, Advance(t, env)), Advance(t, env);
    ClaimIsDecided(s, t, env);
    if !InTime(s.sockets[ws], s.now, allowed) {
      FinishedSourced(s, e, r, t, ws, Done);
    } else if k: nat :| IsRival(s, k, ws, id, env.roster) {
      RivalIsThere(s, k, ws, id, env.roster);
      TakeOverSourced(s, e, r, t, ws, id, k);
    } else {
      WelcomeSourced(s, e, r, t, ws, id, ws in env.reachable);
    }
  }

  lemma RivalIsThere(s: State, k: nat, ws: nat, id: string, list: seq<nat>)
    requires IsRival(s, k, ws, id, list)
    ensures k < |s.sockets| && k != ws
  {
  }

  lemma TakeOverSourced(s: State, e: Event, r: State, t: nat, ws: nat, id: string, k: nat)
    requires t < |s.tasks| && ws < |s.sockets| && k < |s.sockets| && k != ws
    requires s.tasks[t].Claim? && s.tasks[t].ws == ws && s.tasks[t].claimant == id
    requires TakesOver(s, r, t, ws, id, k)
    ensures Sourced(s, e, r)
  {
    hide Rises;
    assert s.tasks[t] == Claim(ws, id, s.tasks[t].allowed);
    assert forall i :: 0 <= i < |s.sockets| && i != ws && i != k ==> r.sockets[i] == s.sockets[i];
  }

  lemma WelcomeSourced(s: State, e: Event, r: State, t: nat, ws: nat, id: string, reachable: bool)
    requires t < |s.tasks| && ws < |s.sockets|
    requires s.tasks[t].Claim? && s.tasks[t].ws == ws && s.tasks[t].claimant == id
    requires Welcomes(s, r, t, ws, id, reachable)
    ensures Sourced(s, e, r)
  {
    hide Rises;
    assert s.tasks[t] == Claim(ws, id, s.tasks[t].allowed);
    assert forall i :: 0 <= i < |s.sockets| && i != ws ==> r.sockets[i] == s.sockets[i];
  }

  lemma SweepSourced(s: State, e: Event, r: State, t: nat, after: Resume, m: nat, env: Env)
    requires after.SweepRest? && Sweeps(s, r, t, after, m, env)
    ensures Sourced(s, e, r)
  {
    hide IsVisited, Sourced, SameIds, HaveBeenVisited;
    VisitsKeepIds(s, r, after.left[..m], after.now, after.pingDue, env);
    SameLength(s, r);
    OneTask(s, e, r, t);
  }

  lemma SameLength(s: State, r: State)
    requires |r.sockets| == |s.sockets| && forall k :: 0 <= k < |s.sockets| ==> r.sockets[k].id == s.sockets[k].id
    ensures SameIds(s, r)
  {
  }

  lemma ContinueSourced(s: State, t: nat, env: Env)
    requires Inv(s) && Enabled(s, Advance(t, env)) && s.tasks[t].Continue?
    ensures Sourced(s, Advance(t, env), Next(s, Advance(t, env)))
  {
    hide Inv, Finishes, Greets, Sweeps, Sweep, ClaimOn, DroppedLate, IsRoster, IsRival, Sourced, SameIds;
    var r, e := Next(s, Advance(t, env)), Advance(t, env);
    match s.tasks[t].after
    case Done => UntouchedSourced(s, e, r, t, Idle);
    case Swept(_) => UntouchedSourced(s, e, r, t, Idle);
    case ClaimRest(ws, id, rest) =>
      ClaimGoesOn(s, t, env);
      if k: nat :| IsRival(s, k, ws, id, rest) {
        RivalIsThere(s, k, ws, id, rest);
        var more :| Finishes(s, r, t, k, ClaimRest(ws, id, more));
        FinishedSourced(s, e, r, t, k, ClaimRest(ws, id, more));
      } else {
        GreetedSourced(s, e, r, t, ws, ws in env.reachable);
      }
    case DropFor(ws) => DropSourced(s, t, env);
    case SweepRest(_, _, _, _) =>
      AlarmGoesOn(s, t, env);
      var m: nat :| Sweeps(s, r, t, s.tasks[t].after, m, env);
      SweepSourced(s, e, r, t, s.tasks[t].after, m, env);
  }

  /** A step that leaves the attachments alone. */
  lemma UntouchedSourced(s: State, e: Event, r: State, t: nat, task: Task)
    requires t < |s.tasks| && r.sockets == s.sockets && r.tasks == s.tasks[t := task] && !Handles(task)
    ensures Sourced(s, e, r)
  {
    hide Sourced;
    OneTask(s, e, r, t);
  }

  lemma GreetedSourced(s: State, e: Event, r: State, t: nat, ws: nat, reachable: bool)
    requires t < |s.tasks| && ws < |s.sockets| && Greets(s, r, t, ws, reachable)
    ensures Sourced(s, e, r)
  {
    hide Rises, Sourced, SameIds, Finishes;
    if !s.sockets[ws].archived && reachable {
      OneSocketIds(s, r, ws);
      OneTask(s, e, r, t);
    } else {
      FinishedSourced(s, e, r, t, ws, Done);
    }
  }

  lemma DropSourced(s: State, t: nat, env: Env)
    requires Inv(s) && Enabled(s, Advance(t, env)) && s.tasks[t].Continue? && s.tasks[t].after.DropFor?
    ensures Sourced(s, Advance(t, env), Next(s, Advance(t, env)))
  {
    hide Inv, Next, IsRoster, Rises, Sourced, SameIds;
    TaskRefers(s, t);
    LateDropIsBooked(s, t, env);
    OneSocketIds(s, Next(s, Advance(t, env)), s.tasks[t].after.ws);
    OneTask(s, Advance(t, env), Next(s, Advance(t, env)), t);
  }

  lemma ToldSourced(s: State, e: Event, r: State, t: nat, ws: nat, id: string, after: Resume, reachable: set<nat>)
    requires t < |s.tasks| && Told(s.(tasks := s.tasks[t := Rearm(after)]), r, ws, id, 0, reachable)
    ensures Sourced(s, e, r)
  {
    hide Rises, Sourced, IsTold;
    assert forall k :: 0 <= k < |s.sockets| ==> r.sockets[k].id == s.sockets[k].id;
    OneTask(s, e, r, t);
  }

  lemma OthersSourced(s: State, t: nat, env: Env)
    requires Inv(s) && Enabled(s, Advance(t, env))
    requires !Handles(s.tasks[t]) && !s.tasks[t].Continue? && !s.tasks[t].RunAlarm?
    ensures Sourced(s, Advance(t, env), Next(s, Advance(t, env)))
  {
    hide Inv, Next, IsRoster, Sourced, SameIds, Told, Finishes, IsDueTime;
    var r, e := Next(s, Advance(t, env)), Advance(t, env);
    match s.tasks[t]
    case Retire(ws, counts, id, after) =>
      ClosingIsBooked(s, t, env);
      UntouchedSourced(s, e, r, t, Announce(ws, id, after));
    case Announce(ws, id, after) =>
      EndIsTold(s, t, env);
      if id.None? {
        UntouchedSourced(s, e, r, t, Rearm(after));
      } else {
        ToldSourced(s, e, r, t, ws, id.value, after, env.reachable);
      }
    case Rearm(after) =>
      AlarmIsSet(s, t, env);
      UntouchedSourced(s, e, r, t, Continue(after));
    case ReadMeta(ws) =>
      FirstPingIsSet(s, t, env);
      UntouchedSourced(s, e, r, t, StorePing(ws, s.meta));
    case StorePing(ws, copy) =>
      FirstPingIsSet(s, t, env);
      if copy.None? {
        FinishedSourced(s, e, r, t, ws, Done);
      } else {
        UntouchedSourced(s, e, r, t, Rearm(Done));
      }
    case ReadAlarm =>
      AlarmBegins(s, t, env);
      UntouchedSourced(s, e, r, t, if s.meta.Some? then RunAlarm(s.meta.value) else Idle);
    case _ => IdleSourced(s, t, env);
  }

  lemma IdleSourced(s: State, t: nat, env: Env)
    requires Enabled(s, Advance(t, env)) && (s.tasks[t].Idle? || s.tasks[t].Routing?)
    ensures Sourced(s, Advance(t, env), Next(s, Advance(t, env)))
  {
    hide IsRoster;
    SameIdsSourced(s, Advance(t, env), s);
  }

  lemma AlarmSourced(s: State, t: nat, env: Env)
    requires Enabled(s, Advance(t, env)) && s.tasks[t].RunAlarm?
    ensures Sourced(s, Advance(t, env), Next(s, Advance(t, env)))
  {
    hide Next, IsRoster, Sourced, Sweeps, WholeLoop;
    var r, e, loaded := Next(s, Advance(t, env)), Advance(t, env), s.tasks[t].loaded;
    AlarmIsRun(s, t, env);
    if s.now >= loaded.expires + 3_600_000 {
      UntouchedSourced(s, e, r, t, Idle);
    } else {
      var m: nat :| Sweeps(s, r, t, WholeLoop(loaded, s.now, env.roster), m, env);
      SweepSourced(s, e, r, t, WholeLoop(loaded, s.now, env.roster), m, env);
    }
  }

  lemma NextSourced(s: State, e: Event)
    requires Inv(s) && Enabled(s, e)
    ensures Sourced(s, e, Next(s, e))
  {
    hide Inv, Enabled, Sourced, SessionEnds, MayJoin, IsChallenged, Fetch, OnMessage, RelayModel.Run, Finish;
    var r := Next(s, e);
    match e
    case Receive(ws, message, env) => ReceivedSourced(s, ws, message, env);
    case Upgrade(ping) => JoinSourced(s, ping);
    case PeerClosed(ws) => ClosedSourced(s, ws);
    case Advance(t, env) =>
      AdvanceEnabled(s, t, env);
      if s.tasks[t].Verify? {
        VerifySourced(s, t, env);
      } else if s.tasks[t].Identify? {
        IdentifySourced(s, t, env);
      } else if s.tasks[t].Claim? {
        ClaimSourced(s, t, env);
      } else if s.tasks[t].Continue? {
        ContinueSourced(s, t, env);
      } else if s.tasks[t].RunAlarm? {
        AlarmSourced(s, t, env);
      } else {
        OthersSourced(s, t, env);
      }
    case _ => PlatformSourced(s, e);
  }

  lemma AdvanceEnabled(s: State, t: nat, env: Env)
    requires Enabled(s, Advance(t, env))
    ensures t < |s.tasks|
  {
  }

  lemma JoinSourced(s: State, ping: int)
    ensures Sourced(s, Upgrade(ping), Next(s, Upgrade(ping)))
  {
    hide Next, MayJoin, Sourced, IsChallenged, SameIds;
    var r := Next(s, Upgrade(ping));
    UpgradeIsDecided(s, ping);
    if MayJoin(s, ping) {
      NewcomerIds(s, r);
      MoreTasks(s, Upgrade(ping), r, Rearm(Done));
    } else {
      SameIdsSourced(s, Upgrade(ping), s);
    }
  }

  lemma NewcomerIds(s: State, r: State)
    requires |r.sockets| == |s.sockets| + 1 && r.sockets[..|s.sockets|] == s.sockets
    requires IsChallenged(s, r.sockets[|s.sockets|])
    ensures SameIds(s, r)
  {
    assert forall k :: 0 <= k < |s.sockets| ==> r.sockets[k] == r.sockets[..|s.sockets|][k];
  }

  lemma ClosedSourced(s: State, ws: nat)
    requires Enabled(s, PeerClosed(ws))
    ensures Sourced(s, PeerClosed(ws), Next(s, PeerClosed(ws)))
  {
    hide Next, Sourced, SessionEnds;
    ClosureEnds(s, ws);
    if s.sockets[ws].archived {
      MoreTasks(s, PeerClosed(ws), Next(s, PeerClosed(ws)), Continue(Done));
    } else {
      EndsSourced(s, PeerClosed(ws), Next(s, PeerClosed(ws)), ws, map[]);
    }
  }

  lemma PlatformSourced(s: State, e: Event)
    requires Enabled(s, e) && (e.Tick? || e.PeerClosing? || e.Departs? || e.AlarmFires?)
    ensures Sourced(s, e, Next(s, e))
  {
    hide Sourced, InAlarm;
    if e == AlarmFires {
      MoreTasks(s, e, Next(s, e), ReadAlarm);
    } else {
      SameIdsSourced(s, e, Next(s, e));
    }
  }

  // ---------------------------------------------------------------- whole runs

  /** Earlier in the run, this was the first message of the session. */
  ghost predicate Sent(run: seq<State>, events: seq<Event>, i: nat, ws: nat, frame: seq<byte>)
    requires |run| == |events| + 1 && i < |run|
  {
    exists j :: 0 <= j < i && Begins(run[j], events[j], ws, frame)
  }

  /** Earlier in the run, a frame of the session was found valid, and it carries the key this identity spells. */
  ghost predicate Proven(run: seq<State>, events: seq<Event>, i: nat, ws: nat, id: string)
    requires |run| == |events| + 1 && i < |run|
  {
    exists j, frame :: 0 <= j < i && Proves(run[j], events[j], ws, frame, id) && Sent(run, events, j, ws, frame)
  }

  ghost predicate AllProven(run: seq<State>, events: seq<Event>, i: nat)
    requires |run| == |events| + 1 && i < |run|
  {
    && (forall t :: 0 <= t < |run[i].tasks| ==>
          match run[i].tasks[t]
          case Verify(ws, frame) => Sent(run, events, i, ws, frame)
          case Identify(ws, id) => Proven(run, events, i, ws, id)
          case Claim(ws, id, _) => Proven(run, events, i, ws, id)
          case _ => true)
    && (forall k :: 0 <= k < |run[i].sockets| && run[i].sockets[k].id.Some? ==>
          Proven(run, events, i, k, run[i].sockets[k].id.value))
  }

  lemma StaysProven(run: seq<State>, events: seq<Event>, i: nat)
    requires |run| == |events| + 1 && i < |events|
    ensures forall ws, frame :: Sent(run, events, i, ws, frame) ==> Sent(run, events, i + 1, ws, frame)
    ensures forall ws, id :: Proven(run, events, i, ws, id) ==> Proven(run, events, i + 1, ws, id)
  {
    hide Begins, Proves;
  }

  lemma OneMoreProven(run: seq<State>, events: seq<Event>, i: nat)
    requires |run| == |events| + 1 && i < |events|
    requires AllProven(run, events, i) && Sourced(run[i], events[i], run[i + 1])
    ensures AllProven(run, events, i + 1)
  {
    hide Sent, Proven, Begins, Proves;
    var s, e, r := run[i], events[i], run[i + 1];
    StaysProven(run, events, i);
    forall t | 0 <= t < |r.tasks| && Handles(r.tasks[t]) && !(t < |s.tasks| && r.tasks[t] == s.tasks[t])
      ensures match r.tasks[t]
              case Verify(ws, frame) => Sent(run, events, i + 1, ws, frame)
              case Identify(ws, id) => Proven(run, events, i + 1, ws, id)
              case Claim(ws, id, _) => Proven(run, events, i + 1, ws, id)
              case _ => true
    {
      match r.tasks[t]
      case Verify(ws, frame) => NowSent(run, events, i, ws, frame);
      case Identify(ws, id) =>
        var frame :| Proves(s, e, ws, frame, id);
        NowProven(run, events, i, ws, frame, id);
      case _ =>
    }
  }

  lemma NowSent(run: seq<State>, events: seq<Event>, i: nat, ws: nat, frame: seq<byte>)
    requires |run| == |events| + 1 && i < |events| && Begins(run[i], events[i], ws, frame)
    ensures Sent(run, events, i + 1, ws, frame)
  {
  }

  lemma NowProven(run: seq<State>, events: seq<Event>, i: nat, ws: nat, frame: seq<byte>, id: string)
    requires |run| == |events| + 1 && i < |events| && Proves(run[i], events[i], ws, frame, id)
    requires AllProven(run, events, i)
    ensures Proven(run, events, i + 1, ws, id)
  {
    hide Sent, Begins;
    assert run[i].tasks[events[i].task] == Verify(ws, frame);
  }

  lemma {:induction false} RunIsProven(run: seq<State>, events: seq<Event>, i: nat)
    requires IsRun(run, events) && i < |run|
    ensures AllProven(run, events, i)
  {
    hide Inv, Next, Enabled, Sourced, AllProven;
    if i == 0 {
      NothingToProve(run, events);
    } else {
      RunIsProven(run, events, i - 1);
      RunKeepsAll(run, events, i - 1);
      NextSourced(run[i - 1], events[i - 1]);
      OneMoreProven(run, events, i - 1);
    }
  }

  lemma NothingToProve(run: seq<State>, events: seq<Event>)
    requires |run| == |events| + 1 && run[0] == Init(run[0].expires, run[0].now)
    ensures AllProven(run, events, 0)
  {
  }

  /**
   * In every run, the identity of every socket spells the key in bytes 1 to 32 of the first message of
   * that socket's own session, a frame of 98 bytes whose signature was found valid before.
   */
  lemma IdentitiesAreProven(run: seq<State>, events: seq<Event>, i: nat, k: nat)
    requires IsRun(run, events) && i < |run| && k < |run[i].sockets| && run[i].sockets[k].id.Some?
    ensures exists j, m, frame ::
      && 0 <= j < m < i
      && Begins(run[j], events[j], k, frame)
      && Proves(run[m], events[m], k, frame, run[i].sockets[k].id.value)
  {
    hide IsRun, Begins, Proves;
    RunLength(run, events);
    RunIsProven(run, events, i);
    var m, frame :| 0 <= m < i && Proves(run[m], events[m], k, frame, run[i].sockets[k].id.value)
                    && Sent(run, events, m, k, frame);
    var j :| 0 <= j < m && Begins(run[j], events[j], k, frame);
  }

  lemma RunLength(run: seq<State>, events: seq<Event>)
    requires IsRun(run, events)
    ensures |run| == |events| + 1
  {
  }
}
