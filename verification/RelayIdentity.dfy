/**
 * How a socket comes by its identity (`authorize` in infra/cloudflare/worker/src/iroh-relay.js,
 * lines 68-96): what each of its segments does, and where the identity of every socket of
 * every run comes from.
 */
module RelayIdentity {
  import opened Base
  import opened RelayMetrics
  import opened RelayProtocol
  import opened RelayModel
  import opened RelayInvariant
  import opened RelayTasks
  import opened RelayHandlers
  import opened RelayTheorems
  import opened RelayLaws

  // ---------------------------------------------------------------- handlers that end a session

  /** Handler t has ended the session of a socket, or found it over, and goes on with `after`. */
  ghost predicate Finishes(s: State, r: State, t: nat, ws: nat, after: Resume)
    requires t < |s.tasks| && ws < |s.sockets|
  {
    if s.sockets[ws].archived then r == s.(tasks := s.tasks[t := Continue(after)])
    else
      && OnlySockets(s, r, {ws}) && r.delivered == s.delivered && r.ledger == s.ledger
      && Over(s.sockets[ws], r.sockets[ws], map[])
      && r.tasks == s.tasks[t := Retire(ws, s.sockets[ws].counts, s.sockets[ws].id, after)]
  }

  lemma FinishFinishes(s: State, t: nat, ws: nat, after: Resume)
    requires t < |s.tasks| && ws < |s.sockets|
    ensures Finishes(s, Finish(s, t, ws, after), t, ws, after)
  {
    hide Add;
    AddNothing(s.sockets[ws].counts);
    AddNothing(s.ledger);
  }

  // ---------------------------------------------------------------- verification

  /** An authentication frame: 98 bytes, tag 1, a key of 32 bytes, and a signature of 64 behind its length. */
  predicate IsAuthentication(frame: seq<byte>) {
    |frame| == 98 && frame[0] == 1 && frame[33] == 64
  }

  /** A valid signature makes the handler go on with the key of the frame; without one the session ends. */
  lemma VerificationResumes(s: State, t: nat, env: Env)
    requires Inv(s) && Enabled(s, Advance(t, env)) && s.tasks[t].Verify?
    ensures var Verify(ws, frame) := s.tasks[t];
      var r := Next(s, Advance(t, env));
      && ws < |s.sockets|
      && if env.verified && IsAuthentication(frame)
         then exists id :: IsHex(id) && Pairs(id) == frame[1..33] && r == s.(tasks := s.tasks[t := Identify(ws, id)])
         else Finishes(s, r, t, ws, Done)
  {
    hide Inv, Finish, Finishes, Hex, Pairs;
    var Verify(ws, frame) := s.tasks[t];
    TaskAt(s, t);
    if env.verified && IsAuthentication(frame) {
      PairsHex(frame[1..33]);
      HexShape(frame[1..33]);
      assert Next(s, Advance(t, env)) == s.(tasks := s.tasks[t := Identify(ws, Hex(frame[1..33]))]);
    } else {
      FinishFinishes(s, t, ws, Done);
    }
  }

  /** The transaction knows at most two identities: a third one is not allowed, and not recorded. */
  lemma TransactionAdmits(s: State, t: nat, env: Env)
    requires Enabled(s, Advance(t, env)) && s.tasks[t].Identify?
    ensures var Identify(ws, id) := s.tasks[t];
      var known, room := id in s.identities, |s.identities| < 2;
      Next(s, Advance(t, env)) == s.(
        identities := if !known && room then s.identities + [id] else s.identities,
        tasks := s.tasks[t := Claim(ws, id, known || room)])
  {
  }

  // ---------------------------------------------------------------- the claim

  /** Another socket of the list that is live and holds the identity. */
  ghost predicate IsRival(s: State, k: nat, ws: nat, id: string, list: seq<nat>) {
    k in list && k < |s.sockets| && k != ws && !s.sockets[k].archived && s.sockets[k].id == Some(id)
  }

  lemma RivalFound(s: State, ws: nat, id: string, list: seq<nat>)
    requires Inv(s)
    ensures var p := FirstMatch(s.sockets, list, ws, id, false);
      && (p < |list| ==> IsRival(s, list[p], ws, id, list))
      && (forall k: nat :: IsRival(s, k, ws, id, list) ==> p < |list| && list[p] == k)
  {
    hide Inv;
    var p := FirstMatch(s.sockets, list, ws, id, false);
    forall k: nat | IsRival(s, k, ws, id, list)
      ensures p < |list| && list[p] == k
    {
      var i :| 0 <= i < |list| && list[i] == k;
      assert Matches(s.sockets, list[i], ws, id, false);
      if list[p] != k {
        OneRoute(s, list[p], k);
      }
    }
  }

  /** The attachment of a session that has just been authenticated. */
  ghost predicate Authenticates(was: Socket, next: Socket, id: string, gain: map<Counter, nat>) {
    && next == was.(id := Some(id), phase := Authenticated, deadline := None, counts := next.counts)
    && Rises(was, next, gain)
  }

  /** The claim is in time: the identity is admitted, and neither deadline nor expiry has come. */
  predicate InTime(info: Socket, now: int, allowed: bool) {
    allowed && !info.archived && info.deadline.Some? && now < info.deadline.value && now < info.expires
  }

  /** The session is authenticated and its rival is over, in one step. */
  ghost predicate TakesOver(s: State, r: State, t: nat, ws: nat, id: string, k: nat)
    requires t < |s.tasks| && ws < |s.sockets| && k < |s.sockets|
  {
    && OnlySockets(s, r, {ws, k}) && r.delivered == s.delivered
    && Authenticates(s.sockets[ws], r.sockets[ws], id, map[Auth := 1])
    && Over(s.sockets[k], r.sockets[k], map[])
    && exists rest :: r.tasks == s.tasks[t := Retire(k, s.sockets[k].counts, Some(id), ClaimRest(ws, id, rest))]
  }

  /** The session is authenticated, and told so with one byte; if it does not take that, it is over. */
  ghost predicate Welcomes(s: State, r: State, t: nat, ws: nat, id: string, reachable: bool)
    requires t < |s.tasks| && ws < |s.sockets|
  {
    && OnlySockets(s, r, {ws}) && r.delivered == s.delivered
    && if reachable
       then Authenticates(s.sockets[ws], r.sockets[ws], id, map[Auth := 1, OutboundBytes := 1])
            && r.tasks == s.tasks[t := ReadMeta(ws)]
       else r.sockets[ws].archived && !r.sockets[ws].open && r.sockets[ws].id == Some(id)
            && Rises(s.sockets[ws], r.sockets[ws], map[Auth := 1])
            && r.tasks == s.tasks[t := Retire(ws, r.sockets[ws].counts, Some(id), Done)]
  }

  lemma ClaimedIs(was: Socket, id: string)
    ensures var claimed := Claimed(was, id);
      Authenticates(was, claimed.(counts := Add(claimed.counts, map[Auth := 1])), id, map[Auth := 1])
  {
  }

  lemma TakeOverTakesOver(s: State, t: nat, ws: nat, id: string, env: Env)
    requires t < |s.tasks| && ws < |s.sockets|
    requires var p := FirstMatch(s.sockets, env.roster, ws, id, false); p < |env.roster|
    ensures var p := FirstMatch(s.sockets, env.roster, ws, id, false);
      TakesOver(s, TakeOver(s, t, ws, id, env), t, ws, id, env.roster[p])
  {
    hide Add, FirstMatch, Claimed, Authenticates;
    var p := FirstMatch(s.sockets, env.roster, ws, id, false);
    var k := env.roster[p];
    ClaimedIs(s.sockets[ws], id);
    AddNothing(s.sockets[k].counts);
    assert TakeOver(s, t, ws, id, env).tasks
        == s.tasks[t := Retire(k, s.sockets[k].counts, Some(id), ClaimRest(ws, id, env.roster[p + 1..]))];
  }

  /** A session that is still live is told so with one byte, and ended if it does not take it. */
  ghost predicate Greets(s: State, r: State, t: nat, ws: nat, reachable: bool)
    requires t < |s.tasks| && ws < |s.sockets|
  {
    if !s.sockets[ws].archived && reachable then
      && OnlySockets(s, r, {ws}) && r.delivered == s.delivered && r.tasks == s.tasks[t := ReadMeta(ws)]
      && r.sockets[ws] == s.sockets[ws].(counts := r.sockets[ws].counts)
      && Rises(s.sockets[ws], r.sockets[ws], map[OutboundBytes := 1])
    else Finishes(s, r, t, ws, Done)
  }

  lemma GreetGreets(s: State, t: nat, ws: nat, env: Env)
    requires t < |s.tasks| && ws < |s.sockets|
    ensures Greets(s, Greet(s, t, ws, env), t, ws, ws in env.reachable)
  {
    hide Add, Finish, Booked, Finishes;
    FinishFinishes(s, t, ws, Done);
    TakesFrame(s.sockets[ws], 1);
  }

  lemma TakeOverWelcomes(s: State, t: nat, ws: nat, id: string, env: Env)
    requires t < |s.tasks| && ws < |s.sockets| && !s.sockets[ws].archived
    requires FirstMatch(s.sockets, env.roster, ws, id, false) == |env.roster|
    ensures Welcomes(s, TakeOver(s, t, ws, id, env), t, ws, id, ws in env.reachable)
  {
    hide Add, FirstMatch, Authenticates, Claimed, Greet, Greets, Welcomes;
    var claimed := Claimed(s.sockets[ws], id);
    var s1 := SetTask(Update(s, ws, claimed, map[Auth := 1]), t, Continue(ClaimRest(ws, id, [])));
    ClaimedIs(s.sockets[ws], id);
    GreetGreets(s1, t, ws, env);
    WelcomesAfter(s, s1, Greet(s1, t, ws, env), t, ws, id, ws in env.reachable);
  }

  lemma WelcomesAfter(s: State, s1: State, r: State, t: nat, ws: nat, id: string, reachable: bool)
    requires t < |s.tasks| && ws < |s.sockets| && !s.sockets[ws].archived
    requires OnlySockets(s, s1, {ws}) && s1.delivered == s.delivered
    requires Authenticates(s.sockets[ws], s1.sockets[ws], id, map[Auth := 1])
    requires |s1.tasks| == |s.tasks| && s1.tasks == s.tasks[t := s1.tasks[t]]
    requires Greets(s1, r, t, ws, reachable)
    ensures Welcomes(s, r, t, ws, id, reachable)
  {
    assert r.tasks == s.tasks[t := r.tasks[t]];
    if reachable {
      GreetedIs(s.sockets[ws], s1.sockets[ws], r.sockets[ws], id);
    } else {
      assert r.sockets[ws].counts == s1.sockets[ws].counts;
    }
  }

  lemma GreetedIs(was: Socket, next: Socket, last: Socket, id: string)
    requires Authenticates(was, next, id, map[Auth := 1]) && Rises(next, last, map[OutboundBytes := 1])
    requires last == next.(counts := last.counts)
    ensures Authenticates(was, last, id, map[Auth := 1, OutboundBytes := 1])
  {
  }

  /**
   * A claim in time is granted: the session holds the identity from this step on, and a listed
   * rival is over in the same step. Any other claim ends its session.
   */
  lemma ClaimIsDecided(s: State, t: nat, env: Env)
    requires Inv(s) && Enabled(s, Advance(t, env)) && s.tasks[t].Claim?
    ensures var Claim(ws, id, allowed) := s.tasks[t];
      var r := Next(s, Advance(t, env));
      && ws < |s.sockets|
      && if InTime(s.sockets[ws], s.now, allowed)
         then (forall k: nat :: IsRival(s, k, ws, id, env.roster) ==> TakesOver(s, r, t, ws, id, k))
              && ((forall k: nat :: !IsRival(s, k, ws, id, env.roster)) ==>
                    Welcomes(s, r, t, ws, id, ws in env.reachable))
         else Finishes(s, r, t, ws, Done)
  {
    hide Inv, TakeOver, Finish, Finishes, TakesOver, Welcomes, FirstMatch, IsRival, IsRoster;
    var Claim(ws, id, allowed) := s.tasks[t];
    TaskAt(s, t);
    RivalFound(s, ws, id, env.roster);
    if InTime(s.sockets[ws], s.now, allowed) {
      var p := FirstMatch(s.sockets, env.roster, ws, id, false);
      if p < |env.roster| {
        TakeOverTakesOver(s, t, ws, id, env);
      } else {
        TakeOverWelcomes(s, t, ws, id, env);
      }
    } else {
      FinishFinishes(s, t, ws, Done);
    }
  }

  /** The loop over older holders goes on after a retirement: to the next rival, or to the greeting. */
  lemma ClaimGoesOn(s: State, t: nat, env: Env)
    requires Inv(s) && Enabled(s, Advance(t, env)) && s.tasks[t].Continue? && s.tasks[t].after.ClaimRest?
    ensures var ClaimRest(ws, id, rest) := s.tasks[t].after;
      var r := Next(s, Advance(t, env));
      && ws < |s.sockets|
      && (forall k: nat :: IsRival(s, k, ws, id, rest) ==> exists more :: Finishes(s, r, t, k, ClaimRest(ws, id, more)))
      && ((forall k: nat :: !IsRival(s, k, ws, id, rest)) ==> Greets(s, r, t, ws, ws in env.reachable))
  {
    hide Inv, Retired, Greet, Greets, Finishes, FirstMatch, IsRival, IsRoster;
    var ClaimRest(ws, id, rest) := s.tasks[t].after;
    TaskAt(s, t);
    RivalFound(s, ws, id, rest);
    var p := FirstMatch(s.sockets, rest, ws, id, false);
    if p < |rest| {
      FinishFinishes(s, t, rest[p], ClaimRest(ws, id, rest[p + 1..]));
      FinishLive(s, t, rest[p], ClaimRest(ws, id, rest[p + 1..]));
    } else {
      GreetGreets(s, t, ws, env);
    }
  }

  /** After its greeting a session sets the time of the first ping, unless the room has one. */
  lemma FirstPingIsSet(s: State, t: nat, env: Env)
    requires Inv(s) && Enabled(s, Advance(t, env)) && (s.tasks[t].ReadMeta? || s.tasks[t].StorePing?)
    ensures var r := Next(s, Advance(t, env));
      match s.tasks[t]
      case ReadMeta(ws) => r == s.(tasks := s.tasks[t := StorePing(ws, s.meta)])
      case StorePing(ws, None) => ws < |s.sockets| && Finishes(s, r, t, ws, Done)
      case StorePing(ws, Some(copy)) =>
        r == s.(meta := if copy.nextPing.Some? then s.meta
                        else Some(copy.(nextPing := Some(s.now + 1000 * copy.ping))),
                tasks := s.tasks[t := Rearm(Done)])
  {
    hide Inv, Finish, Finishes, IsRoster;
    TaskAt(s, t);
    if s.tasks[t].StorePing? {
      FinishFinishes(s, t, s.tasks[t].ws, Done);
    }
  }

  /** A datagram whose target was retired is booked as dropped, unless its sender has been archived meanwhile. */
  lemma LateDropIsBooked(s: State, t: nat, env: Env)
    requires Enabled(s, Advance(t, env)) && s.tasks[t].Continue? && s.tasks[t].after.DropFor?
    requires s.tasks[t].after.ws < |s.sockets|
    ensures var r, ws := Next(s, Advance(t, env)), s.tasks[t].after.ws;
      && OnlySockets(s, r, {ws}) && r.delivered == s.delivered && r.tasks == s.tasks[t := Idle]
      && if s.sockets[ws].archived then r.sockets == s.sockets
         else Booked(s.sockets[ws], r.sockets[ws], map[Dropped := 1])
  {
    hide IsRoster, Add, Booked;
    if !s.sockets[s.tasks[t].after.ws].archived {
      Unchanged(s.sockets[s.tasks[t].after.ws]);
      BooksMore(s.sockets[s.tasks[t].after.ws], s.sockets[s.tasks[t].after.ws], map[], Dropped);
    }
    assert map[][Dropped := 1] == map[Dropped := 1];
  }
}
