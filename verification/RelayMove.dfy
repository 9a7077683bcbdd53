/**
 * Every handler segment is made of moves: one live attachment is written back and one task
 * changes. Each part of the invariant survives a move under its own condition.
 */
module RelayMove {
  import opened Base
  import opened RelayMetrics
  import opened RelayProtocol
  import opened RelayModel
  import opened RelayInvariant

  /** Socket `k` becomes `next`, its counters raised by `gain`, and task `t` becomes `task`. */
  function Move(s: State, k: nat, next: Socket, gain: map<Counter, nat>, t: nat, task: Task): State
    requires k < |s.sockets| && t < |s.tasks|
  {
    s.(sockets := s.sockets[k := next], ledger := Add(s.ledger, gain), tasks := s.tasks[t := task])
  }

  // ---------------------------------------------------------------- attachments

  ghost predicate GoodSocket(s: State, k: nat, next: Socket, gain: map<Counter, nat>)
    requires k < |s.sockets|
  {
    var was := s.sockets[k];
    && !was.archived && next.counts == Add(was.counts, gain) && next.listed == was.listed
    && (!next.archived ==> next.open == was.open)
    && SocketOk(next, s.expires)
    && (next.id == was.id
        || (was.id.None? && next.id.Some? && !s.wiped && next.id.value in s.identities
            && forall j :: 0 <= j < |s.sockets| && j != k && !s.sockets[j].archived ==> s.sockets[j].id != next.id))
  }

  lemma SocketsMove(s: State, k: nat, next: Socket, gain: map<Counter, nat>, t: nat, task: Task)
    requires k < |s.sockets| && t < |s.tasks|
    requires SocketsOk(s) && UniqueRoutes(s) && GoodSocket(s, k, next, gain)
    ensures SocketsOk(Move(s, k, next, gain, t, task)) && UniqueRoutes(Move(s, k, next, gain, t, task))
  {
  }

  // ---------------------------------------------------------------- tasks

  /** What other tasks rely on about socket `k`. */
  ghost predicate GoodForOthers(s: State, k: nat, next: Socket, t: nat)
    requires k < |s.sockets| && t < |s.tasks|
  {
    var was := s.sockets[k];
    && !was.archived
    && (next.id == was.id || was.id.None?)
    && (next.archived || TimedOutSame(was, next) || InAlarm(s.tasks[t]))
    && (was.phase == Authenticated ==> next.phase == Authenticated)
  }

  ghost predicate TimedOutSame(was: Socket, next: Socket) {
    next.expires == was.expires && (next.deadline.None? || next.deadline == was.deadline)
  }

  lemma ResumeMoves(s: State, s': State, k: nat, after: Resume)
    requires k < |s.sockets| && |s'.sockets| == |s.sockets| && s'.sockets == s.sockets[k := s'.sockets[k]]
    requires s'.expires == s.expires && s'.now == s.now && ResumeOk(s, after)
    requires !s.sockets[k].archived
    requires s'.sockets[k].archived || TimedOutSame(s.sockets[k], s'.sockets[k]) || !(after.SweepRest? || after.Swept?)
    ensures ResumeOk(s', after)
  {
  }

  lemma TasksMove(s: State, k: nat, next: Socket, gain: map<Counter, nat>, t: nat, task: Task)
    requires k < |s.sockets| && t < |s.tasks|
    requires TasksOk(s) && AlarmsOk(s) && GoodForOthers(s, k, next, t)
    requires TaskOk(Move(s, k, next, gain, t, task), task)
    ensures TasksOk(Move(s, k, next, gain, t, task))
  {
    var s' := Move(s, k, next, gain, t, task);
    forall u | 0 <= u < |s.tasks| && u != t
      ensures TaskOk(s', s'.tasks[u])
    {
      OtherTask(s, s', k, t, u);
    }
  }

  lemma OtherTask(s: State, s': State, k: nat, t: nat, u: nat)
    requires k < |s.sockets| && t < |s.tasks| && u < |s.tasks| && u != t
    requires |s'.sockets| == |s.sockets| && s'.sockets == s.sockets[k := s'.sockets[k]]
    requires s'.expires == s.expires && s'.now == s.now && s'.wiped == s.wiped && s'.identities == s.identities
    requires TaskOk(s, s.tasks[u]) && AlarmsOk(s) && GoodForOthers(s, k, s'.sockets[k], t)
    ensures TaskOk(s', s.tasks[u])
  {
    match s.tasks[u]
    case Retire(_, _, _, after) => ResumeMoves(s, s', k, after);
    case Announce(_, _, after) => ResumeMoves(s, s', k, after);
    case Rearm(after) => ResumeMoves(s, s', k, after);
    case Continue(after) => ResumeMoves(s, s', k, after);
    case _ =>
  }

  ghost predicate GoodAuthor(s: State, k: nat, next: Socket, t: nat, task: Task)
    requires k < |s.sockets| && t < |s.tasks|
  {
    var was := s.tasks[t];
    && (Authorizes(task).Some? ==>
          Authorizes(task) == Authorizes(was) || (Authorizes(task) == Some(k) && s.sockets[k].phase == Challenging))
    && (Authorizes(task) == Some(k) && (Authorizes(was) != Some(k) || next.phase != s.sockets[k].phase) ==>
          next.phase == Verifying)
    && (next.phase == s.sockets[k].phase || next.phase == Verifying
        || forall u :: 0 <= u < |s.tasks| && u != t ==> Authorizes(s.tasks[u]) != Some(k))
    && (InAlarm(task) ==> InAlarm(was))
  }

  lemma AuthorsMove(s: State, k: nat, next: Socket, gain: map<Counter, nat>, t: nat, task: Task)
    requires k < |s.sockets| && t < |s.tasks|
    requires AuthorsOk(s) && AlarmsOk(s) && GoodAuthor(s, k, next, t, task)
    ensures AuthorsOk(Move(s, k, next, gain, t, task)) && AlarmsOk(Move(s, k, next, gain, t, task))
  {
  }

  // ---------------------------------------------------------------- books

  ghost predicate GoodLedger(s: State, k: nat, next: Socket, gain: map<Counter, nat>, t: nat, task: Task)
    requires k < |s.sockets| && t < |s.tasks|
  {
    && !s.sockets[k].archived && next.counts == Add(s.sockets[k].counts, gain)
    && (if next.archived then !s.tasks[t].Retire? && task.Retire? && task.counts == next.counts
        else task == s.tasks[t] || (!s.tasks[t].Retire? && !task.Retire?))
  }

  lemma LedgerMoves(s: State, k: nat, next: Socket, gain: map<Counter, nat>, t: nat, task: Task)
    requires k < |s.sockets| && t < |s.tasks|
    requires Conserved(s) && GoodLedger(s, k, next, gain, t, task)
    ensures Conserved(Move(s, k, next, gain, t, task))
  {
    hide Balanced, Connected, GoodLedger, Move;
    forall c: Counter
      ensures Balanced(Move(s, k, next, gain, t, task), c)
    {
      CounterMoves(s, k, next, gain, t, task, c);
    }
    ConnectionsMove(s, k, next, gain, t, task);
  }

  lemma CounterMoves(s: State, k: nat, next: Socket, gain: map<Counter, nat>, t: nat, task: Task, c: Counter)
    requires k < |s.sockets| && t < |s.tasks|
    requires Balanced(s, c) && GoodLedger(s, k, next, gain, t, task)
    ensures Balanced(Move(s, k, next, gain, t, task), c)
  {
    TotalUpdate(s.sockets, LiveWeight(c), k, next);
    TotalUpdate(s.tasks, RetireWeight(c), t, task);
  }

  lemma ConnectionsMove(s: State, k: nat, next: Socket, gain: map<Counter, nat>, t: nat, task: Task)
    requires k < |s.sockets| && t < |s.tasks|
    requires Connected(s) && GoodLedger(s, k, next, gain, t, task)
    ensures Connected(Move(s, k, next, gain, t, task))
  {
    TotalUpdate(s.sockets, ArchivedOne(), k, next);
    TotalUpdate(s.tasks, RetireOne(), t, task);
  }

  function Pending(task: Task, k: nat): int {
    if Drops(task) == Some(k) then 1 else 0
  }

  /** The change in undecided datagrams of every live socket is the change in pending drops. */
  ghost predicate GoodBalance(s: State, k: nat, next: Socket, gain: map<Counter, nat>, t: nat, task: Task)
    requires k < |s.sockets| && t < |s.tasks|
  {
    && next.counts == Add(s.sockets[k].counts, gain)
    && (!next.archived ==>
          Of(gain, Datagram) as int - Of(gain, Forwarded) as int - Of(gain, Dropped) as int
          == Pending(task, k) - Pending(s.tasks[t], k))
    && (forall j: nat :: j != k ==> Pending(task, j) == Pending(s.tasks[t], j))
  }

  lemma BalanceMoves(s: State, k: nat, next: Socket, gain: map<Counter, nat>, t: nat, task: Task)
    requires k < |s.sockets| && t < |s.tasks|
    requires Accounted(s) && !s.sockets[k].archived && GoodBalance(s, k, next, gain, t, task)
    ensures Accounted(Move(s, k, next, gain, t, task))
  {
    var s' := Move(s, k, next, gain, t, task);
    forall j: nat | j < |s'.sockets| && !s'.sockets[j].archived
      ensures Undecided(s'.sockets[j]) == Total(s'.tasks, DropOne(j))
    {
      TotalUpdate(s.tasks, DropOne(j), t, task);
      assert DropOne(j)(task) == Pending(task, j) && DropOne(j)(s.tasks[t]) == Pending(s.tasks[t], j);
    }
  }

  // ---------------------------------------------------------------- coverage, limits, identities, deliveries

  ghost predicate GoodAlarm(s: State, k: nat, next: Socket, t: nat, task: Task)
    requires k < |s.sockets| && t < |s.tasks|
  {
    || WillRearm(task)
    || (!WillRearm(s.tasks[t]) && (next.archived || TimedOutSame(s.sockets[k], next)))
  }

  /** Some task will rearm after one task has changed. */
  lemma RearmingMoves(s: State, t: nat, task: Task)
    requires t < |s.tasks|
    ensures WillRearm(task) ==> Rearming(SetTask(s, t, task))
    ensures Rearming(s) && !WillRearm(s.tasks[t]) ==> Rearming(SetTask(s, t, task))
  {
    var s' := SetTask(s, t, task);
    assert s'.tasks[t] == task;
    if Rearming(s) && !WillRearm(s.tasks[t]) {
      var u :| 0 <= u < |s.tasks| && WillRearm(s.tasks[u]);
      assert s'.tasks[u] == s.tasks[u];
    }
  }

  lemma CoverageMoves(s: State, k: nat, next: Socket, gain: map<Counter, nat>, t: nat, task: Task)
    requires k < |s.sockets| && t < |s.tasks|
    requires Covered(s) && !s.sockets[k].archived && GoodAlarm(s, k, next, t, task)
    ensures Covered(Move(s, k, next, gain, t, task))
  {
    var s' := Move(s, k, next, gain, t, task);
    RearmingMoves(s, t, task);
    assert s'.tasks == SetTask(s, t, task).tasks;
    if AllCovered(s) && !Rearming(s') {
      forall j | 0 <= j < |s'.sockets| && !s'.sockets[j].archived
        ensures AlarmCovers(s', s'.sockets[j])
      {
        assert AlarmCovers(s, s.sockets[j]);
      }
    }
  }

  lemma LimitsMove(s: State, k: nat, next: Socket, gain: map<Counter, nat>, t: nat, task: Task)
    requires k < |s.sockets| && t < |s.tasks|
    requires Limits(s) && GoodSocket(s, k, next, gain)
    ensures Limits(Move(s, k, next, gain, t, task))
  {
    TotalUpdate(s.sockets, LiveCount(), k, next);
  }

  /** Distinct elements of a sequence are at most as many as its length. */
  lemma {:induction false} FewElements<T>(list: seq<T>, elements: set<T>)
    requires forall x :: x in elements ==> x in list
    ensures |elements| <= |list|
  {
    if list == [] {
      assert elements == {};
    } else {
      var rest := elements - {list[0]};
      FewElements(list[1..], rest);
      if list[0] in elements {
        assert elements == rest + {list[0]};
      } else {
        assert elements == rest;
      }
    }
  }

  /** Writing back a socket adds no identity beyond those admitted to storage. */
  lemma IdentitiesMove(s: State, k: nat, next: Socket, gain: map<Counter, nat>, t: nat, task: Task)
    requires k < |s.sockets| && t < |s.tasks|
    requires IdentitiesOk(s) && GoodSocket(s, k, next, gain)
    ensures IdentitiesOk(Move(s, k, next, gain, t, task))
  {
    hide SocketOk, Add, Identities;
    var sockets := s.sockets[k := next];
    if next.id == s.sockets[k].id {
      SameIdentities(s.sockets, sockets);
    } else {
      KnownIdentities(sockets, s.identities);
      FewElements(s.identities, Identities(sockets));
    }
  }

  lemma SameIdentities(before: seq<Socket>, after: seq<Socket>)
    requires |after| == |before| && forall k :: 0 <= k < |before| ==> after[k].id == before[k].id
    ensures Identities(after) == Identities(before)
  {
  }

  lemma KnownIdentities(sockets: seq<Socket>, known: seq<string>)
    requires forall k :: 0 <= k < |sockets| && sockets[k].id.Some? ==> sockets[k].id.value in known
    ensures forall id :: id in Identities(sockets) ==> id in known
  {
  }

  lemma DeliveriesMove(s: State, k: nat, next: Socket, gain: map<Counter, nat>, t: nat, task: Task)
    requires k < |s.sockets| && t < |s.tasks|
    requires DeliveriesOk(s) && GoodSocket(s, k, next, gain)
    ensures DeliveriesOk(Move(s, k, next, gain, t, task))
  {
    var s' := Move(s, k, next, gain, t, task);
    forall i | 0 <= i < |s'.delivered|
      ensures DeliveryOk(s'.sockets, s'.delivered[i])
    {
      assert DeliveryOk(s.sockets, s.delivered[i]);
    }
  }

  // ---------------------------------------------------------------- all parts together

  ghost predicate GoodMove(s: State, k: nat, next: Socket, gain: map<Counter, nat>, t: nat, task: Task) {
    && k < |s.sockets| && t < |s.tasks|
    && GoodSocket(s, k, next, gain)
    && GoodForOthers(s, k, next, t)
    && GoodAuthor(s, k, next, t, task)
    && GoodLedger(s, k, next, gain, t, task)
    && GoodBalance(s, k, next, gain, t, task)
    && GoodAlarm(s, k, next, t, task)
    && TaskOk(Move(s, k, next, gain, t, task), task)
  }

  lemma MoveKeeps(s: State, k: nat, next: Socket, gain: map<Counter, nat>, t: nat, task: Task)
    requires Inv(s) && GoodMove(s, k, next, gain, t, task)
    ensures Inv(Move(s, k, next, gain, t, task))
  {
    SocketsMove(s, k, next, gain, t, task);
    TasksMove(s, k, next, gain, t, task);
    AuthorsMove(s, k, next, gain, t, task);
    if !s.wiped {
      LedgerMoves(s, k, next, gain, t, task);
    }
    BalanceMoves(s, k, next, gain, t, task);
    CoverageMoves(s, k, next, gain, t, task);
    LimitsMove(s, k, next, gain, t, task);
    IdentitiesMove(s, k, next, gain, t, task);
    DeliveriesMove(s, k, next, gain, t, task);
  }
}
