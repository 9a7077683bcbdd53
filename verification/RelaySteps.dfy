/** Every synchronous segment of every handler keeps the invariant. */
module RelaySteps {
  import opened Base
  import opened RelayMetrics
  import opened RelayProtocol
  import opened RelayModel
  import opened RelayInvariant
  import opened RelayMove
  import opened RelayTasks

  // ---------------------------------------------------------------- gentle moves

  /** The socket stays live and keeps its identity, phase and place; its deadline does not move closer. */
  ghost predicate Gentle(was: Socket, next: Socket) {
    && !was.archived && !next.archived && next.id == was.id && next.phase == was.phase
    && next.listed == was.listed && next.open == was.open && TimedOutSame(was, next)
  }

  lemma GentleTask(s: State, k: nat, next: Socket, gain: map<Counter, nat>, t: nat, task: Task)
    requires k < |s.sockets| && t < |s.tasks| && Gentle(s.sockets[k], next) && TaskOk(s, task)
    ensures TaskOk(Move(s, k, next, gain, t, task), task)
  {
    var s' := Move(s, k, next, gain, t, task);
    match task
    case Retire(_, _, _, after) => ResumeMoves(s, s', k, after);
    case Announce(_, _, after) => ResumeMoves(s, s', k, after);
    case Rearm(after) => ResumeMoves(s, s', k, after);
    case Continue(after) => ResumeMoves(s, s', k, after);
    case _ =>
  }

  /** A gentle move of a socket together with a move of a task that is not retiring anything. */
  lemma GentleKeeps(s: State, k: nat, next: Socket, gain: map<Counter, nat>, t: nat, task: Task)
    requires Inv(s) && k < |s.sockets| && t < |s.tasks| && Gentle(s.sockets[k], next)
    requires next.counts == Add(s.sockets[k].counts, gain) && SocketOk(next, s.expires)
    requires TaskOk(s, task) && GoodAuthor(s, k, next, t, task)
    requires task == s.tasks[t] || (!s.tasks[t].Retire? && !task.Retire?)
    requires WillRearm(s.tasks[t]) ==> WillRearm(task)
    requires GoodBalance(s, k, next, gain, t, task)
    ensures Inv(Move(s, k, next, gain, t, task))
  {
    hide Inv;
    SocketAt(s, k);
    GentleTask(s, k, next, gain, t, task);
    MoveKeeps(s, k, next, gain, t, task);
  }

  // ---------------------------------------------------------------- sends

  ghost predicate SendCategory(category: Option<Counter>) {
    category.None? || category.value in {ServerPing, ServerPong, EndpointGone}
  }

  /** A send that succeeds on a live socket, made by any task. */
  /** A send raises none of the counters that an invariant of the attachment speaks of. */
  lemma SentSocket(was: Socket, expires: int, bytes: nat, category: Option<Counter>)
    requires SocketOk(was, expires) && !was.archived && SendCategory(category)
    ensures var next := was.(counts := Add(was.counts, SendGain(bytes, category)));
            SocketOk(next, expires) && Gentle(was, next)
  {
    hide IdOk;
  }

  lemma SentTask(s: State, t: nat, k: nat, next: Socket, bytes: nat, category: Option<Counter>)
    requires t < |s.tasks| && k < |s.sockets| && SendCategory(category)
    requires next == s.sockets[k].(counts := Add(s.sockets[k].counts, SendGain(bytes, category)))
    ensures GoodAuthor(s, k, next, t, s.tasks[t])
    ensures GoodBalance(s, k, next, SendGain(bytes, category), t, s.tasks[t])
  {
    hide Add;
  }

  lemma SentKeeps(s: State, t: nat, k: nat, bytes: nat, category: Option<Counter>)
    requires Inv(s) && t < |s.tasks| && k < |s.sockets| && !s.sockets[k].archived && SendCategory(category)
    ensures Inv(Sent(s, k, bytes, category))
  {
    hide Inv, SocketOk, Gentle, Add, SendGain, GoodAuthor, GoodBalance, TaskOk;
    var gain := SendGain(bytes, category);
    var next := s.sockets[k].(counts := Add(s.sockets[k].counts, gain));
    SocketAt(s, k);
    TaskAt(s, t);
    SentSocket(s.sockets[k], s.expires, bytes, category);
    SentTask(s, t, k, next, bytes, category);
    GentleKeeps(s, k, next, gain, t, s.tasks[t]);
    assert Move(s, k, next, gain, t, s.tasks[t]) == Sent(s, k, bytes, category);
  }

  // ---------------------------------------------------------------- finish

  ghost predicate GoodFinish(s: State, t: nat, ws: nat, after: Resume)
    requires t < |s.tasks|
  {
    && !s.tasks[t].Retire?
    && (after.SweepRest? || after.Swept? ==> InAlarm(s.tasks[t]))
    && (if after.DropFor? then Drops(s.tasks[t]) == Some(after.ws) && after.ws != ws else Drops(s.tasks[t]).None?)
    && (ResumeOk(s, after)
        || (after.SweepRest? && ws !in after.left && ResumeOk(s, after.(left := [ws] + after.left))))
  }

  lemma RetiredKeeps(s: State, t: nat, ws: nat, info: Socket, gain: map<Counter, nat>, after: Resume)
    requires Inv(s) && t < |s.tasks| && ws < |s.sockets|
    requires !s.sockets[ws].archived && info.archived == s.sockets[ws].archived
    requires info.counts == s.sockets[ws].counts && info.listed == s.sockets[ws].listed
    requires info.expires == s.expires && info.id == s.sockets[ws].id && info.phase == s.sockets[ws].phase
    requires Of(gain, Messages) <= 1 && GoodFinish(s, t, ws, after)
    ensures Inv(Retired(s, t, ws, info, gain, after))
  {
    hide Inv, Retired, Add, GoodFinish, SocketOk, ResumeOk;
    var next := info.(archived := true, open := false, counts := Add(info.counts, gain));
    var task := Retire(ws, next.counts, info.id, after);
    RetiredIsMove(s, t, ws, info, gain, after);
    SocketAt(s, ws);
    RetiredSocket(s.sockets[ws], info, gain, s.expires);
    RetiredResumes(s, t, ws, next, gain, after);
    RetiredFits(s, t, ws, next, gain, after);
    MoveKeeps(s, ws, next, gain, t, task);
  }

  lemma RetiredSocket(was: Socket, info: Socket, gain: map<Counter, nat>, expires: int)
    requires SocketOk(was, expires) && !was.archived
    requires info.counts == was.counts && info.expires == expires && info.id == was.id && info.phase == was.phase
    requires Of(gain, Messages) <= 1
    ensures SocketOk(info.(archived := true, open := false, counts := Add(info.counts, gain)), expires)
  {
  }

  lemma RetiredResumes(s: State, t: nat, ws: nat, next: Socket, gain: map<Counter, nat>, after: Resume)
    requires t < |s.tasks| && ws < |s.sockets| && !s.sockets[ws].archived && next.archived
    requires GoodFinish(s, t, ws, after)
    ensures ResumeOk(Move(s, ws, next, gain, t, Retire(ws, next.counts, next.id, after)), after)
  {
    if ResumeOk(s, after) {
      ResumeMoves(s, Move(s, ws, next, gain, t, Retire(ws, next.counts, next.id, after)), ws, after);
    }
  }

  lemma RetiredFits(s: State, t: nat, ws: nat, next: Socket, gain: map<Counter, nat>, after: Resume)
    requires t < |s.tasks| && ws < |s.sockets| && !s.sockets[ws].archived && next.archived
    requires next.counts == Add(s.sockets[ws].counts, gain)
    requires next.id == s.sockets[ws].id && next.phase == s.sockets[ws].phase
    requires GoodFinish(s, t, ws, after)
    ensures var task := Retire(ws, next.counts, next.id, after);
      && GoodForOthers(s, ws, next, t) && GoodAuthor(s, ws, next, t, task)
      && GoodLedger(s, ws, next, gain, t, task) && GoodBalance(s, ws, next, gain, t, task)
      && GoodAlarm(s, ws, next, t, task)
  {
    hide ResumeOk, Add;
  }

  lemma RetiredIsMove(s: State, t: nat, ws: nat, info: Socket, gain: map<Counter, nat>, after: Resume)
    requires t < |s.tasks| && ws < |s.sockets|
    ensures var next := info.(archived := true, open := false, counts := Add(info.counts, gain));
      Retired(s, t, ws, info, gain, after) == Move(s, ws, next, gain, t, Retire(ws, next.counts, info.id, after))
  {
  }

  lemma FinishKeeps(s: State, t: nat, ws: nat)
    requires Inv(s) && t < |s.tasks| && ws < |s.sockets|
    requires !s.tasks[t].Retire? && Drops(s.tasks[t]).None?
    requires s.sockets[ws].archived && WillRearm(s.tasks[t]) ==> s.wiped
    ensures Inv(Finish(s, t, ws, Done))
  {
    hide Inv;
    if s.sockets[ws].archived {
      StepKeeps(s, t, Continue(Done));
    } else {
      SocketAt(s, ws);
      RetiredKeeps(s, t, ws, s.sockets[ws], map[], Done);
    }
  }
}
