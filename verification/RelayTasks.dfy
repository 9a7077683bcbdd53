/** Moves of a task alone, and the arrival of a new task. */
module RelayTasks {
  import opened Base
  import opened RelayMetrics
  import opened RelayProtocol
  import opened RelayModel
  import opened RelayInvariant
  import opened RelayMove

  // ---------------------------------------------------------------- one task changes

  ghost predicate GoodStep(s: State, t: nat, task: Task) {
    && t < |s.tasks|
    && TaskOk(s, task)
    && (Authorizes(task).Some? ==> Authorizes(task) == Authorizes(s.tasks[t]))
    && (InAlarm(task) ==> InAlarm(s.tasks[t]))
    && !task.Retire? && !s.tasks[t].Retire?
    && Drops(task) == Drops(s.tasks[t])
    && (WillRearm(s.tasks[t]) ==> WillRearm(task) || s.wiped || AllCovered(s))
  }

  lemma StepBooks(s: State, t: nat, task: Task)
    requires Books(s) && GoodStep(s, t, task)
    ensures Books(SetTask(s, t, task))
  {
    var s' := SetTask(s, t, task);
    forall c: Counter
      ensures Balanced(s, c) ==> Balanced(s', c)
    {
      TotalUpdate(s.tasks, RetireWeight(c), t, task);
    }
    TotalUpdate(s.tasks, RetireOne(), t, task);
    forall j: nat | j < |s.sockets|
      ensures Total(s'.tasks, DropOne(j)) == Total(s.tasks, DropOne(j))
    {
      TotalUpdate(s.tasks, DropOne(j), t, task);
    }
  }

  lemma StepActors(s: State, t: nat, task: Task)
    requires GoodStep(s, t, task) && TasksOk(s) && AuthorsOk(s) && AlarmsOk(s)
    ensures var s' := SetTask(s, t, task); TasksOk(s') && AuthorsOk(s') && AlarmsOk(s')
  {
    var s' := SetTask(s, t, task);
    forall u | 0 <= u < |s'.tasks|
      ensures TaskOk(s', s'.tasks[u])
    {
      TaskShifts(s, s', s'.tasks[u]);
    }
  }

  lemma StepKeeps(s: State, t: nat, task: Task)
    requires GoodStep(s, t, task) && Inv(s)
    ensures Inv(SetTask(s, t, task))
  {
    hide TasksOk, AuthorsOk, AlarmsOk, Books, Covered, TaskOk;
    var s' := SetTask(s, t, task);
    StepBooks(s, t, task);
    StepActors(s, t, task);
    StepCovered(s, t, task);
    DeliveriesShift(s, s');
  }

  lemma StepCovered(s: State, t: nat, task: Task)
    requires GoodStep(s, t, task) && Covered(s)
    ensures Covered(SetTask(s, t, task))
  {
    hide TaskOk;
    RearmingMoves(s, t, task);
    if AllCovered(s) {
      assert AllCovered(SetTask(s, t, task));
    }
  }

  /** Tasks and deliveries only look at the attachments and at what storage has admitted. */
  ghost predicate SameFacts(s: State, s': State) {
    && s'.sockets == s.sockets && s'.expires == s.expires && s'.now >= s.now
    && (s.wiped ==> s'.wiped)
    && (forall id :: id in s.identities ==> s'.wiped || id in s'.identities)
  }

  lemma TaskShifts(s: State, s': State, task: Task)
    requires SameFacts(s, s') && TaskOk(s, task)
    ensures TaskOk(s', task)
  {
    match task
    case Retire(_, _, _, after) => assert ResumeOk(s', after);
    case Announce(_, _, after) => assert ResumeOk(s', after);
    case Rearm(after) => assert ResumeOk(s', after);
    case Continue(after) => assert ResumeOk(s', after);
    case _ =>
  }

  lemma TasksShift(s: State, s': State)
    requires SameFacts(s, s') && TasksOk(s)
    ensures forall task :: TaskOk(s, task) ==> TaskOk(s', task)
    ensures forall u :: 0 <= u < |s.tasks| ==> TaskOk(s', s.tasks[u])
  {
    forall task | TaskOk(s, task)
      ensures TaskOk(s', task)
    {
      TaskShifts(s, s', task);
    }
  }

  lemma DeliveriesShift(s: State, s': State)
    requires DeliveriesOk(s) && s'.sockets == s.sockets && s'.delivered == s.delivered
    ensures DeliveriesOk(s')
  {
  }

  // ---------------------------------------------------------------- reading the invariant

  lemma SocketAt(s: State, k: nat)
    requires k < |s.sockets| && Inv(s)
    ensures SocketOk(s.sockets[k], s.expires)
  {
  }

  lemma TaskAt(s: State, t: nat)
    requires t < |s.tasks| && Inv(s)
    ensures TaskOk(s, s.tasks[t])
  {
  }

  lemma LimitsAt(s: State)
    requires Inv(s)
    ensures Limits(s)
  {
  }

  lemma CoveredAt(s: State)
    requires Inv(s)
    ensures Covered(s)
  {
  }

  lemma IdentitiesAt(s: State)
    requires Inv(s)
    ensures IdentitiesOk(s)
  {
  }

  lemma DeliveriesAt(s: State)
    requires Inv(s)
    ensures DeliveriesOk(s)
  {
  }

  // ---------------------------------------------------------------- neither sockets nor tasks change

  ghost predicate SameActors(s: State, s': State) {
    && SameFacts(s, s') && s'.tasks == s.tasks && s'.ledger == s.ledger
    && (s'.wiped || (!s.wiped && s'.closed == s.closed))
  }

  lemma ActorsKeep(s: State, s': State)
    requires SameActors(s, s') && Covered(s') && Limits(s') && IdentitiesOk(s') && DeliveriesOk(s') && Inv(s)
    ensures Inv(s')
  {
    hide TaskOk, Covered, Limits, IdentitiesOk, DeliveriesOk;
    TasksShift(s, s');
    assert !s'.wiped ==> forall c: Counter :: Balanced(s', c) <==> Balanced(s, c);
  }

  // ---------------------------------------------------------------- a task arrives

  ghost predicate GoodSpawn(s: State, task: Task) {
    && TaskOk(s, task) && Authorizes(task).None? && Drops(task).None? && !task.Retire?
    && (InAlarm(task) ==> forall u :: 0 <= u < |s.tasks| ==> !InAlarm(s.tasks[u]))
  }

  lemma SpawnBooks(s: State, task: Task)
    requires Books(s) && GoodSpawn(s, task)
    ensures Books(Spawn(s, task))
  {
    var s' := Spawn(s, task);
    forall c: Counter
      ensures Balanced(s, c) ==> Balanced(s', c)
    {
      TotalAppend(s.tasks, RetireWeight(c), task);
    }
    TotalAppend(s.tasks, RetireOne(), task);
    forall j: nat | j < |s.sockets|
      ensures Total(s'.tasks, DropOne(j)) == Total(s.tasks, DropOne(j))
    {
      TotalAppend(s.tasks, DropOne(j), task);
    }
  }

  lemma SpawnTasks(s: State, task: Task)
    requires TasksOk(s) && AuthorsOk(s) && AlarmsOk(s) && GoodSpawn(s, task)
    ensures TasksOk(Spawn(s, task)) && AuthorsOk(Spawn(s, task)) && AlarmsOk(Spawn(s, task))
  {
    var s' := Spawn(s, task);
    assert forall u :: 0 <= u < |s'.tasks| ==> s'.tasks[u] == if u == |s.tasks| then task else s.tasks[u];
    forall u | 0 <= u < |s'.tasks|
      ensures TaskOk(s', s'.tasks[u])
    {
      TaskShifts(s, s', s'.tasks[u]);
    }
  }

  lemma SpawnCovered(s: State, task: Task)
    requires Covered(s)
    ensures Covered(Spawn(s, task))
  {
    var s' := Spawn(s, task);
    if Rearming(s) {
      var u :| 0 <= u < |s.tasks| && WillRearm(s.tasks[u]);
      assert WillRearm(s'.tasks[u]);
    }
  }

  lemma SpawnKeeps(s: State, task: Task)
    requires Inv(s) && GoodSpawn(s, task)
    ensures Inv(Spawn(s, task))
  {
    SpawnBooks(s, task);
    SpawnTasks(s, task);
    SpawnCovered(s, task);
    DeliveriesShift(s, Spawn(s, task));
  }
}
