/** First come, first served: the locks' queues keep their order, and locks are taken in turn. */
module ManagerFairness {
  import opened Wrappers
  import opened Messages
  import opened SessionTable
  import opened ManagerMachine
  import opened ManagerLocks
  import opened ManagerFrame
  import opened ManagerInvariant
  import opened ManagerPipes
  import opened ManagerSteps
  import opened ManagerSessions
  import opened ManagerLeaks
  import opened ManagerOutcomes
  import WS = WorkerSpec

  // ---- one queue --------------------------------------------------------------------------

  /** Task t may leave the queue or come to its end; nobody else moves. */
  predicate KeepsOrder(q: seq<Rack>, t: Rack, q': seq<Rack>) {
    Without(q', t) == Without(q, t) && (t in q' ==> q' == q || q' == Without(q, t) + [t])
  }

  lemma {:induction false} WithoutTwice(q: seq<Rack>, t: Rack)
    ensures Without(Without(q, t), t) == Without(q, t)
  {
    if q != [] {
      WithoutTwice(q[1..], t);
      if q[0] != t {
        assert ([q[0]] + Without(q[1..], t))[1..] == Without(q[1..], t);
      }
    }
  }

  lemma {:induction false} WithoutEnd(q: seq<Rack>, t: Rack)
    ensures Without(q + [t], t) == Without(q, t)
  {
    if q == [] {
      assert [t][1..] == [];
    } else {
      WithoutEnd(q[1..], t);
      assert (q + [t])[1..] == q[1..] + [t];
    }
  }

  lemma {:induction false} WithoutAbsent(q: seq<Rack>, t: Rack)
    requires t !in q
    ensures Without(q, t) == q
  {
    if q != [] {
      WithoutAbsent(q[1..], t);
    }
  }

  lemma LeavesInOrder(q: seq<Rack>, t: Rack)
    ensures KeepsOrder(q, t, Without(q, t))
  {
    WithoutTwice(q, t);
    WithoutProperties(q, t);
  }

  lemma JoinsInOrder(q: seq<Rack>, t: Rack)
    requires t !in q
    ensures KeepsOrder(q, t, q + [t])
  {
    WithoutEnd(q, t);
    WithoutAbsent(q, t);
  }

  lemma OrderTrans(q: seq<Rack>, t: Rack, m: seq<Rack>, q': seq<Rack>)
    requires KeepsOrder(q, t, m) && KeepsOrder(m, t, q')
    ensures KeepsOrder(q, t, q')
  {
  }

  /** In the queue, a stands somewhere before b. */
  predicate Before(q: seq<Rack>, a: Rack, b: Rack) {
    exists i, j :: 0 <= i < j < |q| && q[i] == a && q[j] == b
  }

  lemma BeforeSkip(q: seq<Rack>, x: Rack, a: Rack, b: Rack)
    requires a != x
    ensures Before([x] + q, a, b) <==> Before(q, a, b)
  {
    if Before([x] + q, a, b) {
      var i, j :| 0 <= i < j < |[x] + q| && ([x] + q)[i] == a && ([x] + q)[j] == b;
      assert q[i - 1] == a && q[j - 1] == b;
    }
    if Before(q, a, b) {
      var i, j :| 0 <= i < j < |q| && q[i] == a && q[j] == b;
      assert ([x] + q)[i + 1] == a && ([x] + q)[j + 1] == b;
    }
  }

  lemma BeforeHead(q: seq<Rack>, a: Rack, b: Rack)
    requires b in q
    ensures Before([a] + q, a, b)
  {
    var j :| 0 <= j < |q| && q[j] == b;
    assert ([a] + q)[0] == a && ([a] + q)[j + 1] == b;
  }

  /** Taking a third one out changes nothing between two. */
  lemma {:induction false} BeforeWithout(q: seq<Rack>, t: Rack, a: Rack, b: Rack)
    requires a != t && b != t && Distinct(q)
    ensures Before(Without(q, t), a, b) <==> Before(q, a, b)
  {
    if q != [] {
      var rest := q[1..];
      assert q == [q[0]] + rest;
      RestDistinct(q);
      BeforeWithout(rest, t, a, b);
      WithoutProperties(rest, t);
      if q[0] == a {
        if Before(q, a, b) {
          BehindHead(q, a, b);
          BeforeHead(Without(rest, t), a, b);
        }
        if Before(Without(q, t), a, b) {
          assert b in rest;
          BeforeHead(rest, a, b);
        }
      } else {
        BeforeSkip(rest, q[0], a, b);
        if q[0] != t {
          BeforeSkip(Without(rest, t), q[0], a, b);
        }
      }
    }
  }

  lemma RestDistinct(q: seq<Rack>)
    requires q != [] && Distinct(q)
    ensures Distinct(q[1..]) && q[0] !in q[1..]
  {
  }

  lemma BehindHead(q: seq<Rack>, a: Rack, b: Rack)
    requires q != [] && Before(q, a, b)
    ensures b in q[1..]
  {
    var i, j :| 0 <= i < j < |q| && q[i] == a && q[j] == b;
    assert q[1..][j - 1] == b;
  }

  /** Whoever stands before another keeps standing there, as long as both are in the queue. */
  lemma OrderKept(q: seq<Rack>, t: Rack, q': seq<Rack>, a: Rack, b: Rack)
    requires Distinct(q) && Distinct(q') && KeepsOrder(q, t, q') && Before(q, a, b) && a in q' && b in q'
    requires t in q ==> t !in q' || q' == q
    ensures Before(q', a, b)
  {
    if a != t && b != t {
      BeforeWithout(q, t, a, b);
      BeforeWithout(q', t, a, b);
    }
  }

  // ---- all queues -------------------------------------------------------------------------

  ghost predicate QueuesKept(s: State, t: Rack, s': State) {
    forall x :: KeepsOrder(LockOf(s, x).queue, t, LockOf(s', x).queue)
  }

  lemma QueuesTrans(s: State, t: Rack, m: State, s': State)
    requires QueuesKept(s, t, m) && QueuesKept(m, t, s')
    ensures QueuesKept(s, t, s')
  {
    hide KeepsOrder;
    forall x ensures KeepsOrder(LockOf(s, x).queue, t, LockOf(s', x).queue) {
      OrderTrans(LockOf(s, x).queue, t, LockOf(m, x).queue, LockOf(s', x).queue);
    }
  }

  lemma SameQueues(s: State, t: Rack, s': State)
    requires forall x :: LockOf(s', x).queue == LockOf(s, x).queue
    ensures QueuesKept(s, t, s')
  {
  }

  lemma HolderQueues(s: State, t: Rack, x: LockName, pc: Pc)
    requires t in s.tasks
    ensures QueuesKept(s, t, Take(s, t, x, pc)) && QueuesKept(s, t, Release(s, t, x, pc))
  {
  }

  lemma EnqueueQueues(s: State, t: Rack, x: LockName, pc: Pc)
    requires t in s.tasks && t !in LockOf(s, x).queue
    ensures QueuesKept(s, t, Enqueue(s, t, x, pc))
  {
    JoinsInOrder(LockOf(s, x).queue, t);
  }

  lemma DequeueQueues(s: State, t: Rack, x: LockName, pc: Pc)
    requires t in s.tasks
    ensures QueuesKept(s, t, Dequeue(s, t, x, pc)) && t !in LockOf(Dequeue(s, t, x, pc), x).queue
    ensures forall y :: y != x ==> LockOf(Dequeue(s, t, x, pc), y) == LockOf(s, y)
  {
    LeavesInOrder(LockOf(s, x).queue, t);
    WithoutProperties(LockOf(s, x).queue, t);
  }

  lemma GiveBackQueues(s: State, t: Rack, search: Option<LockId>)
    requires t in s.tasks
    ensures QueuesKept(s, t, GiveBack(s, t, search))
    ensures t in GiveBack(s, t, search).tasks && GiveBack(s, t, search).live == s.live
  {
    if search.Some? {
      HolderQueues(s, t, Search(search.value), Running(None));
    }
  }

  lemma ObtainedQueues(env: WS.Env, s: State, t: Rack, p: Pid, search: Option<LockId>)
    requires t in s.tasks
    ensures QueuesKept(s, t, Obtained(env, s, t, p, search))
  {
    hide QueuesKept, Closed, GiveBack, Take;
    GiveBackQueues(s, t, search);
    var s1 := GiveBack(s, t, search);
    var pc := if p in s.live then AwaitAnswer(p, 0) else Done(Failed(ClosedHandles));
    HolderQueues(s1, t, Busy(p), pc);
    var s2 := Take(s1, t, Busy(p), pc);
    QueuesTrans(s, t, s1, s2);
    TakeSame(s1, t, Busy(p), pc);
    ClosedFields(s2, t);
    SameQueues(s2, t, Obtained(env, s, t, p, search));
    QueuesTrans(s, t, s2, Obtained(env, s, t, p, search));
  }

  lemma TryBusyQueues(env: WS.Env, s: State, t: Rack, p: Pid, search: Option<LockId>)
    requires t in s.tasks && t !in LockOf(s, Busy(p)).queue
    ensures QueuesKept(s, t, TryBusy(env, s, t, p, search))
  {
    hide QueuesKept;
    if Available(s, Busy(p)) {
      ObtainedQueues(env, s, t, p, search);
    } else {
      EnqueueQueues(s, t, Busy(p), WaitBusy(p, search));
    }
  }

  /** Task t is in no queue for a busy lock. */
  ghost predicate NotQueued(s: State, t: Rack) {
    forall p :: t !in LockOf(s, Busy(p)).queue
  }

  lemma AfterSearchQueues(env: WS.Env, s: State, t: Rack, id: LockId, choice: Pid)
    requires t in s.tasks && s.tasks[t].msg.session.Some? && NotQueued(s, t)
    ensures QueuesKept(s, t, AfterSearch(env, s, t, id, choice))
  {
    hide QueuesKept, Closed, TryBusy;
    var sid := s.tasks[t].msg.session.value;
    if sid in s.sessions && s.sessions[sid].pid.Some? && s.sessions[sid].pid.value in s.live {
      TryBusyQueues(env, s, t, s.sessions[sid].pid.value, Some(id));
    } else if sid in s.sessions && s.sessions[sid].pid.None? && s.live != {} {
      var m := Chosen(s, sid, id, choice);
      assert forall x :: LockOf(m, x) == LockOf(s, x);
      SameQueues(s, t, m);
      TryBusyQueues(env, m, t, choice, Some(id));
      QueuesTrans(s, t, m, TryBusy(env, m, t, choice, Some(id)));
    } else {
      var s1 := SetPc(s, t, Done(Failed(if sid in s.sessions then NoProcess else NoEntry)));
      ClosedFields(s1, t);
      SameQueues(s, t, AfterSearch(env, s, t, id, choice));
    }
  }

  lemma FreeScanQueues(env: WS.Env, s: State, t: Rack, choice: Pid)
    requires t in s.tasks && NotQueued(s, t)
    ensures QueuesKept(s, t, FreeScan(env, s, t, choice))
  {
    hide QueuesKept, TryBusy;
    if exists p :: p in s.live && Unlocked(s, p) {
      TryBusyQueues(env, s, t, choice, None);
    } else {
      SameQueues(s, t, FreeScan(env, s, t, choice));
    }
  }

  lemma ContinueQueues(env: WS.Env, s: State, t: Rack, choice: Pid)
    requires t in s.tasks && NotQueued(s, t)
    ensures QueuesKept(s, t, Continue(env, s, t, choice))
  {
    hide QueuesKept, AfterSearch, FreeScan;
    match s.tasks[t].pc
    case Running(Some(id)) =>
      if s.tasks[t].msg.session.Some? {
        AfterSearchQueues(env, s, t, id, choice);
      } else {
        SameQueues(s, t, s);
      }
    case Running(None) => FreeScanQueues(env, s, t, choice);
    case _ => SameQueues(s, t, s);
  }

  lemma SameNotQueued(s: State, t: Rack, s': State)
    requires NotQueued(s, t) && forall p :: LockOf(s', Busy(p)) == LockOf(s, Busy(p))
    ensures NotQueued(s', t)
  {
  }

  lemma EnterNew(s: State, t: Rack, sid: SessionId)
    requires t in s.tasks && NotQueued(s, t)
    ensures var s' := Take(NewEntry(s, sid), t, Search(s.nextLock), Running(Some(s.nextLock)));
            QueuesKept(s, t, s') && NotQueued(s', t)
  {
    hide QueuesKept, NotQueued;
    var s1 := NewEntry(s, sid);
    assert forall x :: LockOf(s1, x) == LockOf(s, x);
    SameQueues(s, t, s1);
    HolderQueues(s1, t, Search(s.nextLock), Running(Some(s.nextLock)));
    QueuesTrans(s, t, s1, Take(s1, t, Search(s.nextLock), Running(Some(s.nextLock))));
    TakeOther(s1, t, Search(s.nextLock), Running(Some(s.nextLock)));
    SameNotQueued(s, t, Take(s1, t, Search(s.nextLock), Running(Some(s.nextLock))));
  }

  lemma EnterKnown(s: State, t: Rack, id: LockId)
    requires t in s.tasks && NotQueued(s, t) && t !in LockOf(s, Search(id)).queue
    ensures var a, b := Take(s, t, Search(id), Running(Some(id))), Enqueue(s, t, Search(id), WaitSearch(id));
            QueuesKept(s, t, a) && NotQueued(a, t) && QueuesKept(s, t, b) && NotQueued(b, t)
  {
    hide QueuesKept;
    HolderQueues(s, t, Search(id), Running(Some(id)));
    EnqueueQueues(s, t, Search(id), WaitSearch(id));
  }

  lemma SpawnQueues(s: State, t: Rack, call: Call, msg: WorkerMessage)
    requires forall x :: t !in LockOf(s, x).queue
    ensures var s0 := Spawn(s, t, call, msg);
            QueuesKept(s, t, s0) && NotQueued(s0, t) && forall x :: LockOf(s0, x) == LockOf(s, x)
  {
    SameQueues(s, t, Spawn(s, t, call, msg));
  }

  lemma EnterQueues(s: State, t: Rack, call: Call, msg: WorkerMessage)
    requires forall x :: t !in LockOf(s, x).queue
    ensures QueuesKept(s, t, Enter(s, t, call, msg)) && NotQueued(Enter(s, t, call, msg), t)
  {
    hide QueuesKept, NotQueued, Take, Enqueue, NewEntry, SetPc, WithLock;
    SpawnQueues(s, t, call, msg);
    var s0 := Spawn(s, t, call, msg);
    if msg.session.Some? {
      var sid := msg.session.value;
      if call.Init? && sid in s.sessions {
        EndedQueues(s0, t, Failed(AlreadyExists));
      } else if Clears(call) && (sid !in s.sessions || s.sessions[sid].pid.None?) {
        EndedQueues(s0, t, Returned(None));
      } else if sid !in s.sessions {
        EnterNew(s0, t, sid);
      } else {
        EnterKnown(s0, t, s.sessions[sid].lock);
      }
      QueuesTrans(s, t, s0, Enter(s, t, call, msg));
    }
  }

  lemma EndedQueues(s: State, t: Rack, outcome: Outcome)
    requires t in s.tasks && NotQueued(s, t)
    ensures QueuesKept(s, t, SetPc(s, t, Done(outcome))) && NotQueued(SetPc(s, t, Done(outcome)), t)
  {
    assert forall x :: LockOf(SetPc(s, t, Done(outcome)), x) == LockOf(s, x);
    SameQueues(s, t, SetPc(s, t, Done(outcome)));
  }

  lemma AbsentEverywhere(s: State, t: Rack)
    requires LocksOk(s) && (t in s.tasks ==> Waits(s.tasks[t].pc).None?)
    ensures forall x :: t !in LockOf(s, x).queue
  {
    forall x ensures t !in LockOf(s, x).queue {
      assert LockOf(s, x) == At(s.locks, x);
    }
  }

  lemma OnlyIn(s: State, t: Rack, x: LockName)
    requires LocksOk(s) && t in s.tasks && Waits(s.tasks[t].pc) == Some(x)
    ensures forall y :: y != x ==> t !in LockOf(s, y).queue
  {
    forall y | y != x ensures t !in LockOf(s, y).queue {
      assert LockOf(s, y) == At(s.locks, y);
    }
  }

  lemma WakeQueues(env: WS.Env, s: State, step: Step)
    requires LocksOk(s) && Enabled(env, s, step) && (step.WakeSearch? || step.WakeBusy? || step.WakeEvent?)
    ensures QueuesKept(s, step.t, Apply(env, s, step))
  {
    hide QueuesKept, LocksOk, Take, Dequeue, AfterSearch, Obtained;
    var t := step.t;
    match step
    case WakeEvent(_, choice) =>
      var s1 := SetPc(s, t, Running(None)).(freeEvent := false);
      AbsentEverywhere(s, t);
      assert forall x :: LockOf(s1, x) == LockOf(s, x);
      SameQueues(s, t, s1);
      ContinueQueues(env, s1, t, choice);
      QueuesTrans(s, t, s1, Apply(env, s, step));
    case WakeSearch(_, choice) =>
      var x := Search(s.tasks[t].pc.id);
      var s1 := Dequeue(s, t, x, Running(None));
      OnlyIn(s, t, x);
      DequeueQueues(s, t, x, Running(None));
      DequeueSame(s, t, x, Running(None));
      var s2 := Take(s1, t, x, Running(Some(x.id)));
      HolderQueues(s1, t, x, Running(Some(x.id)));
      TakeSame(s1, t, x, Running(Some(x.id)));
      TakeOther(s1, t, x, Running(Some(x.id)));
      QueuesTrans(s, t, s1, s2);
      AfterSearchQueues(env, s2, t, x.id, choice);
      QueuesTrans(s, t, s2, Apply(env, s, step));
    case WakeBusy(_) =>
      var p, search := s.tasks[t].pc.pid, s.tasks[t].pc.search;
      DequeueQueues(s, t, Busy(p), Running(search));
      DequeueSame(s, t, Busy(p), Running(search));
      ObtainedQueues(env, Dequeue(s, t, Busy(p), Running(search)), t, p, search);
      QueuesTrans(s, t, Dequeue(s, t, Busy(p), Running(search)), Apply(env, s, step));
  }

  lemma TakeOther(s: State, t: Rack, x: LockName, pc: Pc)
    requires t in s.tasks
    ensures forall y :: y != x ==> LockOf(Take(s, t, x, pc), y) == LockOf(s, y)
  {
  }

  /** Every step of a task keeps the order in all queues; a newcomer comes to the end. */
  lemma StepQueues(env: WS.Env, s: State, step: Step)
    requires LocksOk(s) && Enabled(env, s, step) && ByTask(step)
    ensures QueuesKept(s, step.t, Apply(env, s, step))
  {
    hide QueuesKept, LocksOk;
    var t := step.t;
    match step
    case Start(_, call, msg, choice) =>
      AbsentEverywhere(s, t);
      EnterQueues(s, t, call, msg);
      ContinueQueues(env, Enter(s, t, call, msg), t, choice);
      hide Enter, Continue;
      QueuesTrans(s, t, Enter(s, t, call, msg), Apply(env, s, step));
    case Receive(_) =>
      var s1 := Popped(env, s, s.tasks[t].pc.pid);
      ConcludeQueues(s1, t, VerdictFor(env, s, t));
      SameQueues(s, t, s1);
      hide Conclude;
      QueuesTrans(s, t, s1, Apply(env, s, step));
    case Interrupt(_, restart) => ConcludeQueues(s, t, End(Failed(AnswerInterrupted), restart));
    case Abandon(_) => AbandonQueues(s, t);
    case _ => WakeQueues(env, s, step);
  }

  lemma ConcludeQueues(s: State, t: Rack, verdict: Verdict)
    requires t in s.tasks && s.tasks[t].pc.AwaitAnswer?
    ensures QueuesKept(s, t, Conclude(s, t, verdict))
  {
    hide QueuesKept, Finish, Release;
    match verdict
    case Retry => SameQueues(s, t, Conclude(s, t, verdict));
    case End(outcome, restart) =>
      var p := s.tasks[t].pc.pid;
      FinishedLocks(s, t, p, outcome, restart);
      HolderQueues(s, t, Busy(p), Done(outcome));
      SameQueues(Release(s, t, Busy(p), Done(outcome)), t, Conclude(s, t, verdict));
      QueuesTrans(s, t, Release(s, t, Busy(p), Done(outcome)), Conclude(s, t, verdict));
  }

  lemma AbandonQueues(s: State, t: Rack)
    requires t in s.tasks
    ensures QueuesKept(s, t, Abandoned(s, t))
  {
    hide QueuesKept, Closed, Dequeue;
    var pc := Done(Failed(AcquireInterrupted));
    match Waits(s.tasks[t].pc)
    case Some(x) =>
      DequeueQueues(s, t, x, pc);
      DequeueSame(s, t, x, pc);
      ClosedFields(Dequeue(s, t, x, pc), t);
      SameQueues(Dequeue(s, t, x, pc), t, Abandoned(s, t));
      QueuesTrans(s, t, Dequeue(s, t, x, pc), Abandoned(s, t));
    case None =>
      ClosedFields(SetPc(s, t, pc), t);
      SameQueues(s, t, Abandoned(s, t));
  }

  // ---- in turn ----------------------------------------------------------------------------

  /** It is task t's turn: the lock is free and nobody is queued before t. */
  predicate InTurn(s: State, t: Rack, x: LockName) {
    LockOf(s, x).holder.None? && (LockOf(s, x).queue == [] || LockOf(s, x).queue[0] == t)
  }

  /** What task t holds in s' and did not hold in s was its turn to take. */
  ghost predicate TookInTurn(s: State, t: Rack, s': State) {
    forall x :: LockOf(s', x).holder == Some(t) && LockOf(s, x).holder != Some(t) ==> InTurn(s, t, x)
  }

  /** A task that goes to a process took its busy lock in turn, if it took it. */
  lemma GoesInTurn(env: WS.Env, s: State, t: Rack, p: Pid, search: Option<LockId>, s': State)
    requires GoesTo(env, s, t, p, search, s') && Owns(s', t, HeldAt(s'.tasks[t].pc))
    requires search.Some? ==> InTurn(s, t, Search(search.value)) || LockOf(s, Search(search.value)).holder == Some(t)
    ensures TookInTurn(s, t, s')
  {
  }

  lemma OwnsNothing(s: State, t: Rack, s': State)
    requires Owns(s', t, {})
    ensures TookInTurn(s, t, s')
  {
  }

  lemma FreshInTurn(s: State, t: Rack)
    requires FreshOk(s)
    ensures InTurn(s, t, Search(s.nextLock))
  {
  }

  /** How a request of session sid can have come to rest in the step it started in. */
  ghost predicate StartedFor(env: WS.Env, s: State, t: Rack, sid: SessionId, choice: Pid, s': State) {
    if sid !in s.sessions then GoesTo(env, s, t, choice, Some(s.nextLock), s')
    else
      var id := s.sessions[sid].lock;
      if Available(s, Search(id)) then
        s.sessions[sid].pid.Some? && GoesTo(env, s, t, s.sessions[sid].pid.value, Some(id), s')
      else t in s'.tasks && s'.tasks[t].pc == WaitSearch(id)
  }

  lemma StartedInTurn(env: WS.Env, s: State, t: Rack, sid: SessionId, choice: Pid, s': State)
    requires FreshOk(s) && StartedFor(env, s, t, sid, choice, s') && Owns(s', t, HeldAt(s'.tasks[t].pc))
    ensures TookInTurn(s, t, s')
  {
    FreshInTurn(s, t);
    hide GoesTo, TookInTurn, FreshOk, Owns;
    if sid !in s.sessions {
      GoesInTurn(env, s, t, choice, Some(s.nextLock), s');
    } else {
      var id := s.sessions[sid].lock;
      if Available(s, Search(id)) {
        GoesInTurn(env, s, t, s.sessions[sid].pid.value, Some(id), s');
      } else {
        OwnsNothing(s, t, s');
      }
    }
  }

  lemma StartInTurn(env: WS.Env, n: nat, s: State, t: Rack, call: Call, msg: WorkerMessage, choice: Pid)
    requires n > 0 && Invariant(n, s) && Enabled(env, s, Start(t, call, msg, choice))
    requires LocksOk(Apply(env, s, Start(t, call, msg, choice)))
    ensures TookInTurn(s, t, Apply(env, s, Start(t, call, msg, choice)))
  {
    hide LocksOk, FreshOk, TablesOk, TasksOk, EventOk, Apply, Enabled, GoesTo, TookInTurn, Kept, LeastLoaded, Bind,
         Scans, LeavesBehind, Available;
    var s' := Apply(env, s, Start(t, call, msg, choice));
    Starts(env, n, s, t, call, msg, choice);
    StepKept(env, n, s, Start(t, call, msg, choice));
    StartThere(s, t, call, msg, choice, s');
    if s'.tasks[t].pc.Done? {
      StartLeavesNothing(s, t, call, msg, choice, s');
    } else {
      OwnsHeld(s', t);
      match msg.session
      case None => ScanInTurn(env, s, t, choice, s');
      case Some(sid) => StartedInTurn(env, s, t, sid, choice, s');
    }
  }

  lemma StartThere(s: State, t: Rack, call: Call, msg: WorkerMessage, choice: Pid, s': State)
    requires LeavesBehind(s, Start(t, call, msg, choice), t, s')
    ensures t in s'.tasks
  {
  }

  lemma StartLeavesNothing(s: State, t: Rack, call: Call, msg: WorkerMessage, choice: Pid, s': State)
    requires LeavesBehind(s, Start(t, call, msg, choice), t, s') && s'.tasks[t].pc.Done?
    ensures TookInTurn(s, t, s')
  {
    assert Owns(s', t, {});
    hide LockOf;
  }

  lemma ScanInTurn(env: WS.Env, s: State, t: Rack, choice: Pid, s': State)
    requires Scans(env, s, t, choice, s') && Owns(s', t, HeldAt(s'.tasks[t].pc))
    ensures TookInTurn(s, t, s')
  {
    hide GoesTo, TookInTurn, Owns;
    if exists p :: p in s.live && LockOf(s, Busy(p)).holder.None? {
      GoesInTurn(env, s, t, choice, None, s');
    } else {
      OwnsNothing(s, t, s');
    }
  }

  lemma OwnsPromised(s: State, t: Rack, x: LockName, s': State)
    requires Promised(s, x, t) && forall y :: LockOf(s', y).holder == Some(t) ==> y == x
    ensures TookInTurn(s, t, s')
  {
  }

  lemma BusyInTurn(env: WS.Env, n: nat, s: State, t: Rack)
    requires n > 0 && Invariant(n, s) && Enabled(env, s, WakeBusy(t)) && LocksOk(Apply(env, s, WakeBusy(t)))
    ensures TookInTurn(s, t, Apply(env, s, WakeBusy(t)))
  {
    var s', p := Apply(env, s, WakeBusy(t)), s.tasks[t].pc.pid;
    StepKept(env, n, s, WakeBusy(t));
    WakesForBusy(env, s, t);
    hide Invariant, Apply, LocksOk, Kept, EndsAs, ChannelOf, LockOf, TookInTurn, Promised;
    if !s'.tasks[t].pc.Done? {
      OwnsHeld(s', t);
    }
    OwnsPromised(s, t, Busy(p), s');
  }

  lemma SearchInTurn(env: WS.Env, n: nat, s: State, t: Rack, choice: Pid)
    requires n > 0 && Invariant(n, s) && Enabled(env, s, WakeSearch(t, choice))
    requires LocksOk(Apply(env, s, WakeSearch(t, choice)))
    ensures TookInTurn(s, t, Apply(env, s, WakeSearch(t, choice)))
  {
    var s', id, sid := Apply(env, s, WakeSearch(t, choice)), s.tasks[t].pc.id, s.tasks[t].msg.session.value;
    StepKept(env, n, s, WakeSearch(t, choice));
    WakesForSearch(env, n, s, t, choice);
    assert InTurn(s, t, Search(id));
    hide Invariant, Apply, LocksOk, Kept, EndsAs, GoesTo, LockOf, TookInTurn, InTurn, Promised, ChoiceAllowed;
    if s'.tasks[t].pc.Done? {
      OwnsPromised(s, t, Search(id), s');
    } else {
      OwnsHeld(s', t);
      FoundInTurn(env, s, t, sid, id, s');
    }
  }

  lemma FoundInTurn(env: WS.Env, s: State, t: Rack, sid: SessionId, id: LockId, s': State)
    requires t in s.tasks && FindsSession(env, s, t, sid, id, s') && !s'.tasks[t].pc.Done?
    requires Owns(s', t, HeldAt(s'.tasks[t].pc)) && InTurn(s, t, Search(id))
    ensures TookInTurn(s, t, s')
  {
    hide GoesTo, TookInTurn, InTurn, Owns;
    GoesInTurn(env, s, t, s.sessions[sid].pid.value, Some(id), s');
  }

  lemma EventInTurn(env: WS.Env, n: nat, s: State, t: Rack, choice: Pid)
    requires n > 0 && Invariant(n, s) && Enabled(env, s, WakeEvent(t, choice))
    requires LocksOk(Apply(env, s, WakeEvent(t, choice)))
    ensures TookInTurn(s, t, Apply(env, s, WakeEvent(t, choice)))
  {
    var s' := Apply(env, s, WakeEvent(t, choice));
    StepKept(env, n, s, WakeEvent(t, choice));
    WakesForEvent(env, n, s, t, choice);
    hide Invariant, Apply, LocksOk, Kept, Scans, LockOf, TookInTurn, ContinueAllowed;
    if s'.tasks[t].pc.Done? {
      assert Owns(s', t, {});
      OwnsNothing(s, t, s');
    } else {
      OwnsHeld(s', t);
      ScanInTurn(env, s, t, choice, s');
    }
  }

  /** Steps that take no lock. */
  lemma QuietInTurn(env: WS.Env, n: nat, s: State, step: Step)
    requires n > 0 && Invariant(n, s) && Enabled(env, s, step) && LocksOk(Apply(env, s, step))
    requires step.Receive? || step.Interrupt? || step.Abandon?
    ensures TookInTurn(s, step.t, Apply(env, s, step))
  {
    var t, s' := step.t, Apply(env, s, step);
    StepKept(env, n, s, step);
    OwnsHeld(s, t);
    if !s'.tasks[t].pc.Done? {
      OwnsHeld(s', t);
      StaysAwaiting(env, s, step);
    }
    hide Invariant, Apply, LocksOk, Kept, VerdictFor;
  }

  lemma StaysAwaiting(env: WS.Env, s: State, step: Step)
    requires Enabled(env, s, step) && (step.Receive? || step.Interrupt? || step.Abandon?)
    requires step.t in Apply(env, s, step).tasks && !Apply(env, s, step).tasks[step.t].pc.Done?
    ensures HeldAt(Apply(env, s, step).tasks[step.t].pc) == HeldAt(s.tasks[step.t].pc)
  {
    var t := step.t;
    match step
    case Receive(_) => ConcludeTasks(Popped(env, s, s.tasks[t].pc.pid), t, VerdictFor(env, s, t));
    case Interrupt(_, restart) => FinishedTasks(s, t, s.tasks[t].pc.pid, Failed(AnswerInterrupted), restart);
    case Abandon(_) => AbandonQuiet(s, t);
  }

  lemma ConcludeTasks(s: State, t: Rack, verdict: Verdict)
    requires t in s.tasks && s.tasks[t].pc.AwaitAnswer?
    ensures t in Conclude(s, t, verdict).tasks
    ensures Conclude(s, t, verdict).tasks[t].pc.Done?
            || (Conclude(s, t, verdict).tasks[t].pc.AwaitAnswer?
                  && Conclude(s, t, verdict).tasks[t].pc.pid == s.tasks[t].pc.pid)
  {
    hide Finish;
    if verdict.End? {
      FinishedTasks(s, t, s.tasks[t].pc.pid, verdict.outcome, verdict.restart);
    }
  }

  /** Locks are taken in turn, in every step: only the head of a queue, or a newcomer if there is no
      queue. */
  lemma StepInTurn(env: WS.Env, n: nat, s: State, step: Step)
    requires n > 0 && Invariant(n, s) && Enabled(env, s, step) && LocksOk(Apply(env, s, step)) && ByTask(step)
    ensures TookInTurn(s, step.t, Apply(env, s, step))
  {
    hide Invariant, Enabled, Apply, LocksOk, TookInTurn;
    if step.Start? {
      StartInTurn(env, n, s, step.t, step.call, step.msg, step.choice);
    } else if step.Receive? || step.Interrupt? || step.Abandon? {
      QuietInTurn(env, n, s, step);
    } else {
      match step
      case WakeBusy(t) => BusyInTurn(env, n, s, t);
      case WakeSearch(t, choice) => SearchInTurn(env, n, s, t, choice);
      case WakeEvent(t, choice) => EventInTurn(env, n, s, t, choice);
    }
  }

  // ---- over runs --------------------------------------------------------------------------

  /** Both are queued for the lock, a before b. */
  ghost predicate Queued(s: State, x: LockName, a: Rack, b: Rack) {
    a in LockOf(s, x).queue && b in LockOf(s, x).queue
  }

  lemma QueueDistinct(s: State, x: LockName)
    requires LocksOk(s)
    ensures Distinct(LockOf(s, x).queue)
  {
    assert LockOf(s, x) == At(s.locks, x);
  }

  lemma StillBefore(env: WS.Env, n: nat, s: State, step: Step, x: LockName, a: Rack, b: Rack)
    requires n > 0 && Invariant(n, s) && Enabled(env, s, step) && LocksOk(Apply(env, s, step))
    requires Before(LockOf(s, x).queue, a, b) && Queued(Apply(env, s, step), x, a, b)
    ensures Before(LockOf(Apply(env, s, step), x).queue, a, b)
  {
    hide Apply, Enabled, TablesOk, TasksOk, EventOk, LocksOk, FreshOk, KeepsOrder, Before, LockOf;
    if ByTask(step) {
      StepQueues(env, s, step);
      QueueDistinct(s, x);
      QueueDistinct(Apply(env, s, step), x);
      if step.t in LockOf(s, x).queue {
        RejoinsNever(env, n, s, step, x);
      }
      OrderKept(LockOf(s, x).queue, step.t, LockOf(Apply(env, s, step), x).queue, a, b);
    } else {
      WorkerLocks(env, s, step, x);
    }
  }

  lemma WorkerLocks(env: WS.Env, s: State, step: Step, x: LockName)
    requires Enabled(env, s, step) && !ByTask(step)
    ensures LockOf(Apply(env, s, step), x) == LockOf(s, x)
  {
    WorkerSame(env, s, step);
    hide Apply, Enabled;
  }

  /** A queued task that moves leaves the queue and does not come back in the same step. */
  lemma RejoinsNever(env: WS.Env, n: nat, s: State, step: Step, x: LockName)
    requires n > 0 && Invariant(n, s) && Enabled(env, s, step) && LocksOk(Apply(env, s, step)) && ByTask(step)
    requires step.t in LockOf(s, x).queue
    ensures step.t !in LockOf(Apply(env, s, step), x).queue
  {
    hide Apply, Enabled, TablesOk, TasksOk, EventOk, LocksOk, FreshOk, LockOf;
    var t, s' := step.t, Apply(env, s, step);
    WaitsFor(s, t, x);
    if step.t in LockOf(s', x).queue {
      WaitsFor(s', t, x);
      LeavesQueue(env, n, s, step);
    }
  }

  lemma WaitsFor(s: State, t: Rack, x: LockName)
    requires LocksOk(s) && t in LockOf(s, x).queue
    ensures t in s.tasks && Waits(s.tasks[t].pc) == Some(x)
  {
    assert LockOf(s, x) == At(s.locks, x);
  }

  lemma LeavesQueue(env: WS.Env, n: nat, s: State, step: Step)
    requires n > 0 && Invariant(n, s) && Enabled(env, s, step) && ByTask(step) && step.t in s.tasks
    requires Waits(s.tasks[step.t].pc).Some?
    ensures step.t in Apply(env, s, step).tasks
    ensures Waits(Apply(env, s, step).tasks[step.t].pc) != Waits(s.tasks[step.t].pc)
  {
    var t := step.t;
    hide Invariant, AfterSearch, Obtained, Closed, FindsSession, LockOf;
    match step
    case Abandon(_) => AbandonQuiet(s, t);
    case WakeSearch(_, choice) =>
      WakesForSearch(env, n, s, t, choice);
      hide Apply, ChoiceAllowed, Promised;
      FoundLeaves(env, s, t, s.tasks[t].msg.session.value, s.tasks[t].pc.id, Apply(env, s, step));
    case WakeBusy(_) =>
      WakesForBusy(env, s, t);
      hide Apply, Promised, ChannelOf;
  }

  lemma FoundLeaves(env: WS.Env, s: State, t: Rack, sid: SessionId, id: LockId, s': State)
    requires t in s.tasks && FindsSession(env, s, t, sid, id, s')
    ensures t in s'.tasks && Waits(s'.tasks[t].pc) != Some(Search(id))
  {
  }

  lemma {:induction false} NoOvertaking(env: WS.Env, n: nat, run: Run, i: nat, j: nat, x: LockName, a: Rack, b: Rack)
    requires n > 0 && IsRun(env, n, run) && i <= j < |run.states| && Before(LockOf(run.states[i], x).queue, a, b)
    requires forall k :: i <= k <= j ==> Queued(run.states[k], x, a, b)
    ensures Before(LockOf(run.states[j], x).queue, a, b)
  {
    hide IsRun, Enabled, Apply, PipesOk, Before, Queued, LockOf, LocksOk, FreshOk, TablesOk, TasksOk, EventOk;
    RunStart(env, n, run);
    if i < j {
      NoOvertaking(env, n, run, i, j - 1, x, a, b);
      RunGood(env, n, run, j - 1);
      RunGood(env, n, run, j);
      RunStep(env, n, run, j - 1);
      StillBefore(env, n, run.states[j - 1], run.steps[j - 1], x, a, b);
    }
  }

  lemma NotHeadYet(q: seq<Rack>, a: Rack, b: Rack)
    requires Before(q, a, b) && Distinct(q)
    ensures q != [] && q[0] != b
  {
  }

  lemma HolderNotQueued(s: State, x: LockName, b: Rack)
    requires LocksOk(s) && b in LockOf(s, x).queue
    ensures LockOf(s, x).holder != Some(b)
  {
    assert LockOf(s, x) == At(s.locks, x);
  }

  lemma NotTaken(env: WS.Env, n: nat, s: State, step: Step, x: LockName, a: Rack, b: Rack)
    requires n > 0 && Invariant(n, s) && Enabled(env, s, step) && LocksOk(Apply(env, s, step))
    requires Before(LockOf(s, x).queue, a, b) && Queued(s, x, a, b)
    ensures LockOf(Apply(env, s, step), x).holder != Some(b)
  {
    QueueDistinct(s, x);
    NotHeadYet(LockOf(s, x).queue, a, b);
    HolderNotQueued(s, x, b);
    if ByTask(step) {
      StepKept(env, n, s, step);
      StepInTurn(env, n, s, step);
      hide Apply, Enabled, Invariant, LocksOk, Before, LeavesBehind;
    } else {
      WorkerSame(env, s, step);
    }
  }

  /** First come, first served, over whole runs: while two requests wait for a lock, the later one
      does not get it, whatever others do. */
  lemma FirstComeFirstServed(env: WS.Env, n: nat, run: Run, i: nat, j: nat, x: LockName, a: Rack, b: Rack)
    requires n > 0 && IsRun(env, n, run) && i <= j < |run.steps| && Before(LockOf(run.states[i], x).queue, a, b)
    requires |run.states| == |run.steps| + 1 && forall k :: i <= k <= j ==> Queued(run.states[k], x, a, b)
    ensures LockOf(run.states[j + 1], x).holder != Some(b)
  {
    hide IsRun, Enabled, Apply, PipesOk, Before, Queued, LockOf, LocksOk, FreshOk, TablesOk, TasksOk, EventOk;
    NoOvertaking(env, n, run, i, j, x, a, b);
    RunGood(env, n, run, j);
    RunGood(env, n, run, j + 1);
    RunStep(env, n, run, j);
    NotTaken(env, n, run.states[j], run.steps[j], x, a, b);
  }
}
