/** Who holds and who awaits the manager's locks, on every run. */
module ManagerLocks {
  import opened Wrappers
  import opened Messages
  import opened SessionTable
  import opened ManagerMachine
  import WS = WorkerSpec

  predicate Holds(pc: Pc, x: LockName) {
    match pc
    case Running(search) => search.Some? && x == Search(search.value)
    case WaitBusy(_, search) => search.Some? && x == Search(search.value)
    case AwaitAnswer(p, _) => x == Busy(p)
    case _ => false
  }

  predicate Distinct(queue: seq<Rack>) {
    forall i, j :: 0 <= i < j < |queue| ==> queue[i] != queue[j]
  }

  /** Search locks and the busy locks of replaced processes can be left held for ever. */
  predicate Leakable(live: set<Pid>, x: LockName) {
    x.Search? || x.pid !in live
  }

  ghost predicate QueuesOk(locks: Locks, tasks: Tasks) {
    && (forall x, u :: u in At(locks, x).queue ==> u in tasks && Waits(tasks[u].pc) == Some(x))
    && (forall u :: u in tasks && Waits(tasks[u].pc).Some? ==> u in At(locks, Waits(tasks[u].pc).value).queue)
    && (forall x :: Distinct(At(locks, x).queue))
  }

  ghost predicate HoldersOk(locks: Locks, tasks: Tasks, live: set<Pid>) {
    && (forall u, x :: u in tasks && Holds(tasks[u].pc, x) ==> At(locks, x).holder == Some(u))
    && (forall x :: At(locks, x).holder.Some? ==>
          var u := At(locks, x).holder.value;
          u in tasks && (Holds(tasks[u].pc, x) || (tasks[u].pc.Done? && Leakable(live, x))))
  }

  /** Queues and holders agree with where tasks are, and answers are awaited from live
      processes only. */
  ghost predicate LocksOk(s: State) {
    && QueuesOk(s.locks, s.tasks) && HoldersOk(s.locks, s.tasks, s.live)
    && (forall u :: u in s.tasks && s.tasks[u].pc.AwaitAnswer? ==> s.tasks[u].pc.pid in s.live)
  }

  // ---- one task moves, one lock changes ---------------------------------------------------

  function Moved(tasks: Tasks, t: Rack, pc: Pc): Tasks
    requires t in tasks
  {
    tasks[t := tasks[t].(pc := pc)]
  }

  lemma MoveQueues(locks: Locks, tasks: Tasks, t: Rack, x: LockName, l: Lock, pc: Pc)
    requires QueuesOk(locks, tasks) && t in tasks
    requires Waits(tasks[t].pc) == None || Waits(tasks[t].pc) == Some(x)
    requires Waits(pc) == None || Waits(pc) == Some(x)
    requires Distinct(l.queue) && (t in l.queue <==> Waits(pc) == Some(x))
    requires forall u :: u != t ==> (u in l.queue <==> u in At(locks, x).queue)
    ensures QueuesOk(locks[x := l], Moved(tasks, t, pc))
  {
    var locks', tasks' := locks[x := l], Moved(tasks, t, pc);
    forall y, u | u in At(locks', y).queue ensures u in tasks' && Waits(tasks'[u].pc) == Some(y) {
      assert u != t ==> u in At(locks, y).queue;
    }
    forall u | u in tasks' && Waits(tasks'[u].pc).Some? ensures u in At(locks', Waits(tasks'[u].pc).value).queue {
      assert u != t ==> u in At(locks, Waits(tasks[u].pc).value).queue;
    }
    forall y ensures Distinct(At(locks', y).queue) {
      assert Distinct(At(locks, y).queue);
    }
  }

  lemma MoveHolders(locks: Locks, tasks: Tasks, live: set<Pid>, t: Rack, x: LockName, l: Lock, pc: Pc)
    requires HoldersOk(locks, tasks, live) && t in tasks
    requires l.holder == At(locks, x).holder || At(locks, x).holder in {None, Some(t)}
    requires l.holder in {None, Some(t), At(locks, x).holder}
    requires Holds(pc, x) ==> l.holder == Some(t)
    requires l.holder == Some(t) ==> Holds(pc, x) || (pc.Done? && Leakable(live, x))
    requires forall y :: y != x && Holds(pc, y) ==> Holds(tasks[t].pc, y)
    requires forall y :: y != x && At(locks, y).holder == Some(t) ==> Holds(pc, y) || (pc.Done? && Leakable(live, y))
    ensures HoldersOk(locks[x := l], Moved(tasks, t, pc), live)
  {
    var locks', tasks' := locks[x := l], Moved(tasks, t, pc);
    forall u, y | u in tasks' && Holds(tasks'[u].pc, y) ensures At(locks', y).holder == Some(u) {
      assert u != t ==> At(locks, y).holder == Some(u);
    }
    forall y | At(locks', y).holder.Some?
      ensures var u := At(locks', y).holder.value;
              u in tasks' && (Holds(tasks'[u].pc, y) || (tasks'[u].pc.Done? && Leakable(live, y)))
    {
      assert At(locks', y).holder != Some(t) ==> At(locks, y).holder == At(locks', y).holder;
    }
  }

  /** Task t changes its position, and with it only lock x. */
  ghost predicate MayMove(s: State, t: Rack, x: LockName, l: Lock, pc: Pc) {
    && t in s.tasks
    && (Waits(s.tasks[t].pc) == None || Waits(s.tasks[t].pc) == Some(x))
    && (Waits(pc) == None || Waits(pc) == Some(x))
    && Distinct(l.queue) && (t in l.queue <==> Waits(pc) == Some(x))
    && (forall u :: u != t ==> (u in l.queue <==> u in LockOf(s, x).queue))
    && (l.holder == LockOf(s, x).holder || (LockOf(s, x).holder in {None, Some(t)} && l.holder in {None, Some(t)}))
    && (Holds(pc, x) ==> l.holder == Some(t))
    && (l.holder == Some(t) ==> Holds(pc, x) || (pc.Done? && Leakable(s.live, x)))
    && (forall y :: y != x && Holds(pc, y) ==> Holds(s.tasks[t].pc, y))
    && (forall y :: y != x && Holds(s.tasks[t].pc, y) ==> Holds(pc, y) || (pc.Done? && Leakable(s.live, y)))
    && (pc.AwaitAnswer? ==> pc.pid in s.live)
  }

  lemma MoveLocks(s: State, t: Rack, x: LockName, l: Lock, pc: Pc, s': State)
    requires LocksOk(s) && MayMove(s, t, x, l, pc) && !s.tasks[t].pc.Done?
    requires s'.locks == s.locks[x := l] && s'.tasks == Moved(s.tasks, t, pc) && s'.live == s.live
    ensures LocksOk(s')
  {
    MoveQueues(s.locks, s.tasks, t, x, l, pc);
    MoveHolders(s.locks, s.tasks, s.live, t, x, l, pc);
  }

  lemma SameLocks(s: State, s': State)
    requires LocksOk(s) && s'.locks == s.locks && s'.tasks == s.tasks && s'.live == s.live
    ensures LocksOk(s')
  {
  }

  lemma EndedQueues(locks: Locks, tasks: Tasks, t: Rack, outcome: Outcome)
    requires QueuesOk(locks, tasks) && t in tasks && tasks[t].pc.Done?
    ensures QueuesOk(locks, Moved(tasks, t, Done(outcome)))
  {
  }

  lemma EndedHolders(locks: Locks, tasks: Tasks, live: set<Pid>, t: Rack, outcome: Outcome)
    requires HoldersOk(locks, tasks, live) && t in tasks && tasks[t].pc.Done?
    ensures HoldersOk(locks, Moved(tasks, t, Done(outcome)), live)
  {
  }

  /** Dropping a session at the end of a call touches the session table and the task's outcome only. */
  lemma ClosedFields(s: State, t: Rack)
    requires t in s.tasks
    ensures var s' := Closed(s, t);
            && s'.live == s.live && s'.locks == s.locks && s'.channels == s.channels && s'.freeEvent == s.freeEvent
            && s'.nextPid == s.nextPid && s'.nextLock == s.nextLock && s'.peak == s.peak
            && s'.tasks.Keys == s.tasks.Keys && (forall u :: u in s.tasks && u != t ==> s'.tasks[u] == s.tasks[u])
            && s'.tasks[t].call == s.tasks[t].call && s'.tasks[t].msg == s.tasks[t].msg
            && s'.tasks[t].pc in {s.tasks[t].pc, Done(Failed(EntryGone))}
            && (forall sid :: sid in s'.sessions ==> sid in s.sessions && s'.sessions[sid] == s.sessions[sid])
  {
  }

  lemma ClosedLocks(s: State, t: Rack)
    requires LocksOk(s) && t in s.tasks && s.tasks[t].pc.Done?
    ensures LocksOk(Closed(s, t))
  {
    hide QueuesOk, HoldersOk;
    EndedQueues(s.locks, s.tasks, t, Failed(EntryGone));
    EndedHolders(s.locks, s.tasks, s.live, t, Failed(EntryGone));
  }

  lemma HolderOf(s: State, t: Rack, x: LockName)
    requires LocksOk(s) && t in s.tasks && Holds(s.tasks[t].pc, x)
    ensures LockOf(s, x).holder == Some(t)
  {
    assert LockOf(s, x) == At(s.locks, x);
  }

  lemma TakeLocks(s: State, t: Rack, x: LockName, pc: Pc)
    requires LocksOk(s) && t in s.tasks && s.tasks[t].pc == Running(None) && LockOf(s, x).holder.None?
    requires match x
             case Search(id) => pc == Running(Some(id))
             case Busy(p) => if p in s.live then pc == AwaitAnswer(p, 0) else pc.Done?
    ensures LocksOk(Take(s, t, x, pc))
  {
    var l := LockOf(s, x).(holder := Some(t));
    assert LockOf(s, x) == At(s.locks, x);
    MoveLocks(s, t, x, l, pc, Take(s, t, x, pc));
  }

  lemma ReleaseLocks(s: State, t: Rack, x: LockName, pc: Pc)
    requires LocksOk(s) && t in s.tasks
    requires match x
             case Search(id) => s.tasks[t].pc == Running(Some(id)) && pc == Running(None)
             case Busy(p) => s.tasks[t].pc.AwaitAnswer? && s.tasks[t].pc.pid == p && pc.Done?
    ensures LocksOk(Release(s, t, x, pc))
  {
    HolderOf(s, t, x);
    assert LockOf(s, x) == At(s.locks, x);
    MoveLocks(s, t, x, LockOf(s, x).(holder := None), pc, Release(s, t, x, pc));
  }

  lemma EnqueueLocks(s: State, t: Rack, x: LockName, pc: Pc)
    requires LocksOk(s) && t in s.tasks && s.tasks[t].pc.Running?
    requires match x
             case Search(id) => s.tasks[t].pc == Running(None) && pc == WaitSearch(id)
             case Busy(p) => pc == WaitBusy(p, s.tasks[t].pc.search)
    ensures LocksOk(Enqueue(s, t, x, pc))
  {
    assert LockOf(s, x) == At(s.locks, x) && t !in LockOf(s, x).queue;
    MoveLocks(s, t, x, LockOf(s, x).(queue := LockOf(s, x).queue + [t]), pc, Enqueue(s, t, x, pc));
  }

  lemma {:induction false} WithoutProperties(queue: seq<Rack>, t: Rack)
    ensures forall u :: u in Without(queue, t) <==> u in queue && u != t
    ensures Distinct(queue) ==> Distinct(Without(queue, t))
  {
    if queue != [] {
      WithoutProperties(queue[1..], t);
      assert queue == [queue[0]] + queue[1..];
      if Distinct(queue) {
        assert forall i, j :: 0 <= i < j < |queue[1..]| ==>
            queue[1..][i] == queue[i + 1] && queue[1..][j] == queue[j + 1];
        assert queue[0] !in queue[1..];
      }
    }
  }

  lemma DequeueLocks(s: State, t: Rack, x: LockName, pc: Pc)
    requires LocksOk(s) && t in s.tasks && Waits(s.tasks[t].pc) == Some(x)
    requires pc.Done? || pc == Running(if s.tasks[t].pc.WaitBusy? then s.tasks[t].pc.search else None)
    ensures LocksOk(Dequeue(s, t, x, pc)) && LockOf(Dequeue(s, t, x, pc), x).holder == LockOf(s, x).holder
  {
    WithoutProperties(LockOf(s, x).queue, t);
    assert LockOf(s, x) == At(s.locks, x);
    MoveLocks(s, t, x, LockOf(s, x).(queue := Without(LockOf(s, x).queue, t)), pc, Dequeue(s, t, x, pc));
  }

  lemma SetPcLocks(s: State, t: Rack, pc: Pc)
    requires LocksOk(s) && t in s.tasks
    requires match s.tasks[t].pc
             case Running(search) => pc.Done? || (search.None? && (pc.WaitEvent? || pc == Running(None)))
             case WaitEvent(_) => pc.Done? || pc == Running(None)
             case AwaitAnswer(p, _) => pc.AwaitAnswer? && pc.pid == p
             case _ => false
    ensures LocksOk(SetPc(s, t, pc))
  {
  }

  // ---- the steps --------------------------------------------------------------------------

  lemma ObtainedLocks(env: WS.Env, s: State, t: Rack, p: Pid, search: Option<LockId>)
    requires LocksOk(s) && t in s.tasks && s.tasks[t].pc == Running(search) && LockOf(s, Busy(p)).holder.None?
    ensures LocksOk(Obtained(env, s, t, p, search))
  {
    hide LocksOk;
    var s1 := GiveBack(s, t, search);
    if search.Some? {
      ReleaseLocks(s, t, Search(search.value), Running(None));
    }
    var pc := if p in s.live then AwaitAnswer(p, 0) else Done(Failed(ClosedHandles));
    TakeLocks(s1, t, Busy(p), pc);
    if p in s.live {
      SameLocks(Take(s1, t, Busy(p), pc), Obtained(env, s, t, p, search));
    } else {
      ClosedLocks(Take(s1, t, Busy(p), pc), t);
    }
  }

  lemma TryBusyLocks(env: WS.Env, s: State, t: Rack, p: Pid, search: Option<LockId>)
    requires LocksOk(s) && t in s.tasks && s.tasks[t].pc == Running(search)
    ensures LocksOk(TryBusy(env, s, t, p, search))
  {
    hide LocksOk;
    if Available(s, Busy(p)) {
      ObtainedLocks(env, s, t, p, search);
    } else {
      EnqueueLocks(s, t, Busy(p), WaitBusy(p, search));
    }
  }

  lemma AfterSearchLocks(env: WS.Env, s: State, t: Rack, id: LockId, choice: Pid)
    requires LocksOk(s) && t in s.tasks && s.tasks[t].pc == Running(Some(id)) && s.tasks[t].msg.session.Some?
    ensures LocksOk(AfterSearch(env, s, t, id, choice))
  {
    hide LocksOk;
    var sid := s.tasks[t].msg.session.value;
    if sid in s.sessions && s.sessions[sid].pid.Some? && s.sessions[sid].pid.value in s.live {
      TryBusyLocks(env, s, t, s.sessions[sid].pid.value, Some(id));
    } else if sid in s.sessions && s.sessions[sid].pid.None? && s.live != {} {
      var s1 := Chosen(s, sid, id, choice);
      SameLocks(s, s1);
      TryBusyLocks(env, s1, t, choice, Some(id));
    } else {
      var failure := if sid in s.sessions then NoProcess else NoEntry;
      SetPcLocks(s, t, Done(Failed(failure)));
      ClosedLocks(SetPc(s, t, Done(Failed(failure))), t);
    }
  }

  lemma FreeScanLocks(env: WS.Env, s: State, t: Rack, choice: Pid)
    requires LocksOk(s) && t in s.tasks && s.tasks[t].pc == Running(None)
    ensures LocksOk(FreeScan(env, s, t, choice))
  {
    hide LocksOk;
    if exists p :: p in s.live && Unlocked(s, p) {
      TryBusyLocks(env, s, t, choice, None);
    } else {
      var s1 := s.(freeEvent := false);
      SameLocks(s, s1);
      SetPcLocks(s1, t, WaitEvent(false));
    }
  }

  lemma ContinueLocks(env: WS.Env, s: State, t: Rack, choice: Pid)
    requires LocksOk(s) && t in s.tasks
    ensures LocksOk(Continue(env, s, t, choice))
  {
    hide LocksOk;
    match s.tasks[t].pc
    case Running(Some(id)) =>
      if s.tasks[t].msg.session.Some? {
        AfterSearchLocks(env, s, t, id, choice);
      }
    case Running(None) => FreeScanLocks(env, s, t, choice);
    case _ =>
  }

  /** Identities not handed out yet have no lock, no channel and no entry. */
  ghost predicate FreshOk(s: State) {
    && (forall p :: p in s.live ==> p < s.nextPid)
    && (forall p: Pid :: p >= s.nextPid ==> LockOf(s, Busy(p)) == Lock(None, []) && p !in s.channels)
    && (forall i: LockId :: i >= s.nextLock ==> LockOf(s, Search(i)) == Lock(None, []))
    && (forall sid :: sid in s.sessions ==> s.sessions[sid].lock < s.nextLock)
  }

  lemma SpawnLocks(s: State, t: Rack, call: Call, msg: WorkerMessage)
    requires LocksOk(s) && t !in s.tasks
    ensures LocksOk(Spawn(s, t, call, msg))
  {
    var s' := Spawn(s, t, call, msg);
    assert forall x :: LockOf(s', x) == LockOf(s, x);
    assert forall x :: t !in At(s.locks, x).queue && At(s.locks, x).holder != Some(t);
  }

  lemma EnterLocks(s: State, t: Rack, call: Call, msg: WorkerMessage)
    requires LocksOk(s) && FreshOk(s) && t !in s.tasks
    ensures LocksOk(Enter(s, t, call, msg))
  {
    hide LocksOk;
    SpawnLocks(s, t, call, msg);
    var s0 := Spawn(s, t, call, msg);
    if msg.session.Some? {
      var sid := msg.session.value;
      if call.Init? && sid in s.sessions {
        SetPcLocks(s0, t, Done(Failed(AlreadyExists)));
      } else if Clears(call) && (sid !in s.sessions || s.sessions[sid].pid.None?) {
        SetPcLocks(s0, t, Done(Returned(None)));
      } else if sid !in s.sessions {
        SameLocks(s0, NewEntry(s0, sid));
        assert LockOf(NewEntry(s0, sid), Search(s.nextLock)) == LockOf(s, Search(s.nextLock));
        TakeLocks(NewEntry(s0, sid), t, Search(s.nextLock), Running(Some(s.nextLock)));
      } else {
        var id := s.sessions[sid].lock;
        assert LockOf(s0, Search(id)) == LockOf(s, Search(id));
        if Available(s, Search(id)) {
          TakeLocks(s0, t, Search(id), Running(Some(id)));
        } else {
          EnqueueLocks(s0, t, Search(id), WaitSearch(id));
        }
      }
    }
  }

  lemma NotifyLocks(s: State)
    requires LocksOk(s)
    ensures LocksOk(Notify(s))
  {
    var s' := Notify(s);
    assert forall u :: u in s.tasks ==>
      Waits(s'.tasks[u].pc) == Waits(s.tasks[u].pc) && s'.tasks[u].pc.Done? == s.tasks[u].pc.Done?;
    assert forall u, x :: u in s.tasks ==> Holds(s'.tasks[u].pc, x) == Holds(s.tasks[u].pc, x);
    assert forall x :: LockOf(s', x) == LockOf(s, x);
  }

  /** Only a task that holds a process's busy lock awaits an answer from it. */
  lemma OneUser(s: State, t: Rack, u: Rack)
    requires LocksOk(s) && t in s.tasks && u in s.tasks && s.tasks[t].pc.AwaitAnswer? && s.tasks[u].pc.AwaitAnswer?
    requires s.tasks[t].pc.pid == s.tasks[u].pc.pid
    ensures t == u && LockOf(s, Busy(s.tasks[t].pc.pid)).holder == Some(t)
  {
    HolderOf(s, t, Busy(s.tasks[t].pc.pid));
    HolderOf(s, u, Busy(s.tasks[t].pc.pid));
  }

  ghost predicate NobodyAwaits(s: State, p: Pid) {
    forall u :: u in s.tasks && s.tasks[u].pc.AwaitAnswer? ==> s.tasks[u].pc.pid != p
  }

  /** A process that nobody awaits can be replaced. */
  lemma RestartLocks(s: State, p: Pid)
    requires LocksOk(s) && FreshOk(s) && NobodyAwaits(s, p)
    ensures LocksOk(Restart(s, p))
  {
    var s' := Restart(s, p);
    assert forall x :: At(s'.locks, x) == LockOf(s, x);
  }

  /** Task t's part of ending a request, before a possible restart. */
  function Freed(s: State, t: Rack, p: Pid, outcome: Outcome): State
    requires t in s.tasks
  {
    Notify(Release(s, t, Busy(p), Done(outcome)))
  }

  lemma FreedLocks(s: State, t: Rack, p: Pid, outcome: Outcome)
    requires LocksOk(s) && t in s.tasks && s.tasks[t].pc.AwaitAnswer? && s.tasks[t].pc.pid == p
    ensures LocksOk(Freed(s, t, p, outcome)) && NobodyAwaits(Freed(s, t, p, outcome), p)
  {
    ReleaseLocks(s, t, Busy(p), Done(outcome));
    NotifyLocks(Release(s, t, Busy(p), Done(outcome)));
    forall u | u in s.tasks && u != t && s.tasks[u].pc.AwaitAnswer? ensures s.tasks[u].pc.pid != p {
      if s.tasks[u].pc.pid == p {
        OneUser(s, t, u);
      }
    }
  }

  lemma FreedFresh(s: State, t: Rack, p: Pid, outcome: Outcome)
    requires FreshOk(s) && t in s.tasks && p < s.nextPid
    ensures FreshOk(Freed(s, t, p, outcome))
  {
  }

  lemma FinishLocks(s: State, t: Rack, p: Pid, outcome: Outcome, restart: bool)
    requires LocksOk(s) && FreshOk(s) && t in s.tasks && s.tasks[t].pc.AwaitAnswer? && s.tasks[t].pc.pid == p
    requires p < s.nextPid
    ensures LocksOk(Finish(s, t, p, outcome, restart))
  {
    hide LocksOk;
    var s1 := Freed(s, t, p, outcome);
    FreedLocks(s, t, p, outcome);
    FreedFresh(s, t, p, outcome);
    if restart {
      RestartLocks(s1, p);
      ClosedLocks(Restart(s1, p), t);
    } else {
      ClosedLocks(s1, t);
    }
  }

  lemma AbandonLocks(s: State, t: Rack)
    requires LocksOk(s) && t in s.tasks
    requires s.tasks[t].pc.WaitEvent? || s.tasks[t].pc.WaitSearch? || s.tasks[t].pc.WaitBusy?
    ensures LocksOk(Abandoned(s, t))
  {
    hide LocksOk;
    var pc := Done(Failed(AcquireInterrupted));
    match Waits(s.tasks[t].pc)
    case Some(x) =>
      DequeueLocks(s, t, x, pc);
      ClosedLocks(Dequeue(s, t, x, pc), t);
    case None =>
      SetPcLocks(s, t, pc);
      ClosedLocks(SetPc(s, t, pc), t);
  }

  lemma WakeLocks(env: WS.Env, s: State, step: Step)
    requires LocksOk(s) && Enabled(env, s, step) && (step.WakeSearch? || step.WakeBusy? || step.WakeEvent?)
    ensures LocksOk(Apply(env, s, step))
  {
    hide LocksOk;
    var t := step.t;
    match step
    case WakeEvent(_, choice) =>
      var s1 := SetPc(s, t, Running(None));
      SetPcLocks(s, t, Running(None));
      SameLocks(s1, s1.(freeEvent := false));
      ContinueLocks(env, s1.(freeEvent := false), t, choice);
    case WakeSearch(_, choice) =>
      var id := s.tasks[t].pc.id;
      var s1 := Dequeue(s, t, Search(id), Running(None));
      DequeueLocks(s, t, Search(id), Running(None));
      TakeLocks(s1, t, Search(id), Running(Some(id)));
      AfterSearchLocks(env, Take(s1, t, Search(id), Running(Some(id))), t, id, choice);
    case WakeBusy(_) =>
      var p, search := s.tasks[t].pc.pid, s.tasks[t].pc.search;
      DequeueLocks(s, t, Busy(p), Running(search));
      ObtainedLocks(env, Dequeue(s, t, Busy(p), Running(search)), t, p, search);
  }

  lemma ConcludeLocks(s: State, t: Rack, verdict: Verdict)
    requires LocksOk(s) && FreshOk(s) && t in s.tasks && s.tasks[t].pc.AwaitAnswer? && s.tasks[t].pc.pid < s.nextPid
    ensures LocksOk(Conclude(s, t, verdict))
  {
    hide LocksOk, FreshOk;
    match verdict
    case Retry => SetPcLocks(s, t, AwaitAnswer(s.tasks[t].pc.pid, s.tasks[t].pc.count + 1));
    case End(outcome, restart) => FinishLocks(s, t, s.tasks[t].pc.pid, outcome, restart);
  }

  lemma PoppedFresh(env: WS.Env, s: State, p: Pid)
    requires FreshOk(s) && p in s.live
    ensures FreshOk(Popped(env, s, p))
  {
  }

  /** Every step keeps queues and holders in agreement with all tasks. */
  lemma StepLocks(env: WS.Env, s: State, step: Step)
    requires LocksOk(s) && FreshOk(s) && Enabled(env, s, step)
    ensures LocksOk(Apply(env, s, step))
  {
    match step
    case Start(t, call, msg, choice) =>
      EnterLocks(s, t, call, msg);
      ContinueLocks(env, Enter(s, t, call, msg), t, choice);
    case Receive(t) =>
      var p := s.tasks[t].pc.pid;
      SameLocks(s, Popped(env, s, p));
      PoppedFresh(env, s, p);
      ConcludeLocks(Popped(env, s, p), t, VerdictFor(env, s, t));
    case Interrupt(t, restart) => FinishLocks(s, t, s.tasks[t].pc.pid, Failed(AnswerInterrupted), restart);
    case Abandon(t) => AbandonLocks(s, t);
    case WorkerTake(_) => SameLocks(s, Apply(env, s, step));
    case WorkerAct(_) => SameLocks(s, Apply(env, s, step));
    case _ => WakeLocks(env, s, step);
  }
}
