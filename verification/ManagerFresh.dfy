/** Process and lock identities are handed out once: what has not been handed out is in no table, no
    lock and no channel. */
module ManagerFresh {
  import opened Wrappers
  import opened Messages
  import opened SessionTable
  import opened ManagerMachine
  import opened ManagerLocks
  import WS = WorkerSpec

  /** An identity that has been handed out. */
  predicate Known(s: State, x: LockName) {
    match x
    case Busy(p) => p < s.nextPid
    case Search(id) => id < s.nextLock
  }

  lemma KnownLock(s: State, t: Rack, x: LockName)
    requires LocksOk(s) && FreshOk(s) && t in s.tasks && (Holds(s.tasks[t].pc, x) || Waits(s.tasks[t].pc) == Some(x))
    ensures Known(s, x)
  {
    assert LockOf(s, x) == At(s.locks, x);
    if Holds(s.tasks[t].pc, x) {
      HolderOf(s, t, x);
    }
  }

  // Changing one known lock keeps the rest fresh.

  lemma TakeFresh(s: State, t: Rack, x: LockName, pc: Pc)
    requires FreshOk(s) && Known(s, x) && t in s.tasks
    ensures FreshOk(Take(s, t, x, pc))
  {
  }

  lemma ReleaseFresh(s: State, t: Rack, x: LockName, pc: Pc)
    requires FreshOk(s) && Known(s, x) && t in s.tasks
    ensures FreshOk(Release(s, t, x, pc))
  {
  }

  lemma EnqueueFresh(s: State, t: Rack, x: LockName, pc: Pc)
    requires FreshOk(s) && Known(s, x) && t in s.tasks
    ensures FreshOk(Enqueue(s, t, x, pc))
  {
  }

  lemma DequeueFresh(s: State, t: Rack, x: LockName, pc: Pc)
    requires FreshOk(s) && Known(s, x) && t in s.tasks
    ensures FreshOk(Dequeue(s, t, x, pc))
  {
  }

  /** ... and so does anything that leaves locks alone and gives no unknown identity away. */
  lemma TableFresh(s: State, s': State)
    requires FreshOk(s)
    requires s'.locks == s.locks && s'.live == s.live && s'.nextPid == s.nextPid && s'.nextLock == s.nextLock
    requires forall sid :: sid in s'.sessions ==> sid in s.sessions && s'.sessions[sid].lock == s.sessions[sid].lock
    requires forall p :: p in s'.channels ==> p in s.channels || p in s.live
    ensures FreshOk(s')
  {
  }

  lemma ObtainedFresh(env: WS.Env, s: State, t: Rack, p: Pid, search: Option<LockId>)
    requires FreshOk(s) && t in s.tasks && p < s.nextPid && (search.Some? ==> search.value < s.nextLock)
    ensures FreshOk(Obtained(env, s, t, p, search))
  {
    hide FreshOk, Closed, LockOf;
    var s1 := GiveBack(s, t, search);
    if search.Some? {
      ReleaseFresh(s, t, Search(search.value), Running(None));
    }
    var pc := if p in s.live then AwaitAnswer(p, 0) else Done(Failed(ClosedHandles));
    var s2 := Take(s1, t, Busy(p), pc);
    TakeFresh(s1, t, Busy(p), pc);
    ClosedFields(s2, t);
    TableFresh(s2, Obtained(env, s, t, p, search));
  }

  lemma TryBusyFresh(env: WS.Env, s: State, t: Rack, p: Pid, search: Option<LockId>)
    requires FreshOk(s) && t in s.tasks && p < s.nextPid && (search.Some? ==> search.value < s.nextLock)
    ensures FreshOk(TryBusy(env, s, t, p, search))
  {
    hide FreshOk;
    if Available(s, Busy(p)) {
      ObtainedFresh(env, s, t, p, search);
    } else {
      EnqueueFresh(s, t, Busy(p), WaitBusy(p, search));
    }
  }

  lemma ChosenFresh(s: State, sid: SessionId, id: LockId, choice: Pid)
    requires FreshOk(s) && id < s.nextLock
    ensures FreshOk(Chosen(s, sid, id, choice))
  {
    assert forall x :: LockOf(Chosen(s, sid, id, choice), x) == LockOf(s, x);
  }

  lemma AfterSearchFresh(env: WS.Env, s: State, t: Rack, id: LockId, choice: Pid)
    requires FreshOk(s) && t in s.tasks && id < s.nextLock && s.tasks[t].msg.session.Some?
    requires ChoiceAllowed(s, t, choice)
    ensures FreshOk(AfterSearch(env, s, t, id, choice))
  {
    hide TryBusy;
    var sid := s.tasks[t].msg.session.value;
    if sid in s.sessions && s.sessions[sid].pid.Some? && s.sessions[sid].pid.value in s.live {
      TryBusyFresh(env, s, t, s.sessions[sid].pid.value, Some(id));
    } else if sid in s.sessions && s.sessions[sid].pid.None? && s.live != {} {
      ChosenFresh(s, sid, id, choice);
      TryBusyFresh(env, Chosen(s, sid, id, choice), t, choice, Some(id));
    } else {
      ClosedFields(SetPc(s, t, Done(Failed(NoEntry))), t);
      ClosedFields(SetPc(s, t, Done(Failed(NoProcess))), t);
      hide Closed;
      TableFresh(s, AfterSearch(env, s, t, id, choice));
    }
  }

  lemma FreeScanFresh(env: WS.Env, s: State, t: Rack, choice: Pid)
    requires FreshOk(s) && t in s.tasks && ScanAllowed(s, choice)
    ensures FreshOk(FreeScan(env, s, t, choice))
  {
    if exists p :: p in s.live && Unlocked(s, p) {
      TryBusyFresh(env, s, t, choice, None);
    } else {
      TableFresh(s, FreeScan(env, s, t, choice));
    }
  }

  lemma ContinueFresh(env: WS.Env, s: State, t: Rack, choice: Pid)
    requires FreshOk(s) && t in s.tasks && ContinueAllowed(s, t, choice)
    requires s.tasks[t].pc.Running? && s.tasks[t].pc.search.Some? ==> s.tasks[t].pc.search.value < s.nextLock
    ensures FreshOk(Continue(env, s, t, choice))
  {
    hide FreshOk;
    match s.tasks[t].pc
    case Running(Some(id)) => AfterSearchFresh(env, s, t, id, choice);
    case Running(None) => FreeScanFresh(env, s, t, choice);
    case _ =>
  }

  lemma EntryFresh(s: State, sid: SessionId)
    requires FreshOk(s)
    ensures FreshOk(NewEntry(s, sid))
  {
  }

  /** A request for a session without entry, and for one with an entry. */
  lemma EnterNewFresh(s: State, t: Rack, sid: SessionId)
    requires FreshOk(s) && t in s.tasks
    ensures FreshOk(Take(NewEntry(s, sid), t, Search(s.nextLock), Running(Some(s.nextLock))))
  {
    hide FreshOk;
    EntryFresh(s, sid);
    TakeFresh(NewEntry(s, sid), t, Search(s.nextLock), Running(Some(s.nextLock)));
  }

  lemma EnterKnownFresh(s: State, t: Rack, sid: SessionId)
    requires FreshOk(s) && t in s.tasks && sid in s.sessions
    ensures var id := s.sessions[sid].lock;
            && id < s.nextLock
            && FreshOk(Take(s, t, Search(id), Running(Some(id)))) && FreshOk(Enqueue(s, t, Search(id), WaitSearch(id)))
  {
    var id := s.sessions[sid].lock;
    TakeFresh(s, t, Search(id), Running(Some(id)));
    EnqueueFresh(s, t, Search(id), WaitSearch(id));
  }

  lemma EnterFresh(s: State, t: Rack, call: Call, msg: WorkerMessage)
    requires FreshOk(s)
    ensures var s' := Enter(s, t, call, msg);
            FreshOk(s')
                && (s'.tasks[t].pc.Running? && s'.tasks[t].pc.search.Some? ==>
                      s'.tasks[t].pc.search.value < s'.nextLock)
  {
    hide FreshOk, LockOf, Available;
    var s0 := Spawn(s, t, call, msg);
    TableFresh(s, s0);
    if msg.session.Some? {
      TableFresh(s0, SetPc(s0, t, Done(Failed(AlreadyExists))));
      TableFresh(s0, SetPc(s0, t, Done(Returned(None))));
      EnterNewFresh(s0, t, msg.session.value);
      if msg.session.value in s.sessions {
        EnterKnownFresh(s0, t, msg.session.value);
      }
    }
  }

  lemma FinishFresh(s: State, t: Rack, p: Pid, outcome: Outcome, restart: bool)
    requires FreshOk(s) && t in s.tasks && p < s.nextPid
    ensures FreshOk(Finish(s, t, p, outcome, restart))
  {
    hide FreshOk, Closed, Notify, Release, Restart;
    FreedFresh(s, t, p, outcome);
    var s1 := Freed(s, t, p, outcome);
    var s2 := if restart then Restart(s1, p) else s1;
    FreedSame(s, t, p, outcome);
    RestartFresh(s1, p);
    RestartSame(s1, p);
    ClosedFields(s2, t);
    TableFresh(s2, Finish(s, t, p, outcome, restart));
  }

  lemma FreedSame(s: State, t: Rack, p: Pid, outcome: Outcome)
    requires t in s.tasks
    ensures t in Freed(s, t, p, outcome).tasks
  {
  }

  lemma RestartSame(s: State, p: Pid)
    ensures Restart(s, p).tasks == s.tasks
  {
  }

  lemma RestartFresh(s: State, p: Pid)
    requires FreshOk(s)
    ensures FreshOk(Restart(s, p))
  {
    assert forall x :: LockOf(Restart(s, p), x) == LockOf(s, x);
  }

  lemma WakeFresh(env: WS.Env, s: State, step: Step)
    requires LocksOk(s) && FreshOk(s) && Enabled(env, s, step)
    requires (step.WakeSearch? || step.WakeBusy? || step.WakeEvent?)
    ensures FreshOk(Apply(env, s, step))
  {
    var t := step.t;
    var x := Waits(s.tasks[t].pc);
    if x.Some? {
      KnownLock(s, t, x.value);
    }
    if s.tasks[t].pc.WaitBusy? && s.tasks[t].pc.search.Some? {
      KnownLock(s, t, Search(s.tasks[t].pc.search.value));
    }
    hide LocksOk, FreshOk;
    match step
    case WakeEvent(_, choice) =>
      var s1 := SetPc(s, t, Running(None)).(freeEvent := false);
      TableFresh(s, s1);
      ContinueFresh(env, s1, t, choice);
    case WakeSearch(_, choice) =>
      var id := s.tasks[t].pc.id;
      var s1 := Dequeue(s, t, Search(id), Running(None));
      DequeueFresh(s, t, Search(id), Running(None));
      TakeFresh(s1, t, Search(id), Running(Some(id)));
      AfterSearchFresh(env, Take(s1, t, Search(id), Running(Some(id))), t, id, choice);
    case WakeBusy(_) =>
      var p, search := s.tasks[t].pc.pid, s.tasks[t].pc.search;
      DequeueFresh(s, t, Busy(p), Running(search));
      ObtainedFresh(env, Dequeue(s, t, Busy(p), Running(search)), t, p, search);
  }

  lemma ConcludeFresh(s: State, t: Rack, verdict: Verdict)
    requires FreshOk(s) && t in s.tasks && s.tasks[t].pc.AwaitAnswer? && s.tasks[t].pc.pid < s.nextPid
    ensures FreshOk(Conclude(s, t, verdict))
  {
    hide FreshOk;
    match verdict
    case Retry => TableFresh(s, Conclude(s, t, verdict));
    case End(outcome, restart) => FinishFresh(s, t, s.tasks[t].pc.pid, outcome, restart);
  }

  lemma AbandonFresh(s: State, t: Rack)
    requires FreshOk(s) && t in s.tasks && (Waits(s.tasks[t].pc).Some? ==> Known(s, Waits(s.tasks[t].pc).value))
    ensures FreshOk(Abandoned(s, t))
  {
    hide FreshOk;
    var pc := Done(Failed(AcquireInterrupted));
    match Waits(s.tasks[t].pc)
    case Some(x) =>
      DequeueFresh(s, t, x, pc);
      TableFresh(Dequeue(s, t, x, pc), Abandoned(s, t));
    case None => TableFresh(s, Abandoned(s, t));
  }

  lemma StepFresh(env: WS.Env, s: State, step: Step)
    requires LocksOk(s) && FreshOk(s) && Enabled(env, s, step)
    ensures FreshOk(Apply(env, s, step))
  {
    if step.Abandon? && Waits(s.tasks[step.t].pc).Some? {
      KnownLock(s, step.t, Waits(s.tasks[step.t].pc).value);
    }
    if step.Receive? || step.Interrupt? {
      assert s.tasks[step.t].pc.pid in s.live && s.tasks[step.t].pc.pid < s.nextPid;
    }
    hide LocksOk, FreshOk;
    match step
    case Start(t, call, msg, choice) =>
      EnterFresh(s, t, call, msg);
      ContinueFresh(env, Enter(s, t, call, msg), t, choice);
    case Receive(t) =>
      PoppedFresh(env, s, s.tasks[t].pc.pid);
      ConcludeFresh(Popped(env, s, s.tasks[t].pc.pid), t, VerdictFor(env, s, t));
    case Interrupt(t, restart) => FinishFresh(s, t, s.tasks[t].pc.pid, Failed(AnswerInterrupted), restart);
    case Abandon(t) => AbandonFresh(s, t);
    case WorkerTake(_) => TableFresh(s, Apply(env, s, step));
    case WorkerAct(_) => TableFresh(s, Apply(env, s, step));
    case _ => WakeFresh(env, s, step);
  }
}
