/** Locks that are never given back: exactly which steps leave one behind, and what that does to the
    requests behind it. */
module ManagerLeaks {
  import opened Wrappers
  import opened Messages
  import opened SessionTable
  import opened ManagerMachine
  import opened ManagerLocks
  import opened ManagerFrame
  import opened ManagerInvariant
  import opened ManagerPipes
  import opened ManagerSteps
  import opened ManagerSessions
  import WS = WorkerSpec

  /** The holder's call has ended, so nobody is left to release the lock. */
  predicate Leaked(s: State, x: LockName) {
    var holder := LockOf(s, x).holder;
    holder.Some? && holder.value in s.tasks && s.tasks[holder.value].pc.Done?
  }

  /** The three ways to leave a lock behind: a request gives up its wait for a busy lock while it
      holds a search lock; a request finds its session gone after it got the search lock; a request
      gets the busy lock of a process that has been replaced. */
  predicate Leaks(s: State, step: Step, x: LockName) {
    match step
    case Abandon(t) =>
      t in s.tasks && s.tasks[t].pc.WaitBusy? && s.tasks[t].pc.search.Some? && x == Search(s.tasks[t].pc.search.value)
    case WakeSearch(t, _) =>
      && t in s.tasks && s.tasks[t].pc.WaitSearch? && x == Search(s.tasks[t].pc.id)
      && s.tasks[t].msg.session.Some? && s.tasks[t].msg.session.value !in s.sessions
    case WakeBusy(t) => t in s.tasks && s.tasks[t].pc.WaitBusy? && s.tasks[t].pc.pid !in s.live
        && x == Busy(s.tasks[t].pc.pid)
    case _ => false
  }

  // ---- what a task owns -------------------------------------------------------------------

  ghost predicate Owns(s: State, t: Rack, xs: set<LockName>) {
    forall x :: LockOf(s, x).holder == Some(t) <==> x in xs
  }

  /** Only task t took or gave back locks. */
  ghost predicate Kept(s: State, t: Rack, s': State) {
    forall x :: LockOf(s', x).holder == LockOf(s, x).holder
                || (LockOf(s, x).holder in {None, Some(t)} && LockOf(s', x).holder in {None, Some(t)})
  }

  lemma KeptTrans(s: State, t: Rack, m: State, s': State)
    requires Kept(s, t, m) && Kept(m, t, s')
    ensures Kept(s, t, s')
  {
  }

  function HeldAt(pc: Pc): (xs: set<LockName>)
    ensures forall x :: x in xs <==> Holds(pc, x)
  {
    match pc
    case Running(search) => if search.Some? then {Search(search.value)} else {}
    case WaitBusy(_, search) => if search.Some? then {Search(search.value)} else {}
    case AwaitAnswer(p, _) => {Busy(p)}
    case _ => {}
  }

  lemma OwnsHeld(s: State, t: Rack)
    requires LocksOk(s) && (t in s.tasks ==> !s.tasks[t].pc.Done?)
    ensures Owns(s, t, if t in s.tasks then HeldAt(s.tasks[t].pc) else {})
  {
    assert forall x :: LockOf(s, x) == At(s.locks, x);
  }

  lemma TakeKept(s: State, t: Rack, x: LockName, pc: Pc, xs: set<LockName>)
    requires t in s.tasks && LockOf(s, x).holder.None? && Owns(s, t, xs)
    ensures Kept(s, t, Take(s, t, x, pc)) && Owns(Take(s, t, x, pc), t, xs + {x})
  {
  }

  lemma ReleaseKept(s: State, t: Rack, x: LockName, pc: Pc, xs: set<LockName>)
    requires t in s.tasks && Owns(s, t, xs) && x in xs
    ensures Kept(s, t, Release(s, t, x, pc)) && Owns(Release(s, t, x, pc), t, xs - {x})
  {
  }

  lemma QueueKept(s: State, t: Rack, x: LockName, pc: Pc)
    requires t in s.tasks
    ensures var e, d := Enqueue(s, t, x, pc), Dequeue(s, t, x, pc);
            forall y :: LockOf(e, y).holder == LockOf(s, y).holder && LockOf(d, y).holder == LockOf(s, y).holder
  {
  }

  /** The same locks have the same holders. */
  lemma SameKept(s: State, t: Rack, s': State, xs: set<LockName>)
    requires forall y :: LockOf(s', y).holder == LockOf(s, y).holder
    ensures Kept(s, t, s') && (Owns(s, t, xs) ==> Owns(s', t, xs))
  {
  }

  lemma ClosedKept(s: State, t: Rack)
    requires t in s.tasks
    ensures Closed(s, t).locks == s.locks && (s.tasks[t].pc.Done? ==> Closed(s, t).tasks[t].pc.Done?)
  {
  }

  // ---- the steps --------------------------------------------------------------------------

  /** Task t did not end, or ended owning exactly the given locks. */
  ghost predicate EndsOwning(s: State, t: Rack, xs: set<LockName>) {
    t in s.tasks && (s.tasks[t].pc.Done? ==> Owns(s, t, xs))
  }

  lemma ObtainedKept(env: WS.Env, s: State, t: Rack, p: Pid, search: Option<LockId>)
    requires t in s.tasks && Owns(s, t, HeldAt(Running(search))) && LockOf(s, Busy(p)).holder.None?
    ensures var s' := Obtained(env, s, t, p, search);
            Kept(s, t, s') && EndsOwning(s', t, {Busy(p)}) && (s'.tasks[t].pc.Done? <==> p !in s.live)
  {
    hide Owns, Kept;
    var s1 := GiveBack(s, t, search);
    if search.Some? {
      ReleaseKept(s, t, Search(search.value), Running(None), HeldAt(Running(search)));
      assert HeldAt(Running(search)) - {Search(search.value)} == {};
    } else {
      SameKept(s, t, s1, {});
    }
    var pc := if p in s.live then AwaitAnswer(p, 0) else Done(Failed(ClosedHandles));
    var s2 := Take(s1, t, Busy(p), pc);
    TakeKept(s1, t, Busy(p), pc, {});
    assert {} + {Busy(p)} == {Busy(p)};
    KeptTrans(s, t, s1, s2);
    var s' := Obtained(env, s, t, p, search);
    ClosedKept(s2, t);
    assert s'.locks == s2.locks;
    SameKept(s2, t, s', {Busy(p)});
    KeptTrans(s, t, s2, s');
  }

  lemma TryBusyKept(env: WS.Env, s: State, t: Rack, p: Pid, search: Option<LockId>)
    requires t in s.tasks && Owns(s, t, HeldAt(Running(search))) && p in s.live
    ensures Kept(s, t, TryBusy(env, s, t, p, search)) && EndsOwning(TryBusy(env, s, t, p, search), t, {})
    ensures !TryBusy(env, s, t, p, search).tasks[t].pc.Done?
  {
    hide Owns, Kept;
    if Available(s, Busy(p)) {
      ObtainedKept(env, s, t, p, search);
    } else {
      QueueKept(s, t, Busy(p), WaitBusy(p, search));
      SameKept(s, t, Enqueue(s, t, Busy(p), WaitBusy(p, search)), {});
    }
  }

  lemma AfterSearchKept(env: WS.Env, s: State, t: Rack, id: LockId, choice: Pid)
    requires t in s.tasks && s.tasks[t].msg.session.Some? && Owns(s, t, {Search(id)})
    requires var sid := s.tasks[t].msg.session.value;
             sid in s.sessions ==> s.sessions[sid].pid.Some? && s.sessions[sid].pid.value in s.live
    ensures var s' := AfterSearch(env, s, t, id, choice);
            && Kept(s, t, s') && EndsOwning(s', t, {Search(id)})
            && (s'.tasks[t].pc.Done? <==> s.tasks[t].msg.session.value !in s.sessions)
  {
    hide Owns, Kept;
    var sid := s.tasks[t].msg.session.value;
    if sid in s.sessions {
      TryBusyKept(env, s, t, s.sessions[sid].pid.value, Some(id));
    } else {
      ClosedKept(SetPc(s, t, Done(Failed(NoEntry))), t);
      SameKept(s, t, AfterSearch(env, s, t, id, choice), {Search(id)});
    }
  }

  lemma FreeScanKept(env: WS.Env, s: State, t: Rack, choice: Pid)
    requires t in s.tasks && Owns(s, t, {}) && ScanAllowed(s, choice)
    ensures Kept(s, t, FreeScan(env, s, t, choice)) && !FreeScan(env, s, t, choice).tasks[t].pc.Done?
  {
    hide Owns, Kept;
    if exists p :: p in s.live && Unlocked(s, p) {
      TryBusyKept(env, s, t, choice, None);
    } else {
      SameKept(s, t, FreeScan(env, s, t, choice), {});
    }
  }

  /** The first request of a session; every other start is in StartKept. */
  lemma StartNewKept(env: WS.Env, s: State, t: Rack, sid: SessionId, choice: Pid)
    requires t in s.tasks && s.tasks[t].msg.session == Some(sid) && sid !in s.sessions && s.live != {}
    requires Owns(s, t, {}) && FreshOk(s)
    requires ChoiceAllowed(Take(NewEntry(s, sid), t, Search(s.nextLock), Running(Some(s.nextLock))), t, choice)
    ensures var s' := AfterSearch(env, Take(NewEntry(s, sid), t, Search(s.nextLock), Running(Some(s.nextLock))), t,
            s.nextLock, choice);
            Kept(s, t, s') && !s'.tasks[t].pc.Done?
  {
    var x := Search(s.nextLock);
    assert LockOf(NewEntry(s, sid), x) == Lock(None, []);
    hide Owns, Kept, FreshOk;
    SameKept(s, t, NewEntry(s, sid), {});
    TakeKept(NewEntry(s, sid), t, x, Running(Some(s.nextLock)), {});
    assert {} + {x} == HeldAt(Running(Some(s.nextLock)));
    var m := FirstChosen(s, t, sid, choice);
    SameKept(Take(NewEntry(s, sid), t, x, Running(Some(s.nextLock))), t, m, {x});
    KeptTrans(s, t, NewEntry(s, sid), Take(NewEntry(s, sid), t, x, Running(Some(s.nextLock))));
    KeptTrans(s, t, Take(NewEntry(s, sid), t, x, Running(Some(s.nextLock))), m);
    TryBusyKept(env, m, t, choice, Some(s.nextLock));
    KeptTrans(s, t, m, TryBusy(env, m, t, choice, Some(s.nextLock)));
  }

  lemma StartOldKept(env: WS.Env, s: State, t: Rack, call: Call, msg: WorkerMessage, choice: Pid)
    requires t !in s.tasks && Owns(s, t, {}) && Linked(s.sessions, s.live)
    requires ContinueAllowed(Enter(s, t, call, msg), t, choice)
    requires msg.session.Some? ==> msg.session.value in s.sessions
    ensures var s' := Continue(env, Enter(s, t, call, msg), t, choice);
            Kept(s, t, s') && EndsOwning(s', t, {})
  {
    hide Owns, Kept;
    var s0 := Spawn(s, t, call, msg);
    SameKept(s, t, s0, {});
    var s' := Continue(env, Enter(s, t, call, msg), t, choice);
    if msg.session.None? {
      FreeScanKept(env, s0, t, choice);
      KeptTrans(s, t, s0, s');
    } else if call.Init? {
      SameKept(s, t, s', {});
    } else {
      var id := s.sessions[msg.session.value].lock;
      if Available(s, Search(id)) {
        var s1 := Take(s0, t, Search(id), Running(Some(id)));
        assert LockOf(s0, Search(id)) == LockOf(s, Search(id));
        TakeKept(s0, t, Search(id), Running(Some(id)), {});
        assert {} + {Search(id)} == {Search(id)};
        KeptTrans(s, t, s0, s1);
        AfterSearchKept(env, s1, t, id, choice);
        KeptTrans(s, t, s1, s');
      } else {
        QueueKept(s0, t, Search(id), WaitSearch(id));
        SameKept(s0, t, s', {});
        KeptTrans(s, t, s0, s');
      }
    }
  }

  lemma StartKept(env: WS.Env, s: State, t: Rack, call: Call, msg: WorkerMessage, choice: Pid)
    requires t !in s.tasks && Owns(s, t, {}) && Linked(s.sessions, s.live) && s.live != {} && FreshOk(s)
    requires ContinueAllowed(Enter(s, t, call, msg), t, choice)
    ensures var s' := Continue(env, Enter(s, t, call, msg), t, choice);
            Kept(s, t, s') && EndsOwning(s', t, {})
  {
    var s0 := Spawn(s, t, call, msg);
    var s' := Continue(env, Enter(s, t, call, msg), t, choice);
    if msg.session.None? || msg.session.value in s.sessions {
      StartOldKept(env, s, t, call, msg, choice);
    } else {
      assert FreshOk(s0);
      hide Owns, Kept, FreshOk;
      SameKept(s, t, s0, {});
      if Clears(call) {
        SameKept(s, t, s', {});
      } else {
        StartNewKept(env, s0, t, msg.session.value, choice);
        KeptTrans(s, t, s0, s');
      }
    }
  }

  /** In s', task t has ended owning exactly what the step leaks, or it has not ended. */
  ghost predicate LeavesBehind(s: State, step: Step, t: Rack, s': State) {
    && t in s'.tasks
    && (s'.tasks[t].pc.Done? ==> forall x :: LockOf(s', x).holder == Some(t) <==> Leaks(s, step, x))
    && (!s'.tasks[t].pc.Done? ==> forall x :: !Leaks(s, step, x))
  }

  lemma WakeSearchKept(env: WS.Env, s: State, t: Rack, choice: Pid)
    requires LocksOk(s) && Linked(s.sessions, s.live) && Enabled(env, s, WakeSearch(t, choice))
    ensures Kept(s, t, Apply(env, s, WakeSearch(t, choice)))
    ensures LeavesBehind(s, WakeSearch(t, choice), t, Apply(env, s, WakeSearch(t, choice)))
  {
    OwnsHeld(s, t);
    hide LocksOk, Kept;
    var s' := Apply(env, s, WakeSearch(t, choice));
    var id := s.tasks[t].pc.id;
    var s1 := Dequeue(s, t, Search(id), Running(None));
    QueueKept(s, t, Search(id), Running(None));
    SameKept(s, t, s1, {});
    var s2 := Take(s1, t, Search(id), Running(Some(id)));
    TakeKept(s1, t, Search(id), Running(Some(id)), {});
    assert {} + {Search(id)} == {Search(id)};
    KeptTrans(s, t, s1, s2);
    AfterSearchKept(env, s2, t, id, choice);
    KeptTrans(s, t, s2, s');
  }

  lemma WakeBusyKept(env: WS.Env, s: State, t: Rack)
    requires LocksOk(s) && Enabled(env, s, WakeBusy(t))
    ensures Kept(s, t, Apply(env, s, WakeBusy(t))) && LeavesBehind(s, WakeBusy(t), t, Apply(env, s, WakeBusy(t)))
  {
    OwnsHeld(s, t);
    hide LocksOk, Kept;
    var p, search := s.tasks[t].pc.pid, s.tasks[t].pc.search;
    var s1 := Dequeue(s, t, Busy(p), Running(search));
    QueueKept(s, t, Busy(p), Running(search));
    SameKept(s, t, s1, HeldAt(Running(search)));
    ObtainedKept(env, s1, t, p, search);
    KeptTrans(s, t, s1, Apply(env, s, WakeBusy(t)));
  }

  lemma WakeEventKept(env: WS.Env, s: State, t: Rack, choice: Pid)
    requires LocksOk(s) && Enabled(env, s, WakeEvent(t, choice)) && s.tasks[t].msg.session.None?
    ensures Kept(s, t, Apply(env, s, WakeEvent(t, choice)))
    ensures LeavesBehind(s, WakeEvent(t, choice), t, Apply(env, s, WakeEvent(t, choice)))
  {
    OwnsHeld(s, t);
    hide LocksOk, Kept;
    var s1 := SetPc(s, t, Running(None)).(freeEvent := false);
    SameKept(s, t, s1, {});
    FreeScanKept(env, s1, t, choice);
    KeptTrans(s, t, s1, Apply(env, s, WakeEvent(t, choice)));
  }

  lemma FinishKept(s: State, t: Rack, p: Pid, outcome: Outcome, restart: bool)
    requires t in s.tasks && Owns(s, t, {Busy(p)})
    ensures Kept(s, t, Finish(s, t, p, outcome, restart)) && Owns(Finish(s, t, p, outcome, restart), t, {})
  {
    var s1 := Release(s, t, Busy(p), Done(outcome));
    ReleaseKept(s, t, Busy(p), Done(outcome), {Busy(p)});
    assert {Busy(p)} - {Busy(p)} == {};
    hide Kept, Owns;
    var s' := Finish(s, t, p, outcome, restart);
    FinishedLocks(s, t, p, outcome, restart);
    SameKept(s1, t, s', {});
    KeptTrans(s, t, s1, s');
  }

  lemma FinishedLocks(s: State, t: Rack, p: Pid, outcome: Outcome, restart: bool)
    requires t in s.tasks
    ensures Finish(s, t, p, outcome, restart).locks == Release(s, t, Busy(p), Done(outcome)).locks
  {
  }

  lemma ConcludeKept(s: State, t: Rack, verdict: Verdict)
    requires t in s.tasks && s.tasks[t].pc.AwaitAnswer? && Owns(s, t, {Busy(s.tasks[t].pc.pid)})
    ensures Kept(s, t, Conclude(s, t, verdict)) && EndsOwning(Conclude(s, t, verdict), t, {})
  {
    hide Kept, Owns;
    var p := s.tasks[t].pc.pid;
    match verdict
    case Retry => SameKept(s, t, Conclude(s, t, verdict), {});
    case End(outcome, restart) =>
      FinishKept(s, t, p, outcome, restart);
      FinishedTasks(s, t, p, outcome, restart);
  }

  lemma AnswerKept(env: WS.Env, s: State, step: Step)
    requires Enabled(env, s, step) && (step.Receive? || step.Interrupt?) && Owns(s, step.t, HeldAt(s.tasks[step.t].pc))
    ensures Kept(s, step.t, Apply(env, s, step)) && EndsOwning(Apply(env, s, step), step.t, {})
  {
    hide Kept, Owns;
    var t := step.t;
    var p := s.tasks[t].pc.pid;
    match step
    case Receive(_) =>
      var s1 := Popped(env, s, p);
      SameKept(s, t, s1, {Busy(p)});
      ConcludeKept(s1, t, VerdictFor(env, s, t));
      KeptTrans(s, t, s1, Apply(env, s, step));
    case Interrupt(_, restart) =>
      FinishKept(s, t, p, Failed(AnswerInterrupted), restart);
      FinishedTasks(s, t, p, Failed(AnswerInterrupted), restart);
  }

  lemma AbandonKept(s: State, t: Rack)
    requires t in s.tasks && Owns(s, t, HeldAt(s.tasks[t].pc))
    ensures Kept(s, t, Abandoned(s, t)) && EndsOwning(Abandoned(s, t), t, HeldAt(s.tasks[t].pc))
  {
    hide Kept, Owns;
    var pc := Done(Failed(AcquireInterrupted));
    var xs := HeldAt(s.tasks[t].pc);
    match Waits(s.tasks[t].pc)
    case Some(x) =>
      QueueKept(s, t, x, pc);
      ClosedKept(Dequeue(s, t, x, pc), t);
      SameKept(s, t, Abandoned(s, t), xs);
    case None =>
      ClosedKept(SetPc(s, t, pc), t);
      SameKept(s, t, Abandoned(s, t), xs);
  }

  /** Steps that never leave a lock behind. */
  lemma NothingLeft(s: State, step: Step, s': State)
    requires (step.Start? || step.Receive? || step.Interrupt?) && EndsOwning(s', step.t, {})
    ensures LeavesBehind(s, step, step.t, s')
  {
  }

  lemma AbandonLeaves(env: WS.Env, s: State, t: Rack)
    requires LocksOk(s) && Enabled(env, s, Abandon(t)) && Owns(s, t, HeldAt(s.tasks[t].pc))
    ensures Kept(s, t, Apply(env, s, Abandon(t))) && LeavesBehind(s, Abandon(t), t, Apply(env, s, Abandon(t)))
  {
    hide LocksOk, Kept, Abandoned;
    AbandonKept(s, t);
    AbandonQuiet(s, t);
  }

  /** What a step of task t does to locks: only t takes or gives back, and if t ends, what it still
      owns is exactly what the step is said to leak. */
  lemma StepKept(env: WS.Env, n: nat, s: State, step: Step)
    requires n > 0 && Invariant(n, s) && Enabled(env, s, step) && ByTask(step)
    ensures Kept(s, step.t, Apply(env, s, step)) && LeavesBehind(s, step, step.t, Apply(env, s, step))
  {
    var t := step.t;
    assert s.live != {};
    OwnsHeld(s, t);
    if t in s.tasks {
      assert TaskOk(s, t);
    }
    hide LocksOk, FreshOk, TasksOk, EventOk, Kept, Owns, LeavesBehind, EndsOwning, Leaks;
    match step
    case Start(_, call, msg, choice) =>
      StartKept(env, s, t, call, msg, choice);
      NothingLeft(s, step, Apply(env, s, step));
    case Receive(_) =>
      AnswerKept(env, s, step);
      NothingLeft(s, step, Apply(env, s, step));
    case Interrupt(_, _) =>
      AnswerKept(env, s, step);
      NothingLeft(s, step, Apply(env, s, step));
    case Abandon(_) => AbandonLeaves(env, s, t);
    case WakeEvent(_, choice) => WakeEventKept(env, s, t, choice);
    case WakeSearch(_, choice) => WakeSearchKept(env, s, t, choice);
    case WakeBusy(_) => WakeBusyKept(env, s, t);
  }

  /** A lock is leaked exactly by the listed steps, and for ever. */
  lemma ExactLeaks(env: WS.Env, n: nat, s: State, step: Step, x: LockName)
    requires n > 0 && Invariant(n, s) && Enabled(env, s, step)
    ensures Leaked(Apply(env, s, step), x) <==> Leaked(s, x) || Leaks(s, step, x)
  {
    hide Kept, TaskStep, LeavesBehind, Enabled, Apply, Leaks, Leaked, LocksOk, FreshOk, TablesOk, TasksOk, EventOk;
    if ByTask(step) {
      StepKept(env, n, s, step);
      StepEffect(env, n, s, step);
      LeakCases(env, n, s, step, x, Apply(env, s, step));
    } else {
      WorkerLeaks(env, s, step, x);
    }
  }

  lemma WorkerLeaks(env: WS.Env, s: State, step: Step, x: LockName)
    requires Enabled(env, s, step) && !ByTask(step)
    ensures !Leaks(s, step, x) && (Leaked(Apply(env, s, step), x) <==> Leaked(s, x))
  {
    WorkerSame(env, s, step);
    hide Apply, Enabled;
  }

  lemma LeakCases(env: WS.Env, n: nat, s: State, step: Step, x: LockName, s': State)
    requires LocksOk(s) && Enabled(env, s, step) && ByTask(step) && Kept(s, step.t, s')
    requires TaskStep(s, step.t, From(s, step.t), s')
    requires LeavesBehind(s, step, step.t, s')
    ensures Leaked(s', x) <==> Leaked(s, x) || Leaks(s, step, x)
  {
    assert LockOf(s, x) == At(s.locks, x);
  }

  lemma NothingLeaked(env: WS.Env, n: nat, run: Run, x: LockName)
    requires IsRun(env, n, run)
    ensures !Leaked(run.states[0], x)
  {
  }

  /** Over a whole run: a lock is leaked if and only if an earlier step leaked it. */
  lemma {:induction false} LeakHistory(env: WS.Env, n: nat, run: Run, i: nat, x: LockName)
    requires n > 0 && IsRun(env, n, run) && i < |run.states|
    ensures Leaked(run.states[i], x) <==> exists j :: 0 <= j < i && Leaks(run.states[j], run.steps[j], x)
  {
    hide IsRun, Enabled, Apply, Leaks, Leaked, LocksOk, FreshOk, TablesOk, TasksOk, EventOk, PipesOk;
    RunStart(env, n, run);
    if i == 0 {
      NothingLeaked(env, n, run, x);
    } else {
      RunGood(env, n, run, i - 1);
      RunStep(env, n, run, i - 1);
      LeakHistory(env, n, run, i - 1, x);
      ExactLeaks(env, n, run.states[i - 1], run.steps[i - 1], x);
    }
  }

  // ---- chains of blocked requests ---------------------------------------------------------

  /** The end of the chain of a blocked request: the lock it awaits, or, if that is a search lock
      whose holder itself awaits a busy lock, that busy lock. */
  function RootOf(s: State, t: Rack): LockName
    requires t in s.tasks && Waits(s.tasks[t].pc).Some?
  {
    var x := Waits(s.tasks[t].pc).value;
    var holder := LockOf(s, x).holder;
    if x.Search? && holder.Some? && holder.value in s.tasks && s.tasks[holder.value].pc.WaitBusy?
    then Busy(s.tasks[holder.value].pc.pid) else x
  }

  /** The lock is free and the head of its queue, which has been woken, can take it now. */
  ghost predicate AboutToMove(env: WS.Env, s: State, x: LockName) {
    && LockOf(s, x).holder.None? && LockOf(s, x).queue != []
    && var head := LockOf(s, x).queue[0];
       if x.Search? then exists choice :: Enabled(env, s, WakeSearch(head, choice)) else Enabled(env, s, WakeBusy(head))
  }

  /** The lock is the busy lock of a running process whose holder awaits its answer. */
  predicate AwaitsWorker(s: State, x: LockName) {
    && x.Busy? && x.pid in s.live && LockOf(s, x).holder.Some?
    && LockOf(s, x).holder.value in s.tasks && s.tasks[LockOf(s, x).holder.value].pc.AwaitAnswer?
    && s.tasks[LockOf(s, x).holder.value].pc.pid == x.pid
  }

  /** Search locks come before busy locks: who holds a search lock awaits at most a busy lock, and
      who holds a busy lock awaits no lock. */
  lemma LockOrder(env: WS.Env, n: nat, s: State, x: LockName)
    requires n > 0 && Invariant(n, s) && LockOf(s, x).holder.Some?
    ensures var holder := LockOf(s, x).holder.value;
            && holder in s.tasks
            && (Leaked(s, x) || (if x.Search? then s.tasks[holder].pc.WaitBusy? else AwaitsWorker(s, x)))
  {
    assert LockOf(s, x) == At(s.locks, x);
    assert TaskOk(s, LockOf(s, x).holder.value);
  }

  lemma FreeLockMoves(env: WS.Env, n: nat, s: State, x: LockName)
    requires n > 0 && Invariant(n, s) && LockOf(s, x).holder.None? && LockOf(s, x).queue != []
    ensures AboutToMove(env, s, x)
  {
    hide LocksOk, FreshOk, EventOk;
    HeadWaits(s, x);
    var head := LockOf(s, x).queue[0];
    assert TaskOk(s, head);
    hide TasksOk, TaskOk, LockOf;
    if x.Search? {
      HeadWakes(env, s, x.id, head);
    }
  }

  lemma HeadWakes(env: WS.Env, s: State, id: LockId, head: Rack)
    requires Linked(s.sessions, s.live) && Promised(s, Search(id), head) && head in s.tasks
    requires s.tasks[head].pc == WaitSearch(id) && s.tasks[head].msg.session.Some?
    ensures Enabled(env, s, WakeSearch(head, 0))
  {
    hide Promised;
  }

  lemma HeadWaits(s: State, x: LockName)
    requires LocksOk(s) && LockOf(s, x).queue != []
    ensures LockOf(s, x).queue[0] in s.tasks && Waits(s.tasks[LockOf(s, x).queue[0]].pc) == Some(x)
  {
    assert LockOf(s, x) == At(s.locks, x) && LockOf(s, x).queue[0] in At(s.locks, x).queue;
  }

  /** In every reachable state the chain of a blocked request ends in exactly one of three ways: at
      a lock that a woken request is about to take, at a request waiting on its worker, or at a lock
      that has been leaked. */
  lemma ChainEnds(env: WS.Env, n: nat, s: State, t: Rack)
    requires n > 0 && Invariant(n, s) && t in s.tasks && Waits(s.tasks[t].pc).Some?
    ensures var x := RootOf(s, t);
            && (Leaked(s, x) || AboutToMove(env, s, x) || AwaitsWorker(s, x))
            && !(Leaked(s, x) && (AboutToMove(env, s, x) || AwaitsWorker(s, x)))
            && !(AboutToMove(env, s, x) && AwaitsWorker(s, x))
  {
    var x := RootOf(s, t);
    QueuedSomewhere(s, t);
    hide Invariant, AboutToMove;
    if LockOf(s, x).holder.Some? {
      LockOrder(env, n, s, x);
    } else {
      FreeLockMoves(env, n, s, x);
    }
    NotBoth(env, s, x);
  }

  lemma NotBoth(env: WS.Env, s: State, x: LockName)
    ensures AboutToMove(env, s, x) ==> LockOf(s, x).holder.None?
  {
  }

  lemma QueuedSomewhere(s: State, t: Rack)
    requires LocksOk(s) && TasksOk(s) && t in s.tasks && Waits(s.tasks[t].pc).Some?
    ensures LockOf(s, RootOf(s, t)).queue != []
    ensures var x := RootOf(s, t); x.Search? && LockOf(s, x).holder.Some? ==> Leaked(s, x)
  {
    var x := Waits(s.tasks[t].pc).value;
    assert LockOf(s, x) == At(s.locks, x) && t in At(s.locks, x).queue;
    var holder := LockOf(s, x).holder;
    if x.Search? && holder.Some? {
      assert holder.value in s.tasks && TaskOk(s, holder.value);
      if s.tasks[holder.value].pc.WaitBusy? {
        var y := Busy(s.tasks[holder.value].pc.pid);
        assert Waits(s.tasks[holder.value].pc) == Some(y);
        assert LockOf(s, y) == At(s.locks, y) && holder.value in At(s.locks, y).queue;
      }
    }
  }

  /** A request behind a leaked lock stays there: whatever any other task or worker does, it moves
      only by giving up. */
  lemma StuckStep(env: WS.Env, n: nat, s: State, step: Step, t: Rack)
    requires n > 0 && Invariant(n, s) && Enabled(env, s, step) && Invariant(n, Apply(env, s, step))
    requires step != Abandon(t)
    requires t in s.tasks && Waits(s.tasks[t].pc).Some? && Leaked(s, RootOf(s, t))
    ensures var s' := Apply(env, s, step);
            t in s'.tasks && s'.tasks[t].pc == s.tasks[t].pc && Leaked(s', RootOf(s', t))
  {
    hide Enabled, Apply, TaskStep, LocksOk, FreshOk, TablesOk, TasksOk, EventOk, Holds;
    var s' := Apply(env, s, step);
    var x := Waits(s.tasks[t].pc).value;
    var root := RootOf(s, t);
    ExactLeaks(env, n, s, step, root);
    if ByTask(step) {
      StepEffect(env, n, s, step);
      BlockedStays(env, s, step, t);
      if root != x {
        var u := LockOf(s, x).holder.value;
        SearchHolder(s, t, u);
        ExactLeaks(env, n, s, step, x);
        if step == Abandon(u) {
          assert Leaks(s, step, x);
        } else {
          BlockedStays(env, s, step, u);
          HolderOf(s', u, x);
        }
      }
    } else {
      WorkerSame(env, s, step);
    }
  }

  lemma WorkerSame(env: WS.Env, s: State, step: Step)
    requires Enabled(env, s, step) && !ByTask(step)
    ensures Apply(env, s, step).tasks == s.tasks && Apply(env, s, step).locks == s.locks
  {
  }

  lemma SearchHolder(s: State, t: Rack, u: Rack)
    requires LocksOk(s) && t in s.tasks && Waits(s.tasks[t].pc).Some? && u in s.tasks && s.tasks[u].pc.WaitBusy?
    requires LockOf(s, Waits(s.tasks[t].pc).value).holder == Some(u)
    ensures Holds(s.tasks[u].pc, Waits(s.tasks[t].pc).value)
  {
    var x := Waits(s.tasks[t].pc).value;
    assert LockOf(s, x) == At(s.locks, x);
  }

  /** A task in the queue of a held lock moves only by giving up. */
  lemma BlockedStays(env: WS.Env, s: State, step: Step, t: Rack)
    requires Enabled(env, s, step) && ByTask(step) && step != Abandon(t)
    requires TaskStep(s, step.t, From(s, step.t), Apply(env, s, step))
    requires t in s.tasks && Waits(s.tasks[t].pc).Some? && LockOf(s, Waits(s.tasks[t].pc).value).holder.Some?
    ensures step.t != t && t in Apply(env, s, step).tasks && Apply(env, s, step).tasks[t].pc == s.tasks[t].pc
  {
  }

  lemma {:induction false} StuckForever(env: WS.Env, n: nat, run: Run, i: nat, j: nat, t: Rack)
    requires n > 0 && IsRun(env, n, run) && i <= j < |run.states|
    requires t in run.states[i].tasks && Waits(run.states[i].tasks[t].pc).Some?
    requires Leaked(run.states[i], RootOf(run.states[i], t))
    requires forall k :: i <= k < j ==> run.steps[k] != Abandon(t)
    ensures t in run.states[j].tasks && run.states[j].tasks[t].pc == run.states[i].tasks[t].pc
    ensures Leaked(run.states[j], RootOf(run.states[j], t))
  {
    hide IsRun, Leaked, RootOf;
    if i < j {
      RunStart(env, n, run);
      StuckForever(env, n, run, i, j - 1, t);
      StuckOnRun(env, n, run, j - 1, t);
    }
  }

  lemma StuckOnRun(env: WS.Env, n: nat, run: Run, j: nat, t: Rack)
    requires n > 0 && IsRun(env, n, run) && j < |run.steps| && run.steps[j] != Abandon(t)
    requires t in run.states[j].tasks && Waits(run.states[j].tasks[t].pc).Some?
    requires Leaked(run.states[j], RootOf(run.states[j], t))
    ensures t in run.states[j + 1].tasks && run.states[j + 1].tasks[t].pc == run.states[j].tasks[t].pc
    ensures Leaked(run.states[j + 1], RootOf(run.states[j + 1], t))
  {
    hide IsRun, Leaked, RootOf, Invariant, Enabled, Apply, PipesOk;
    RunStart(env, n, run);
    RunStep(env, n, run, j);
    RunGood(env, n, run, j);
    RunGood(env, n, run, j + 1);
    StuckStep(env, n, run.states[j], run.steps[j], t);
  }
}
