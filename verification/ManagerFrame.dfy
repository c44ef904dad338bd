/** What a step of one task leaves alone. */
module ManagerFrame {
  import opened Wrappers
  import opened Messages
  import opened SessionTable
  import opened ManagerMachine
  import opened ManagerLocks
  import WS = WorkerSpec

  /** The process a position is bound to. */
  function Goal(pc: Pc): Option<Pid> {
    match pc
    case WaitBusy(p, _) => Some(p)
    case AwaitAnswer(p, _) => Some(p)
    case _ => None
  }

  /** The session a clear drops when it ends. */
  function Dropped(task: Task): set<SessionId> {
    if Clears(task.call) && task.msg.session.Some? then {task.msg.session.value} else {}
  }

  /** Task t moved, and perhaps dropped its own session; no other task moved, no session appeared or
      changed its entry, no process came or went, and no busy lock became free. */
  ghost predicate Quiet(s: State, t: Rack, s': State) {
    && t in s.tasks && t in s'.tasks
    && s'.tasks[t].call == s.tasks[t].call && s'.tasks[t].msg == s.tasks[t].msg
    && (forall u :: u != t ==> (u in s'.tasks <==> u in s.tasks) && (u in s.tasks ==> s'.tasks[u] == s.tasks[u]))
    && s'.live == s.live && s'.nextPid == s.nextPid && s'.nextLock == s.nextLock
    && (s'.freeEvent ==> s.freeEvent) && s'.peak == s.peak
    && (forall sid :: sid in s'.sessions ==> sid in s.sessions && s'.sessions[sid] == s.sessions[sid])
    && (forall sid :: sid in s.sessions ==> sid in s'.sessions || sid in Dropped(s.tasks[t]))
    && (forall p :: p in s.live && LockOf(s, Busy(p)).holder.Some? ==> LockOf(s', Busy(p)).holder.Some?)
  }

  lemma QuietTrans(s: State, t: Rack, m: State, s': State)
    requires Quiet(s, t, m) && Quiet(m, t, s')
    ensures Quiet(s, t, s')
  {
  }

  lemma TakeQuiet(s: State, t: Rack, x: LockName, pc: Pc)
    requires t in s.tasks
    ensures Quiet(s, t, Take(s, t, x, pc))
  {
  }

  lemma TakeSame(s: State, t: Rack, x: LockName, pc: Pc)
    requires t in s.tasks
    ensures var s' := Take(s, t, x, pc);
            s'.live == s.live && s'.sessions == s.sessions && t in s'.tasks && s'.tasks[t] == s.tasks[t].(pc := pc)
  {
  }

  lemma GiveBackSame(s: State, t: Rack, search: Option<LockId>)
    requires t in s.tasks
    ensures GiveBack(s, t, search).live == s.live && GiveBack(s, t, search).sessions == s.sessions
  {
  }

  lemma ReleaseQuiet(s: State, t: Rack, id: LockId, pc: Pc)
    requires t in s.tasks
    ensures Quiet(s, t, Release(s, t, Search(id), pc))
  {
  }

  lemma EnqueueQuiet(s: State, t: Rack, x: LockName, pc: Pc)
    requires t in s.tasks
    ensures Quiet(s, t, Enqueue(s, t, x, pc))
  {
  }

  lemma DequeueQuiet(s: State, t: Rack, x: LockName, pc: Pc)
    requires t in s.tasks
    ensures Quiet(s, t, Dequeue(s, t, x, pc))
  {
  }

  lemma SetPcQuiet(s: State, t: Rack, pc: Pc)
    requires t in s.tasks
    ensures Quiet(s, t, SetPc(s, t, pc))
  {
  }

  lemma ClosedQuiet(s: State, t: Rack)
    requires t in s.tasks && s.tasks[t].pc.Done?
    ensures Quiet(s, t, Closed(s, t)) && Closed(s, t).tasks[t].pc.Done?
    ensures Closed(s, t).sessions == s.sessions - Dropped(s.tasks[t])
  {
    ClosedFields(s, t);
    ClosedSessions(s, t);
    hide Closed;
  }

  lemma ClosedSessions(s: State, t: Rack)
    requires t in s.tasks
    ensures Closed(s, t).sessions == s.sessions - Dropped(s.tasks[t])
  {
  }

  lemma SentQuiet(env: WS.Env, s: State, t: Rack, p: Pid)
    requires t in s.tasks
    ensures Quiet(s, t, Sent(env, s, t, p)) && Sent(env, s, t, p).tasks == s.tasks
  {
  }

  lemma GiveBackQuiet(s: State, t: Rack, search: Option<LockId>)
    requires t in s.tasks
    ensures Quiet(s, t, GiveBack(s, t, search))
  {
    if search.Some? {
      ReleaseQuiet(s, t, search.value, Running(None));
    }
  }

  lemma EventClearedQuiet(s: State, t: Rack)
    requires t in s.tasks
    ensures Quiet(s, t, s.(freeEvent := false))
  {
  }

  // ---- composed steps ---------------------------------------------------------------------

  /** A task that came to rest: a clear that ended left no entry. */
  predicate Rested(s: State, t: Rack) {
    && t in s.tasks && !s.tasks[t].pc.Running?
    && (s.tasks[t].pc.Done? ==> s.sessions.Keys !! Dropped(s.tasks[t]))
  }

  lemma ObtainedQuiet(env: WS.Env, s: State, t: Rack, p: Pid, search: Option<LockId>)
    requires t in s.tasks
    ensures var s' := Obtained(env, s, t, p, search);
            && Quiet(s, t, s') && Rested(s', t)
            && (if p in s.live then s'.sessions == s.sessions && s'.tasks[t].pc == AwaitAnswer(p, 0)
                else s'.tasks[t].pc.Done?)
  {
    hide Quiet, Closed, LockOf, WithLock, SetPc;
    var s1 := GiveBack(s, t, search);
    GiveBackQuiet(s, t, search);
    TakeSame(s1, t, Busy(p), if p in s.live then AwaitAnswer(p, 0) else Done(Failed(ClosedHandles)));
    GiveBackSame(s, t, search);
    var pc := if p in s.live then AwaitAnswer(p, 0) else Done(Failed(ClosedHandles));
    var s2 := Take(s1, t, Busy(p), pc);
    TakeQuiet(s1, t, Busy(p), pc);
    QuietTrans(s, t, s1, s2);
    if p in s.live {
      SentQuiet(env, s2, t, p);
    } else {
      ClosedQuiet(s2, t);
    }
    QuietTrans(s, t, s2, Obtained(env, s, t, p, search));
  }

  lemma TryBusyQuiet(env: WS.Env, s: State, t: Rack, p: Pid, search: Option<LockId>)
    requires t in s.tasks
    ensures var s' := TryBusy(env, s, t, p, search);
            && Quiet(s, t, s') && Rested(s', t) && !s'.tasks[t].pc.WaitEvent? && !s'.tasks[t].pc.WaitSearch?
            && (p in s.live ==> s'.sessions == s.sessions && Goal(s'.tasks[t].pc) == Some(p))
  {
    hide Quiet;
    if Available(s, Busy(p)) {
      ObtainedQuiet(env, s, t, p, search);
    } else {
      EnqueueQuiet(s, t, Busy(p), WaitBusy(p, search));
    }
  }

  /** A task that is bound agrees with its session's entry; without a session its process is live. */
  predicate BoundRight(s: State, t: Rack)
    requires t in s.tasks
  {
    var goal, session := Goal(s.tasks[t].pc), s.tasks[t].msg.session;
    goal.Some? ==>
      && goal.value in s.live
      && (session.Some? ==> session.value in s.sessions && s.sessions[session.value].pid == goal)
  }

  ghost predicate AllLocked(s: State) {
    forall p :: p in s.live ==> LockOf(s, Busy(p)).holder.Some?
  }

  /** How a task comes out of a step in which it looked for a process. */
  ghost predicate Lands(s: State, t: Rack) {
    && Rested(s, t) && BoundRight(s, t)
    && (s.tasks[t].pc.WaitEvent? ==> s.tasks[t].msg.session.None?)
    && (s.tasks[t].pc.WaitSearch? ==> s.tasks[t].msg.session.Some?)
    && (s.tasks[t].pc == WaitEvent(false) ==> !s.freeEvent && AllLocked(s))
  }

  lemma AfterSearchQuiet(env: WS.Env, s: State, t: Rack, id: LockId, choice: Pid)
    requires t in s.tasks && s.tasks[t].msg.session.Some? && Linked(s.sessions, s.live)
    ensures var s' := AfterSearch(env, s, t, id, choice);
            Quiet(s, t, s') && Lands(s', t) && !s'.tasks[t].pc.WaitEvent?
  {
    var sid := s.tasks[t].msg.session.value;
    var s' := AfterSearch(env, s, t, id, choice);
    if sid in s.sessions {
      var p := s.sessions[sid].pid.value;
      TryBusyQuiet(env, s, t, p, Some(id));
    } else {
      SetPcQuiet(s, t, Done(Failed(NoEntry)));
      ClosedQuiet(SetPc(s, t, Done(Failed(NoEntry))), t);
      QuietTrans(s, t, SetPc(s, t, Done(Failed(NoEntry))), s');
    }
  }

  lemma FreeScanQuiet(env: WS.Env, s: State, t: Rack, choice: Pid)
    requires t in s.tasks && s.tasks[t].msg.session.None? && ScanAllowed(s, choice)
    ensures Quiet(s, t, FreeScan(env, s, t, choice)) && Lands(FreeScan(env, s, t, choice), t)
  {
    var s' := FreeScan(env, s, t, choice);
    if exists p :: p in s.live && Unlocked(s, p) {
      TryBusyQuiet(env, s, t, choice, None);
    } else {
      EventClearedQuiet(s, t);
      SetPcQuiet(s.(freeEvent := false), t, WaitEvent(false));
      QuietTrans(s, t, s.(freeEvent := false), s');
      forall p | p in s'.live ensures LockOf(s', Busy(p)).holder.Some? {
        assert !Unlocked(s, p);
      }
    }
  }

  /** A new session was given to a least loaded process. */
  ghost predicate Binds(s: State, s': State, sid: SessionId, p: Pid) {
    && s'.live == s.live && s'.nextPid == s.nextPid && s'.nextLock == s.nextLock + 1
    && sid !in s.sessions && LeastLoaded(s.sessions, s.live, p)
    && s'.sessions == Bind(s.sessions, sid, s.nextLock, p)
    && s'.peak == if |s'.sessions| > s.peak then |s'.sessions| else s.peak
  }

  lemma PlaceholderLoad(table: Table, sid: SessionId, id: LockId)
    requires sid !in table
    ensures forall q :: Load(table[sid := Entry(id, None)], q) == Load(table, q)
  {
    forall q ensures Load(table[sid := Entry(id, None)], q) == Load(table, q) {
      assert Bound(table[sid := Entry(id, None)], q) == Bound(table, q);
    }
  }

  /** The state in which the first request of a session goes on to the chosen process: the
      placeholder it has just written is already filled. */
  function FirstChosen(s: State, t: Rack, sid: SessionId, choice: Pid): State
    requires t in s.tasks
  {
    Chosen(Take(NewEntry(s, sid), t, Search(s.nextLock), Running(Some(s.nextLock))), sid, s.nextLock, choice)
  }

  lemma FirstSearchQuiet(env: WS.Env, s: State, t: Rack, sid: SessionId, choice: Pid)
    requires t in s.tasks && s.tasks[t].msg.session == Some(sid) && sid !in s.sessions && s.live != {}
    requires ChoiceAllowed(Take(NewEntry(s, sid), t, Search(s.nextLock), Running(Some(s.nextLock))), t, choice)
    ensures var s1 := Take(NewEntry(s, sid), t, Search(s.nextLock), Running(Some(s.nextLock)));
            var s' := AfterSearch(env, s1, t, s.nextLock, choice);
            var m := FirstChosen(s, t, sid, choice);
            && Binds(s, m, sid, choice) && Quiet(m, t, s') && s'.sessions == m.sessions
            && Lands(s', t) && !s'.tasks[t].pc.WaitEvent?
  {
    var m := FirstChosen(s, t, sid, choice);
    PlaceholderLoad(s.sessions, sid, s.nextLock);
    assert m.sessions == Bind(s.sessions, sid, s.nextLock, choice);
    TryBusyQuiet(env, m, t, choice, Some(s.nextLock));
  }

  /** The state in which the first request of a session holds the new search lock. */
  function FirstLocked(s: State, t: Rack, sid: SessionId): State
    requires t in s.tasks
  {
    Take(NewEntry(s, sid), t, Search(s.nextLock), Running(Some(s.nextLock)))
  }

  lemma FirstEnters(env: WS.Env, s: State, t: Rack, call: Call, msg: WorkerMessage, choice: Pid)
    requires t !in s.tasks && msg.session.Some? && msg.session.value !in s.sessions && !Clears(call)
    ensures var s0 := Spawn(s, t, call, msg);
            var s1 := FirstLocked(s0, t, msg.session.value);
            && s1.tasks[t].msg == msg && Enter(s, t, call, msg) == s1
            && (ContinueAllowed(s1, t, choice) ==> ChoiceAllowed(s1, t, choice))
            && Continue(env, s1, t, choice) == AfterSearch(env, s1, t, s.nextLock, choice)
  {
    hide AfterSearch, ChoiceAllowed, LockOf, At;
  }

  /** A new session's first request, from its start to where it comes to rest. */
  lemma FirstQuiet(env: WS.Env, s: State, t: Rack, call: Call, msg: WorkerMessage, choice: Pid)
    requires t !in s.tasks && s.live != {} && msg.session.Some? && msg.session.value !in s.sessions && !Clears(call)
    requires ContinueAllowed(Enter(s, t, call, msg), t, choice)
    ensures var s0 := Spawn(s, t, call, msg);
            var s' := Continue(env, Enter(s, t, call, msg), t, choice);
            var m := FirstChosen(s0, t, msg.session.value, choice);
            && Binds(s0, m, msg.session.value, choice) && Quiet(m, t, s') && s'.sessions == m.sessions
            && Lands(s', t) && !s'.tasks[t].pc.WaitEvent?
  {
    hide Continue, Enter, ContinueAllowed, ChoiceAllowed, AfterSearch, Binds, Quiet, Lands, FirstChosen, Take, NewEntry;
    FirstEnters(env, s, t, call, msg, choice);
    FirstSearchQuiet(env, Spawn(s, t, call, msg), t, msg.session.value, choice);
  }

  lemma WakeQuiet(env: WS.Env, s: State, step: Step)
    requires Linked(s.sessions, s.live) && Enabled(env, s, step) && (step.WakeSearch? || step.WakeEvent?)
    requires step.WakeEvent? ==> s.tasks[step.t].msg.session.None?
    ensures Quiet(s, step.t, Apply(env, s, step)) && Lands(Apply(env, s, step), step.t)
  {
    hide Quiet;
    var t := step.t;
    match step
    case WakeEvent(_, choice) =>
      var s1 := SetPc(s, t, Running(None));
      SetPcQuiet(s, t, Running(None));
      EventClearedQuiet(s1, t);
      QuietTrans(s, t, s1, s1.(freeEvent := false));
      FreeScanQuiet(env, s1.(freeEvent := false), t, choice);
      QuietTrans(s, t, s1.(freeEvent := false), Apply(env, s, step));
    case WakeSearch(_, choice) =>
      var id := s.tasks[t].pc.id;
      var s1 := Dequeue(s, t, Search(id), Running(None));
      DequeueQuiet(s, t, Search(id), Running(None));
      var s2 := Take(s1, t, Search(id), Running(Some(id)));
      TakeQuiet(s1, t, Search(id), Running(Some(id)));
      QuietTrans(s, t, s1, s2);
      AfterSearchQuiet(env, s2, t, id, choice);
      QuietTrans(s, t, s2, Apply(env, s, step));
  }

  lemma WakeBusyQuiet(env: WS.Env, s: State, t: Rack)
    requires Enabled(env, s, WakeBusy(t))
    ensures Quiet(s, t, Apply(env, s, WakeBusy(t))) && Rested(Apply(env, s, WakeBusy(t)), t)
    ensures !Apply(env, s, WakeBusy(t)).tasks[t].pc.WaitEvent? && !Apply(env, s, WakeBusy(t)).tasks[t].pc.WaitSearch?
  {
    hide Quiet;
    var p, search := s.tasks[t].pc.pid, s.tasks[t].pc.search;
    var s1 := Dequeue(s, t, Busy(p), Running(search));
    DequeueQuiet(s, t, Busy(p), Running(search));
    ObtainedQuiet(env, s1, t, p, search);
    QuietTrans(s, t, s1, Apply(env, s, WakeBusy(t)));
  }

  lemma AbandonQuiet(s: State, t: Rack)
    requires t in s.tasks
    ensures Quiet(s, t, Abandoned(s, t)) && Rested(Abandoned(s, t), t) && Abandoned(s, t).tasks[t].pc.Done?
  {
    hide Quiet;
    var pc := Done(Failed(AcquireInterrupted));
    match Waits(s.tasks[t].pc)
    case Some(x) =>
      DequeueQuiet(s, t, x, pc);
      ClosedQuiet(Dequeue(s, t, x, pc), t);
      QuietTrans(s, t, Dequeue(s, t, x, pc), Abandoned(s, t));
    case None =>
      SetPcQuiet(s, t, pc);
      ClosedQuiet(SetPc(s, t, pc), t);
      QuietTrans(s, t, SetPc(s, t, pc), Abandoned(s, t));
  }

  /** A known session's request, or one without session. */
  lemma StartQuiet(env: WS.Env, s: State, t: Rack, call: Call, msg: WorkerMessage, choice: Pid)
    requires Linked(s.sessions, s.live) && t !in s.tasks && ContinueAllowed(Enter(s, t, call, msg), t, choice)
    requires msg.session.Some? ==> msg.session.value in s.sessions
    ensures var s' := Continue(env, Enter(s, t, call, msg), t, choice);
            Quiet(Spawn(s, t, call, msg), t, s') && Lands(s', t)
  {
    hide Quiet;
    var s0 := Spawn(s, t, call, msg);
    if msg.session.None? {
      FreeScanQuiet(env, s0, t, choice);
    } else if call.Init? {
      SetPcQuiet(s0, t, Done(Failed(AlreadyExists)));
    } else {
      var id := s.sessions[msg.session.value].lock;
      if Available(s, Search(id)) {
        var s1 := Take(s0, t, Search(id), Running(Some(id)));
        TakeQuiet(s0, t, Search(id), Running(Some(id)));
        AfterSearchQuiet(env, s1, t, id, choice);
        QuietTrans(s0, t, s1, Continue(env, s1, t, choice));
      } else {
        EnqueueQuiet(s0, t, Search(id), WaitSearch(id));
      }
    }
  }
}
