/** Session affinity, the load bound and the effect of clears, over whole runs. */
module ManagerSessions {
  import opened Wrappers
  import opened Messages
  import opened SessionTable
  import opened ManagerMachine
  import opened ManagerLocks
  import opened ManagerFrame
  import opened ManagerInvariant
  import opened ManagerSteps
  import WS = WorkerSpec

  // ---- what one step does to the session table --------------------------------------------

  /** An entry is written once, when it is new, with a search lock never used before; after that it
      stays as it is until it disappears. */
  ghost predicate EntriesStable(s: State, s': State) {
    && s.nextLock <= s'.nextLock
    && forall sid :: sid in s'.sessions ==>
         if sid in s.sessions then s'.sessions[sid] == s.sessions[sid]
         else s'.sessions[sid].lock == s.nextLock < s'.nextLock
  }

  /** The sessions that vanish are the one a clear drops and those of a replaced process. */
  ghost predicate OnlyOwnRemoved(s: State, task: Task, from: Pc, s': State) {
    forall sid :: sid in s.sessions && sid !in s'.sessions ==>
      sid in Dropped(task) || (from.AwaitAnswer? && from.pid !in s'.live && s.sessions[sid].pid == Some(from.pid))
  }

  /** The whole effect of a step of task t, coming from position `from`. */
  ghost predicate TaskStep(s: State, t: Rack, from: Pc, s': State) {
    && EntriesStable(s, s') && (s'.peak == s.peak || s'.peak == |s'.sessions|)
    && Rested(s', t) && OnlyOwnRemoved(s, s'.tasks[t], from, s')
    && (Goal(from).None? ==> BoundRight(s', t))
    && s.tasks.Keys <= s'.tasks.Keys
    && (forall u :: u != t && u in s'.tasks ==>
          u in s.tasks && (s'.tasks[u] == s.tasks[u] || s'.tasks[u] == Woken(s.tasks[u])))
  }

  lemma QuietStep(s: State, t: Rack, s': State)
    requires Quiet(s, t, s') && Rested(s', t) && (Goal(s.tasks[t].pc).None? ==> BoundRight(s', t))
    ensures TaskStep(s, t, s.tasks[t].pc, s')
  {
  }

  /** The first request of a session: m is the state in which the session has just been bound. */
  lemma BoundStep(s: State, m: State, t: Rack, sid: SessionId, p: Pid, s': State)
    requires t !in s.tasks && Binds(s, m, sid, p) && Quiet(m, t, s') && s'.sessions == m.sessions && Lands(s', t)
    requires m.tasks.Keys == s.tasks.Keys + {t} && forall u :: u in s.tasks ==> m.tasks[u] == s.tasks[u]
    ensures TaskStep(s, t, Running(None), s')
  {
    hide LeastLoaded, LockOf, BoundRight, Woken, WithinShare;
  }

  lemma FirstChosenTasks(s: State, t: Rack, sid: SessionId, choice: Pid)
    requires t in s.tasks
    ensures FirstChosen(s, t, sid, choice).tasks.Keys == s.tasks.Keys
    ensures forall u :: u in s.tasks && u != t ==> FirstChosen(s, t, sid, choice).tasks[u] == s.tasks[u]
  {
  }

  lemma BindsFrom(s: State, s0: State, m: State, sid: SessionId, p: Pid)
    requires Binds(s0, m, sid, p) && s0 == s.(tasks := s0.tasks)
    ensures Binds(s, m, sid, p)
  {
  }

  /** A clear of an unknown session does nothing. */
  lemma ClearNothingStep(env: WS.Env, s: State, t: Rack, call: Call, msg: WorkerMessage, choice: Pid)
    requires t !in s.tasks && msg.session.Some? && msg.session.value !in s.sessions && Clears(call)
    ensures TaskStep(s, t, Running(None), Continue(env, Enter(s, t, call, msg), t, choice))
  {
    hide LockOf, At;
    assert Continue(env, Enter(s, t, call, msg), t, choice) == SetPc(Spawn(s, t, call, msg), t, Done(Returned(None)));
    hide Enter, Continue;
  }

  lemma StartNewStep(env: WS.Env, s: State, t: Rack, call: Call, msg: WorkerMessage, choice: Pid)
    requires t !in s.tasks && s.live != {} && msg.session.Some? && msg.session.value !in s.sessions
    requires ContinueAllowed(Enter(s, t, call, msg), t, choice)
    ensures TaskStep(s, t, Running(None), Continue(env, Enter(s, t, call, msg), t, choice))
  {
    hide TaskStep, Quiet, Binds, FirstChosen, Lands, Continue, Enter, ContinueAllowed;
    if Clears(call) {
      ClearNothingStep(env, s, t, call, msg, choice);
    } else {
      var s0, sid := Spawn(s, t, call, msg), msg.session.value;
      var m := FirstChosen(s0, t, sid, choice);
      FirstQuiet(env, s, t, call, msg, choice);
      BindsFrom(s, s0, m, sid, choice);
      FirstChosenTasks(s0, t, sid, choice);
      BoundStep(s, m, t, sid, choice, Continue(env, Enter(s, t, call, msg), t, choice));
    }
  }

  lemma StartStep(env: WS.Env, s: State, t: Rack, call: Call, msg: WorkerMessage, choice: Pid)
    requires t !in s.tasks && s.live != {} && Linked(s.sessions, s.live)
    requires ContinueAllowed(Enter(s, t, call, msg), t, choice)
    ensures TaskStep(s, t, Running(None), Continue(env, Enter(s, t, call, msg), t, choice))
  {
    var s0 := Spawn(s, t, call, msg);
    var s' := Continue(env, Enter(s, t, call, msg), t, choice);
    if msg.session.Some? && msg.session.value !in s.sessions {
      StartNewStep(env, s, t, call, msg, choice);
    } else {
      StartQuiet(env, s, t, call, msg, choice);
      QuietStep(s0, t, s');
      assert s0.tasks[t].pc == Running(None);
      hide Quiet, Continue, Enter;
      assert TaskStep(s0, t, Running(None), s');
    }
  }

  lemma SeekStep(env: WS.Env, s: State, step: Step)
    requires Linked(s.sessions, s.live) && Enabled(env, s, step)
    requires (step.WakeSearch? || step.WakeBusy? || step.WakeEvent? || step.Abandon?)
    requires step.WakeEvent? ==> s.tasks[step.t].msg.session.None?
    ensures TaskStep(s, step.t, s.tasks[step.t].pc, Apply(env, s, step))
    ensures Apply(env, s, step).tasks[step.t].msg == s.tasks[step.t].msg
    ensures Apply(env, s, step).tasks[step.t].call == s.tasks[step.t].call
  {
    var t := step.t;
    if step.WakeBusy? {
      WakeBusyQuiet(env, s, t);
    } else if step.Abandon? {
      AbandonQuiet(s, t);
    } else {
      WakeQuiet(env, s, step);
    }
    QuietStep(s, t, Apply(env, s, step));
  }

  lemma RestartEffect(s: State, p: Pid)
    requires p in s.live && p < s.nextPid
    ensures var s' := Restart(s, p);
            && s'.tasks == s.tasks && s'.peak == s.peak && s'.nextLock == s.nextLock && p !in s'.live
            && (forall sid :: sid in s'.sessions ==> sid in s.sessions && s'.sessions[sid] == s.sessions[sid])
            && (forall sid :: sid in s.sessions && sid !in s'.sessions ==> s.sessions[sid].pid == Some(p))
  {
  }

  lemma FinishStep(s: State, t: Rack, p: Pid, outcome: Outcome, restart: bool)
    requires t in s.tasks && s.tasks[t].pc.AwaitAnswer? && s.tasks[t].pc.pid == p && p in s.live && p < s.nextPid
    ensures TaskStep(s, t, s.tasks[t].pc, Finish(s, t, p, outcome, restart))
  {
    hide Closed, Notify, Release, Restart, Woken;
    var s1 := Freed(s, t, p, outcome);
    FreedTasks(s, t, p, outcome);
    RestartEffect(s1, p);
    var s2 := if restart then Restart(s1, p) else s1;
    ClosedFields(s2, t);
    ClosedSessions(s2, t);
  }

  lemma ConcludeStep(s: State, t: Rack, verdict: Verdict)
    requires t in s.tasks && s.tasks[t].pc.AwaitAnswer? && s.tasks[t].pc.pid in s.live && s.tasks[t].pc.pid < s.nextPid
    ensures TaskStep(s, t, s.tasks[t].pc, Conclude(s, t, verdict))
    ensures Conclude(s, t, verdict).tasks[t].msg == s.tasks[t].msg
    ensures Conclude(s, t, verdict).tasks[t].call == s.tasks[t].call
  {
    match verdict
    case Retry =>
      var pc := AwaitAnswer(s.tasks[t].pc.pid, s.tasks[t].pc.count + 1);
      SetPcQuiet(s, t, pc);
      QuietStep(s, t, SetPc(s, t, pc));
    case End(outcome, restart) =>
      FinishStep(s, t, s.tasks[t].pc.pid, outcome, restart);
      FinishedTasks(s, t, s.tasks[t].pc.pid, outcome, restart);
  }

  function From(s: State, t: Rack): Pc {
    if t in s.tasks then s.tasks[t].pc else Running(None)
  }

  predicate ByTask(step: Step) {
    !step.WorkerTake? && !step.WorkerAct?
  }

  lemma StepEffect(env: WS.Env, n: nat, s: State, step: Step)
    requires n > 0 && Invariant(n, s) && Enabled(env, s, step) && ByTask(step)
    ensures TaskStep(s, step.t, From(s, step.t), Apply(env, s, step))
  {
    var t := step.t;
    assert s.live != {};
    if t in s.tasks {
      assert TaskOk(s, t);
    }
    if step.Receive? || step.Interrupt? {
      AwaitedLive(s, t);
    }
    hide LocksOk, FreshOk, TasksOk, EventOk, TaskStep;
    match step
    case Start(_, call, msg, choice) => StartStep(env, s, t, call, msg, choice);
    case Receive(_) =>
      var s1 := Popped(env, s, s.tasks[t].pc.pid);
      ConcludeStep(s1, t, VerdictFor(env, s, t));
      SameTables(s, s1, t, Apply(env, s, step));
    case Interrupt(_, restart) => FinishStep(s, t, s.tasks[t].pc.pid, Failed(AnswerInterrupted), restart);
    case _ => SeekStep(env, s, step);
  }

  lemma SameTables(s: State, s1: State, t: Rack, s': State)
    requires s1 == s.(channels := s1.channels) && t in s.tasks && TaskStep(s1, t, s1.tasks[t].pc, s')
    ensures TaskStep(s, t, s.tasks[t].pc, s')
  {
  }

  // ---- affinity ---------------------------------------------------------------------------

  lemma EntriesStep(env: WS.Env, n: nat, run: Run, i: nat)
    requires n > 0 && IsRun(env, n, run) && i < |run.steps|
    ensures EntriesStable(run.states[i], run.states[i + 1])
    ensures run.states[i + 1].peak == run.states[i].peak || run.states[i + 1].peak == |run.states[i + 1].sessions|
  {
    hide IsRun;
    RunStart(env, n, run);
    RunGood(env, n, run, i);
    RunStep(env, n, run, i);
    if ByTask(run.steps[i]) {
      StepEffect(env, n, run.states[i], run.steps[i]);
    }
  }

  lemma LocksKnown(env: WS.Env, n: nat, run: Run, i: nat)
    requires n > 0 && IsRun(env, n, run) && i < |run.states|
    ensures forall sid :: sid in run.states[i].sessions ==> run.states[i].sessions[sid].lock < run.states[i].nextLock
    ensures |run.states| == |run.steps| + 1
  {
    RunGood(env, n, run, i);
  }

  /** An entry's process is written once in the entry's lifetime: as long as the session has the same
      search lock, it has the same process. */
  lemma {:induction false} EntryFixed(env: WS.Env, n: nat, run: Run, i: nat, j: nat, sid: SessionId)
    requires n > 0 && IsRun(env, n, run) && i <= j < |run.states| && sid in run.states[i].sessions
    ensures var entry := run.states[i].sessions[sid];
            && entry.lock < run.states[j].nextLock
            && (sid in run.states[j].sessions && run.states[j].sessions[sid].lock == entry.lock ==>
                  run.states[j].sessions[sid] == entry)
  {
    hide IsRun;
    LocksKnown(env, n, run, i);
    if i < j {
      EntryFixed(env, n, run, i, j - 1, sid);
      EntriesStep(env, n, run, j - 1);
    }
  }

  /** In this step task t comes to be bound to process p. */
  predicate Becomes(s: State, t: Rack, p: Pid, s': State) {
    Goal(From(s, t)).None? && t in s'.tasks && Goal(s'.tasks[t].pc) == Some(p)
  }

  /** A request that comes to be bound is bound to its session's process, which is live. */
  lemma BoundToEntry(env: WS.Env, n: nat, run: Run, i: nat, t: Rack, p: Pid)
    requires n > 0 && IsRun(env, n, run) && i < |run.steps| && Becomes(run.states[i], t, p, run.states[i + 1])
    ensures BoundRight(run.states[i + 1], t)
  {
    RunGood(env, n, run, i);
    var s, step, s' := run.states[i], run.steps[i], run.states[i + 1];
    RunStep(env, n, run, i);
    assert ByTask(step);
    StepEffect(env, n, s, step);
  }

  /** Session affinity. Whatever else happens in between, two requests of a session that come to be
      bound while the session has the same entry are bound to the same process. */
  lemma Affinity(env: WS.Env, n: nat, run: Run, i: nat, j: nat, t: Rack, u: Rack, p: Pid, q: Pid)
    requires n > 0 && IsRun(env, n, run) && i <= j < |run.steps|
    requires Becomes(run.states[i], t, p, run.states[i + 1]) && Becomes(run.states[j], u, q, run.states[j + 1])
    requires var session := run.states[i + 1].tasks[t].msg.session;
             && session.Some? && run.states[j + 1].tasks[u].msg.session == session
             && (session.value in run.states[i + 1].sessions && session.value in run.states[j + 1].sessions ==>
                   run.states[i + 1].sessions[session.value].lock == run.states[j + 1].sessions[session.value].lock)
    ensures p == q
  {
    BoundToEntry(env, n, run, i, t, p);
    BoundToEntry(env, n, run, j, u, q);
    EntryFixed(env, n, run, i + 1, j + 1, run.states[i + 1].tasks[t].msg.session.value);
  }

  // ---- loads ------------------------------------------------------------------------------

  lemma {:induction false} PeakBelow(env: WS.Env, n: nat, run: Run, i: nat, k: nat)
    requires n > 0 && IsRun(env, n, run) && i < |run.states|
    requires forall j :: 0 <= j <= i ==> |run.states[j].sessions| <= k
    ensures run.states[i].peak <= k
  {
    hide IsRun, EntriesStable;
    StartsEmpty(env, n, run);
    if i > 0 {
      EntriesStep(env, n, run, i - 1);
      PeakBelow(env, n, run, i - 1, k);
      assert |run.states[i].sessions| <= k;
    }
  }

  lemma StartsEmpty(env: WS.Env, n: nat, run: Run)
    requires IsRun(env, n, run)
    ensures |run.states| == |run.steps| + 1 && run.states[0].peak == 0 && run.states[0].sessions == map[]
  {
  }

  /** The load bound over whole runs, with any mix of binds, clears and restarts: if never more than
      k sessions were held at once, no process ever carries more than ceil(k / n) of them. */
  lemma LoadBound(env: WS.Env, n: nat, run: Run, i: nat, k: nat, p: Pid)
    requires n > 0 && IsRun(env, n, run) && i < |run.states| && p in run.states[i].live
    requires forall j :: 0 <= j <= i ==> |run.states[j].sessions| <= k
    ensures Load(run.states[i].sessions, p) <= Share(k, n)
  {
    RunGood(env, n, run, i);
    PeakBelow(env, n, run, i, k);
    ShareMonotone(run.states[i].peak, k, n);
  }

  // ---- the session map --------------------------------------------------------------------

  /** At every suspension point of every run there are n processes, and every session is linked to
      one of them; so neither clear method ever finds a session without a process. */
  lemma SessionMap(env: WS.Env, n: nat, run: Run, i: nat)
    requires n > 0 && IsRun(env, n, run) && i < |run.states|
    ensures |run.states[i].live| == n && Linked(run.states[i].sessions, run.states[i].live)
  {
    RunGood(env, n, run, i);
  }

  /** However a clear ends, whether by returning, by an error, by a timeout or after a restart that
      had removed the entry already, its session has no entry when it ends; and what its steps
      remove besides is only what belonged to a process it had replaced. */
  lemma ClearUnbinds(env: WS.Env, n: nat, run: Run, i: nat, sid: SessionId)
    requires n > 0 && IsRun(env, n, run) && i < |run.steps| && ByTask(run.steps[i])
    requires var s' := run.states[i + 1];
             var t := run.steps[i].t;
             t in s'.tasks && Clears(s'.tasks[t].call) && s'.tasks[t].msg.session == Some(sid) && s'.tasks[t].pc.Done?
    ensures sid !in run.states[i + 1].sessions
    ensures forall other :: other in run.states[i].sessions && other !in run.states[i + 1].sessions && other != sid ==>
              var from := From(run.states[i], run.steps[i].t);
              from.AwaitAnswer? && from.pid !in run.states[i + 1].live
                  && run.states[i].sessions[other].pid == Some(from.pid)
  {
    RunGood(env, n, run, i);
    RunStep(env, n, run, i);
    StepEffect(env, n, run.states[i], run.steps[i]);
  }

  /** Two clears of one session: however well the worker answered, a clear returns its result exactly if
      the session is still there when it ends; otherwise its own `del` raises. */
  lemma ClearNeedsEntry(env: WS.Env, s: State, t: Rack, sid: SessionId)
    requires Enabled(env, s, Receive(t)) && Clears(s.tasks[t].call) && s.tasks[t].msg.session == Some(sid)
    requires VerdictFor(env, s, t).End? && VerdictFor(env, s, t).outcome.Returned? && !VerdictFor(env, s, t).restart
    ensures var task := Apply(env, s, Receive(t)).tasks[t];
            task.pc == Done(if sid in s.sessions then VerdictFor(env, s, t).outcome else Failed(EntryGone))
  {
  }
}
