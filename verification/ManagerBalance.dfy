/** Exact balance: as long as no session is lost, the processes carry as even a load as there is. */
module ManagerBalance {
  import opened Wrappers
  import opened Messages
  import opened SessionTable
  import opened ManagerMachine
  import opened ManagerLocks
  import opened ManagerFrame
  import opened ManagerInvariant
  import opened ManagerPipes
  import opened ManagerSteps
  import WS = WorkerSpec

  /** Process p was replaced by a fresh one, and none of its sessions is left. */
  ghost predicate Replaces(s: State, p: Pid, s': State) {
    && p in s.live && s'.live == s.live - {p} + {s.nextPid}
    && forall sid :: sid in s'.sessions ==> s'.sessions[sid].pid != Some(p)
  }

  /** No session appeared or changed its entry, and at most one process was replaced. */
  ghost predicate OnlyLoses(s: State, s': State) {
    && (forall sid :: sid in s'.sessions ==> sid in s.sessions && s'.sessions[sid] == s.sessions[sid])
    && (s'.live == s.live || exists p :: Replaces(s, p, s'))
  }

  /** One new session was given to a least loaded process. */
  ghost predicate BindsOne(s: State, s': State) {
    s'.live == s.live && BindStep(s.sessions, s'.sessions, s.live)
  }

  lemma QuietLoses(s: State, t: Rack, s': State)
    requires Quiet(s, t, s')
    ensures OnlyLoses(s, s')
  {
  }

  lemma FinishLoses(s: State, t: Rack, p: Pid, outcome: Outcome, restart: bool)
    requires t in s.tasks && p in s.live && p < s.nextPid
    ensures OnlyLoses(s, Finish(s, t, p, outcome, restart))
  {
    hide LockOf, At, Woken;
    if restart {
      assert Replaces(s, p, Finish(s, t, p, outcome, restart));
    }
  }

  lemma ConcludeLoses(s: State, t: Rack, verdict: Verdict)
    requires t in s.tasks && s.tasks[t].pc.AwaitAnswer? && s.tasks[t].pc.pid in s.live && s.tasks[t].pc.pid < s.nextPid
    ensures OnlyLoses(s, Conclude(s, t, verdict))
  {
    hide Finish, OnlyLoses;
    match verdict
    case Retry =>
      var pc := AwaitAnswer(s.tasks[t].pc.pid, s.tasks[t].pc.count + 1);
      SetPcQuiet(s, t, pc);
      QuietLoses(s, t, SetPc(s, t, pc));
    case End(outcome, restart) => FinishLoses(s, t, s.tasks[t].pc.pid, outcome, restart);
  }

  lemma BindsIsStep(s: State, m: State, sid: SessionId, p: Pid)
    requires Binds(s, m, sid, p)
    ensures BindsOne(s, m)
  {
    assert BindStep(s.sessions, m.sessions, s.live);
  }

  lemma StartTables(env: WS.Env, s: State, t: Rack, call: Call, msg: WorkerMessage, choice: Pid)
    requires t !in s.tasks && s.live != {} && Linked(s.sessions, s.live)
    requires ContinueAllowed(Enter(s, t, call, msg), t, choice)
    ensures var s' := Continue(env, Enter(s, t, call, msg), t, choice);
            OnlyLoses(s, s') || BindsOne(s, s')
  {
    hide OnlyLoses, BindsOne, Quiet, Binds, LeastLoaded, TryBusy;
    var s0 := Spawn(s, t, call, msg);
    var s' := Continue(env, Enter(s, t, call, msg), t, choice);
    if msg.session.None? || msg.session.value in s.sessions {
      StartQuiet(env, s, t, call, msg, choice);
      QuietLoses(s0, t, s');
      SpawnSame(s, t, call, msg, s');
    } else if Clears(call) {
      SetPcQuiet(s0, t, Done(Returned(None)));
      QuietLoses(s0, t, s');
      SpawnSame(s, t, call, msg, s');
    } else {
      var m := FirstChosen(s0, t, msg.session.value, choice);
      FirstQuiet(env, s, t, call, msg, choice);
      BindsIsStep(s0, m, msg.session.value, choice);
      QuietLive(m, t, s');
      SameBind(s, s0, m, s');
    }
  }

  lemma SpawnSame(s: State, t: Rack, call: Call, msg: WorkerMessage, s': State)
    requires OnlyLoses(Spawn(s, t, call, msg), s')
    ensures OnlyLoses(s, s')
  {
    var s0 := Spawn(s, t, call, msg);
    if s'.live != s.live {
      var p :| Replaces(s0, p, s');
      assert Replaces(s, p, s');
    }
  }

  lemma QuietLive(s: State, t: Rack, s': State)
    requires Quiet(s, t, s')
    ensures s'.live == s.live
  {
  }

  lemma SameBind(s: State, s0: State, m: State, s': State)
    requires BindsOne(s0, m) && s0.sessions == s.sessions && s0.live == s.live
    requires s'.live == m.live && s'.sessions == m.sessions
    ensures BindsOne(s, s')
  {
  }

  lemma AnswerTables(env: WS.Env, s: State, step: Step)
    requires Enabled(env, s, step) && (step.Receive? || step.Interrupt?)
    requires s.tasks[step.t].pc.pid in s.live && s.tasks[step.t].pc.pid < s.nextPid
    ensures OnlyLoses(s, Apply(env, s, step))
  {
    var t := step.t;
    var p := s.tasks[t].pc.pid;
    match step
    case Receive(_) =>
      hide Conclude, Judge;
      ConcludeLoses(Popped(env, s, p), t, VerdictFor(env, s, t));
      PoppedSame(env, s, p, Apply(env, s, step));
    case Interrupt(_, restart) =>
      hide Finish;
      FinishLoses(s, t, p, Failed(AnswerInterrupted), restart);
  }

  lemma PoppedSame(env: WS.Env, s: State, p: Pid, s': State)
    requires OnlyLoses(Popped(env, s, p), s')
    ensures OnlyLoses(s, s')
  {
    var s0 := Popped(env, s, p);
    if s'.live != s.live {
      var q :| Replaces(s0, q, s');
      assert Replaces(s, q, s');
    }
  }

  /** Every step binds one new session to a least loaded process, or loses sessions only. */
  lemma StepTables(env: WS.Env, n: nat, s: State, step: Step)
    requires n > 0 && Invariant(n, s) && Enabled(env, s, step)
    ensures OnlyLoses(s, Apply(env, s, step)) || BindsOne(s, Apply(env, s, step))
  {
    assert s.live != {} && Linked(s.sessions, s.live);
    if step.Receive? || step.Interrupt? {
      AwaitedLive(s, step.t);
    }
    if step.WakeEvent? {
      assert TaskOk(s, step.t);
    }
    hide LocksOk, FreshOk, TablesOk, TasksOk, EventOk, OnlyLoses, BindsOne, Quiet;
    match step
    case Start(t, call, msg, choice) => StartTables(env, s, t, call, msg, choice);
    case Receive(_) => AnswerTables(env, s, step);
    case Interrupt(_, _) => AnswerTables(env, s, step);
    case WorkerTake(_) => SameTable(s, Apply(env, s, step));
    case WorkerAct(_) => SameTable(s, Apply(env, s, step));
    case Abandon(t) =>
      AbandonQuiet(s, t);
      QuietLoses(s, t, Apply(env, s, step));
    case WakeBusy(t) =>
      WakeBusyQuiet(env, s, t);
      QuietLoses(s, t, Apply(env, s, step));
    case _ =>
      WakeQuiet(env, s, step);
      QuietLoses(s, step.t, Apply(env, s, step));
  }

  lemma SameTable(s: State, s': State)
    requires s'.sessions == s.sessions && s'.live == s.live
    ensures OnlyLoses(s, s')
  {
  }

  // ---- balance ----------------------------------------------------------------------------

  /** A fresh process takes the place of one without sessions. */
  lemma ReplacedBalanced(s: State, p: Pid, s': State)
    requires Balanced(s.sessions, s.live) && Linked(s.sessions, s.live) && s.nextPid !in s.live
    requires Replaces(s, p, s') && s'.sessions == s.sessions
    ensures Balanced(s'.sessions, s'.live)
  {
    assert Bound(s.sessions, p) == {} && Bound(s.sessions, s.nextPid) == {};
    forall q, r | q in s'.live && r in s'.live ensures Load(s'.sessions, q) <= Load(s'.sessions, r) + 1 {
      var q0, r0 := if q == s.nextPid then p else q, if r == s.nextPid then p else r;
      assert Load(s.sessions, q0) <= Load(s.sessions, r0) + 1;
    }
  }

  lemma StepBalanced(s: State, s': State)
    requires OnlyLoses(s, s') || BindsOne(s, s')
    requires Balanced(s.sessions, s.live) && Linked(s.sessions, s.live) && s.nextPid !in s.live
    requires s.sessions.Keys <= s'.sessions.Keys
    ensures Balanced(s'.sessions, s'.live)
  {
    if BindsOne(s, s') {
      BindStepKeeps(s.sessions, s'.sessions, s.live);
    } else {
      assert s'.sessions == s.sessions;
      if s'.live != s.live {
        var p :| Replaces(s, p, s');
        ReplacedBalanced(s, p, s');
      }
    }
  }

  /** Up to moment i no step of the run made a session disappear. */
  ghost predicate NeverLost(run: Run, i: nat)
    requires i < |run.states|
  {
    forall j :: 0 <= j < i ==> run.states[j].sessions.Keys <= run.states[j + 1].sessions.Keys
  }

  lemma NothingYet(env: WS.Env, n: nat, run: Run)
    requires IsRun(env, n, run)
    ensures Balanced(run.states[0].sessions, run.states[0].live)
  {
    assert forall p :: Bound(run.states[0].sessions, p) == {};
  }

  lemma FreshPid(n: nat, s: State)
    requires Invariant(n, s)
    ensures s.nextPid !in s.live && |s.live| == n && Linked(s.sessions, s.live)
  {
  }

  lemma {:induction false} StaysBalanced(env: WS.Env, n: nat, run: Run, i: nat)
    requires n > 0 && IsRun(env, n, run) && i < |run.states| && NeverLost(run, i)
    ensures Balanced(run.states[i].sessions, run.states[i].live)
  {
    hide IsRun, Enabled, Apply, PipesOk, Invariant, OnlyLoses, BindsOne, Balanced;
    RunStart(env, n, run);
    if i == 0 {
      NothingYet(env, n, run);
    } else {
      StaysBalanced(env, n, run, i - 1);
      RunGood(env, n, run, i - 1);
      RunStep(env, n, run, i - 1);
      StepTables(env, n, run.states[i - 1], run.steps[i - 1]);
      FreshPid(n, run.states[i - 1]);
      StepBalanced(run.states[i - 1], run.states[i]);
    }
  }

  /** Exact balance over whole runs: whatever requests, answers, failures and even restarts there
      were, as long as no session has been lost every process carries the floor or the ceiling of
      the number of sessions divided by n. */
  lemma EvenLoads(env: WS.Env, n: nat, run: Run, i: nat, p: Pid)
    requires n > 0 && IsRun(env, n, run) && i < |run.states| && NeverLost(run, i) && p in run.states[i].live
    ensures var k := |run.states[i].sessions|;
            k / n <= Load(run.states[i].sessions, p) <= Share(k, n)
  {
    hide IsRun, PipesOk, Invariant, Balanced;
    RunGood(env, n, run, i);
    FreshPid(n, run.states[i]);
    StaysBalanced(env, n, run, i);
    BalancedIsEven(run.states[i].sessions, run.states[i].live, p);
  }
}
