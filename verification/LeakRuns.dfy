/** Runs that reach the other failures of the manager: the two further ways to leave a lock behind,
    and a clear that fails although the worker's answer was fine. */
module LeakRuns {
  import opened Wrappers
  import opened Messages
  import opened SessionTable
  import opened ManagerMachine
  import opened ManagerLocks
  import opened ManagerFrame
  import opened ManagerInvariant
  import opened ManagerSteps
  import opened ManagerSessions
  import opened ManagerLeaks
  import opened SmallRuns
  import opened DeadlockRun
  import WS = WorkerSpec

  /** A leaking step at the end of a run leaks. */
  lemma LeaksAtEnd(env: WS.Env, run: Run, step: Step, x: LockName) returns (run': Run)
    requires IsRun(env, 1, run) && run.states != [] && Enabled(env, Last(run), step) && Leaks(Last(run), step, x)
    ensures run' == Run(run.states + [Apply(env, Last(run), step)], run.steps + [step])
    ensures IsRun(env, 1, run') && Leaked(Last(run'), x)
  {
    hide IsRun, Enabled, Apply, Leaks, Leaked, Invariant;
    RunGood(env, 1, run, |run.states| - 1);
    run' := Longer(env, run, step);
    ExactLeaks(env, 1, Last(run), step, x);
  }

  /** The first way: the clear, which has the search lock, gives up waiting for the process. Request 2
      is left behind a lock that nobody will ever release. */
  lemma GivesUp(env: WS.Env) returns (run: Run)
    ensures IsRun(env, 1, run) && run.states != []
    ensures var s := Last(run);
            2 in s.tasks && s.tasks[2].pc == WaitSearch(0) && RootOf(s, 2) == Search(0) && Leaked(s, Search(0))
  {
    hide View, IsRun, Leaked, Apply;
    var before := OneBehindClear(env);
    var s, v := Last(before), Waiting(env, [2]);
    Facts(env, OneClear, s, v);
    Position(env, OneClear, s, v, 1);
    Position(env, OneClear, s, v, 2);
    run := LeaksAtEnd(env, before, Abandon(1), Search(0));
    OthersQueued(env, s, 1, 2);
    StillBehind(Last(run), 2);
  }

  lemma OthersQueued(env: WS.Env, s: State, t: Rack, u: Rack)
    requires Enabled(env, s, Abandon(t)) && u in s.tasks && u != t
    ensures u in Apply(env, s, Abandon(t)).tasks && Apply(env, s, Abandon(t)).tasks[u] == s.tasks[u]
  {
    AbandonQuiet(s, t);
    hide Abandoned;
  }

  lemma StillBehind(s: State, t: Rack)
    requires t in s.tasks && s.tasks[t].pc == WaitSearch(0) && Leaked(s, Search(0))
    ensures RootOf(s, t) == Search(0)
  {
  }

  /** The second way is DeadlockRun.Deadlock. The third: request 0 times out and its process is
      replaced while the clear waits for it; the clear gets the busy lock of the old process, finds
      its pipe closed, and keeps the lock. */
  lemma GetsReplaced(env: WS.Env) returns (run: Run)
    ensures IsRun(env, 1, run) && run.states != []
    ensures var s := Last(run);
            0 !in s.live && Leaked(s, Busy(0)) && 1 in s.tasks && s.tasks[1].pc.Done? && s.tasks[1].pc.outcome.Failed?
  {
    hide View, IsRun, Leaked;
    var begun := OneBehindClear(env);
    var s, v := Last(begun), Waiting(env, [2]);
    Facts(env, OneClear, s, v);
    Position(env, OneClear, s, v, 0);
    Position(env, OneClear, s, v, 1);
    assert Enabled(env, s, Interrupt(0, true));
    PidsKnown(env, begun);
    Replaced(env, s);
    hide Enabled, Apply;
    var before := Longer(env, begun, Interrupt(0, true));
    FindsClosed(env, Last(before));
    run := LeaksAtEnd(env, before, WakeBusy(1), Busy(0));
  }

  lemma PidsKnown(env: WS.Env, run: Run)
    requires IsRun(env, 1, run) && run.states != []
    ensures forall p :: p in Last(run).live ==> p < Last(run).nextPid
  {
    RunGood(env, 1, run, |run.states| - 1);
  }

  lemma Replaced(env: WS.Env, s: State)
    requires Enabled(env, s, Interrupt(0, true)) && s.tasks[0].pc.pid == 0 && 0 in s.live && s.nextPid > 0
    requires LockOf(s, Busy(0)).queue == [1] && 1 in s.tasks && s.tasks[1].pc == WaitBusy(0, Some(0))
    ensures var s' := Apply(env, s, Interrupt(0, true));
            && 0 !in s'.live && Promised(s', Busy(0), 1) && 1 in s'.tasks && s'.tasks[1].pc == WaitBusy(0, Some(0))
  {
    var outcome := Failed(AnswerInterrupted);
    FinishedTasks(s, 0, 0, outcome, true);
    FinishedLocks(s, 0, 0, outcome, true);
    FinishedLive(s, 0, 0, outcome);
    hide Finish;
  }

  lemma FinishedLive(s: State, t: Rack, p: Pid, outcome: Outcome)
    requires t in s.tasks && p in s.live && p < s.nextPid
    ensures p !in Finish(s, t, p, outcome, true).live
  {
    var s1 := Freed(s, t, p, outcome);
    FreedTasks(s, t, p, outcome);
    RestartEffect(s1, p);
    ClosedFields(Restart(s1, p), t);
    hide Closed, Notify, Release, Restart;
  }

  lemma FindsClosed(env: WS.Env, s: State)
    requires 0 !in s.live && Promised(s, Busy(0), 1) && 1 in s.tasks && s.tasks[1].pc == WaitBusy(0, Some(0))
    ensures Enabled(env, s, WakeBusy(1)) && Leaks(s, WakeBusy(1), Busy(0))
    ensures var s' := Apply(env, s, WakeBusy(1));
            0 !in s'.live && 1 in s'.tasks && s'.tasks[1].pc.Done? && s'.tasks[1].pc.outcome.Failed?
  {
    hide Without, LockOf;
  }

  // ---- two clears of one session ----------------------------------------------------------

  const TwoClears: Plan := Plan({1, 2}, true, {})

  function Ok(t: Rack): Reply {
    Message(WorkerMessage(MessageType.Ok, t, None, Nothing, Some("A")))
  }

  /** The worker opens the session, and says ok to any clear of it. */
  lemma AllOk(env: WS.Env, before: seq<WorkerMessage>, t: Rack)
    requires t in {1, 2} || (t == 0 && before == [])
    ensures WS.Acts(env, before, Request(TwoClears, t)) == [WS.Send(Ok(t))]
  {
    if t == 0 {
      assert WS.Replay(env, before) == map[];
    }
  }

  lemma OkIsReturned(t: Rack, memory: seq<Pictures.Byte>)
    requires t < 3
    ensures Judge(Caller(TwoClears, t), Request(TwoClears, t), Ok(t), 1, memory) == End(Returned(None), false)
  {
  }

  /** The worker has handled the first so many messages, all ok, and all answers have been taken. */
  function Handled(env: WS.Env, k: nat): Channel {
    var sent := seq(k, t requires 0 <= t < k => Request(TwoClears, t));
    var out := seq(k, t requires 0 <= t < k => Ok(t));
    Channel(sent, k, [], out, k, Empty(env).memory)
  }

  function Asked(env: WS.Env, k: nat): Channel {
    Handled(env, k).(sent := Handled(env, k).sent + [Request(TwoClears, k)])
  }

  /** The worker handles the message of request t and says ok: two steps. */
  lemma Handles(env: WS.Env, begun: Run, t: Rack, v: Scene) returns (run: Run)
    requires t < 3 && Gentle(env, begun) && begun.states != [] && View(env, TwoClears, Last(begun), v)
    requires v.c == Asked(env, t)
    ensures Gentle(env, run) && run.states != []
    ensures View(env, TwoClears, Last(run), v.(c := Handled(env, t + 1).(taken := t)))
  {
    hide View, Leads, Gentle, Last, WS.Acts, Request, Ok, Asked, Handled;
    AskedNext(env, t);
    AllOk(env, v.c.sent[..t], t);
    WorkerTakes(env, TwoClears, Last(begun), v, [WS.Send(Ok(t))]);
    var w := v.(c := v.c.(handled := t + 1, todo := [WS.Send(Ok(t))]));
    run := Next(env, TwoClears, begun, WorkerTake(0), w);
    WorkerSends(env, TwoClears, Last(run), w, Ok(t));
    w := w.(c := w.c.(todo := [], out := w.c.out + [Ok(t)]));
    run := Next(env, TwoClears, run, WorkerAct(0), w);
  }

  lemma AskedNext(env: WS.Env, t: Rack)
    ensures var c := Asked(env, t);
            && |c.sent| == t + 1 && c.sent[t] == Request(TwoClears, t) && c.handled == t && c.todo == []
            && (t == 0 ==> c.sent[..t] == [])
            && c.(handled := t + 1, out := c.out + [Ok(t)]) == Handled(env, t + 1).(taken := t)
  {
    hide Request, Ok;
  }

  /** One request that awaits its answer is served: three steps. */
  lemma Served(env: WS.Env, begun: Run, t: Rack, v: Scene) returns (run: Run)
    requires t < 3 && Gentle(env, begun) && begun.states != [] && View(env, TwoClears, Last(begun), v)
    requires Stands(v, t, AwaitAnswer(0, 0)) && NobodyParked(v) && v.c == Asked(env, t)
    ensures Gentle(env, run) && run.states != []
    ensures View(env, TwoClears, Last(run), HasEnded(TwoClears, v.(c := Handled(env, t + 1)), t, Returned(None)))
  {
    hide View, Leads, Gentle, Last, Request, Ok, Judge;
    run := Handles(env, begun, t, v);
    var w := v.(c := Handled(env, t + 1).(taken := t));
    OkIsReturned(t, w.c.memory);
    Receives(env, TwoClears, Last(run), t, w, Returned(None));
    w := HasEnded(TwoClears, v.(c := Handled(env, t + 1)), t, Returned(None));
    run := Next(env, TwoClears, run, Receive(t), w);
  }

  function BothWaiting(env: WS.Env): Scene {
    Scene(true, Lock(Some(0), [1]), Lock(Some(1), [2]), Asked(env, 0),
          [AwaitAnswer(0, 0), WaitBusy(0, Some(0)), WaitSearch(0)])
  }

  /** The session is being opened, and both clears are past the check that it exists. */
  lemma BothPastCheck(env: WS.Env) returns (run: Run)
    ensures Gentle(env, run) && run.states != [] && View(env, TwoClears, Last(run), BothWaiting(env))
  {
    hide View, Leads, Gentle, Last, Request;
    run := Begun(env, TwoClears);
    var v := FirstScene(env, TwoClears);
    StartFirstWaiter(env, TwoClears, Last(run), v);
    assert [] + [1] == [1];
    v := Arrives(v.(busy := Lock(Some(0), [1]), search := Lock(Some(1), [])), WaitBusy(0, Some(0)));
    run := Next(env, TwoClears, run, Begin(TwoClears, 1), v);
    StartQueued(env, TwoClears, Last(run), v);
    assert [] + [2] == [2];
    v := Arrives(v.(search := Lock(Some(1), [2])), WaitSearch(0));
    run := Next(env, TwoClears, run, Begin(TwoClears, 2), v);
    assert v == BothWaiting(env);
  }

  function FirstReturned(env: WS.Env): Scene {
    Scene(false, Lock(None, [2]), Lock(Some(2), []), Handled(env, 2),
          [Done(Returned(None)), Done(Returned(None)), WaitBusy(0, Some(0))])
  }

  lemma FirstClearReturns(env: WS.Env) returns (run: Run)
    ensures Gentle(env, run) && run.states != [] && View(env, TwoClears, Last(run), FirstReturned(env))
  {
    hide View, Leads, Gentle, Last, Request, Ok, Without;
    run := BothPastCheck(env);
    var v := BothWaiting(env);
    run := Served(env, run, 0, v);
    v := HasEnded(TwoClears, v.(c := Handled(env, 1)), 0, Returned(None));
    GetBusy(env, TwoClears, Last(run), 1, v);
    v := HasBusy(TwoClears, v, 1);
    run := Next(env, TwoClears, run, WakeBusy(1), v);
    GetSearch(env, TwoClears, Last(run), 2, v);
    WithoutHead(2, []);
    assert [2] + [] == [2] && [] + [2] == [2];
    v := Moves(v.(busy := Lock(Some(1), [2]), search := Lock(Some(2), [])), 2, WaitBusy(0, Some(0)));
    run := Next(env, TwoClears, run, WakeSearch(2, 0), v);
    run := Served(env, run, 1, v);
    v := HasEnded(TwoClears, v.(c := Handled(env, 2)), 1, Returned(None));
    assert v == FirstReturned(env);
  }

  /** Both clears are answered ok by the worker, the second with the very object that makes a clear
      return; but the first has dropped the session, and the second ends with the KeyError of its
      own removal. Nobody gave up and nothing was restarted. */
  lemma OkButGone(env: WS.Env) returns (run: Run)
    ensures Gentle(env, run) && run.states != []
    ensures var s := Last(run);
            var c := ChannelOf(env, s, 0);
            && 1 in s.tasks && s.tasks[1].pc == Done(Returned(None))
            && 2 in s.tasks && Clears(s.tasks[2].call) && s.tasks[2].pc == Done(Failed(EntryGone))
            && |c.out| == 3 && c.taken == 3
            && Judge(s.tasks[2].call, s.tasks[2].msg, c.out[2], 1, c.memory) == End(Returned(None), false)
  {
    hide View, Leads, Gentle, Last, Request, Ok, Judge;
    run := FirstClearReturns(env);
    var v := FirstReturned(env);
    GetBusy(env, TwoClears, Last(run), 2, v);
    v := HasBusy(TwoClears, v, 2);
    run := Next(env, TwoClears, run, WakeBusy(2), v);
    run := Served(env, run, 2, v);
    v := HasEnded(TwoClears, v.(c := Handled(env, 3)), 2, Returned(None));
    Facts(env, TwoClears, Last(run), v);
    Position(env, TwoClears, Last(run), v, 1);
    Position(env, TwoClears, Last(run), v, 2);
    OkIsReturned(2, v.c.memory);
  }
}
