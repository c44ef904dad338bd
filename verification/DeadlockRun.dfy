/** A run without any acquisition timeout and without any restart that deadlocks: requests 2, 3 and
    4 queue up behind the clear 1 of their own session; request 3 finds the session gone and leaves
    the search lock behind; request 4 waits for ever. On the way the clear receives the error of the
    cancelled request 0, since errors carry no rack. */
module DeadlockRun {
  import opened Wrappers
  import opened Messages
  import opened ManagerMachine
  import opened ManagerLeaks
  import opened SmallRuns
  import WS = WorkerSpec

  const OneClear: Plan := Plan({1}, false, {})

  function Waiting(env: WS.Env, queue: seq<Rack>): Scene {
    Scene(true, Lock(Some(0), [1]), Lock(Some(1), queue), Empty(env).(sent := [Request(OneClear, 0)]),
          [AwaitAnswer(0, 0), WaitBusy(0, Some(0))] + seq(|queue|, _ => WaitSearch(0)))
  }

  /** Request 0 awaits its answer, the clear waits for the process, request 2 for the search lock. */
  lemma OneBehindClear(env: WS.Env) returns (run: Run)
    ensures Gentle(env, run) && run.states != [] && View(env, OneClear, Last(run), Waiting(env, [2]))
  {
    hide View, Leads, Gentle, Last, Empty, Request;
    run := Begun(env, OneClear);
    var v := FirstScene(env, OneClear);
    StartFirstWaiter(env, OneClear, Last(run), v);
    assert [] + [1] == [1];
    v := Arrives(v.(busy := Lock(Some(0), [1]), search := Lock(Some(1), [])), WaitBusy(0, Some(0)));
    run := Next(env, OneClear, run, Begin(OneClear, 1), v);
    StartQueued(env, OneClear, Last(run), v);
    assert [] + [2] == [2];
    v := Arrives(v.(search := Lock(Some(1), [2])), WaitSearch(0));
    run := Next(env, OneClear, run, Begin(OneClear, 2), v);
    assert v == Waiting(env, [2]);
  }

  lemma AllBehindClear(env: WS.Env) returns (run: Run)
    ensures Gentle(env, run) && run.states != [] && View(env, OneClear, Last(run), Waiting(env, [2, 3, 4]))
  {
    hide View, Leads, Gentle, Last, Empty, Request;
    run := OneBehindClear(env);
    var v := Waiting(env, [2]);
    StartQueued(env, OneClear, Last(run), v);
    assert [2] + [3] == [2, 3];
    v := Arrives(v.(search := Lock(Some(1), [2, 3])), WaitSearch(0));
    run := Next(env, OneClear, run, Begin(OneClear, 3), v);
    StartQueued(env, OneClear, Last(run), v);
    assert [2, 3] + [4] == [2, 3, 4];
    v := Arrives(v.(search := Lock(Some(1), [2, 3, 4])), WaitSearch(0));
    run := Next(env, OneClear, run, Begin(OneClear, 4), v);
    assert v == Waiting(env, [2, 3, 4]);
  }

  /** Request 0 has been cancelled, the clear has sent its message, request 2 waits for the process. */
  function ClearAsked(env: WS.Env): Scene {
    Scene(true, Lock(Some(1), [2]), Lock(Some(2), [3, 4]),
          Empty(env).(sent := [Request(OneClear, 0), Request(OneClear, 1)]),
          [Done(Failed(AnswerInterrupted)), AwaitAnswer(0, 0), WaitBusy(0, Some(0)), WaitSearch(0), WaitSearch(0)])
  }

  lemma ClearSent(env: WS.Env) returns (run: Run)
    ensures Gentle(env, run) && run.states != [] && View(env, OneClear, Last(run), ClearAsked(env))
  {
    hide View, Leads, Gentle, Last, Without, Request;
    run := AllBehindClear(env);
    var v := Waiting(env, [2, 3, 4]);
    Cancelled(env, OneClear, Last(run), v);
    v := HasEnded(OneClear, v, 0, Failed(AnswerInterrupted));
    run := Next(env, OneClear, run, Interrupt(0, false), v);
    GetBusy(env, OneClear, Last(run), 1, v);
    v := HasBusy(OneClear, v, 1);
    run := Next(env, OneClear, run, WakeBusy(1), v);
    GetSearch(env, OneClear, Last(run), 2, v);
    WithoutHead(2, [3, 4]);
    assert [2] + [3, 4] == [2, 3, 4] && [] + [2] == [2];
    v := Moves(v.(busy := Lock(Some(1), [2]), search := Lock(Some(2), [3, 4])), 2, WaitBusy(0, Some(0)));
    run := Next(env, OneClear, run, WakeSearch(2, 0), v);
    assert v == ClearAsked(env);
  }

  lemma UploadFails(env: WS.Env)
    ensures WS.Acts(env, [], Request(OneClear, 0)) == [WS.Send(Raised(Other))]
  {
    assert WS.Replay(env, []) == map[];
  }

  function ClearFailed(env: WS.Env): Scene {
    Scene(false, Lock(None, [2]), Lock(Some(2), [3, 4]),
          Channel([Request(OneClear, 0), Request(OneClear, 1)], 1, [], [Raised(Other)], 1, Empty(env).memory),
          [Done(Failed(AnswerInterrupted)), Done(Failed(FromWorker)), WaitBusy(0, Some(0)),
           WaitSearch(0), WaitSearch(0)])
  }

  /** The clear fails with the error of request 0, before the worker has even taken its message. */
  lemma ClearServed(env: WS.Env) returns (run: Run)
    ensures Gentle(env, run) && run.states != [] && View(env, OneClear, Last(run), ClearFailed(env))
  {
    hide View, Leads, Gentle, Last, WS.Acts, Request;
    run := ClearSent(env);
    var v := ClearAsked(env);
    UploadFails(env);
    assert v.c.sent[..0] == [];
    WorkerTakes(env, OneClear, Last(run), v, [WS.Send(Raised(Other))]);
    v := v.(c := v.c.(handled := 1, todo := [WS.Send(Raised(Other))]));
    run := Next(env, OneClear, run, WorkerTake(0), v);
    WorkerSends(env, OneClear, Last(run), v, Raised(Other));
    v := v.(c := v.c.(todo := [], out := v.c.out + [Raised(Other)]));
    run := Next(env, OneClear, run, WorkerAct(0), v);
    Receives(env, OneClear, Last(run), 1, v, Failed(FromWorker));
    v := HasEnded(OneClear, v.(c := v.c.(taken := 1)), 1, Failed(FromWorker));
    run := Next(env, OneClear, run, Receive(1), v);
    assert v == ClearFailed(env);
  }

  /** Deadlock although nobody gave up and nothing was restarted: request 4 is blocked on a search
      lock whose holder, request 3, has ended. */
  lemma Deadlock(env: WS.Env) returns (run: Run)
    ensures Gentle(env, run) && run.states != []
    ensures var s := Last(run);
            && 4 in s.tasks && s.tasks[4].pc == WaitSearch(0) && 3 in s.tasks && s.tasks[3].pc == Done(Failed(NoEntry))
            && RootOf(s, 4) == Search(0) && Leaked(s, Search(0))
  {
    hide View, Leads, Gentle, Last, Without, Request;
    run := ClearServed(env);
    var v := ClearFailed(env);
    GetBusy(env, OneClear, Last(run), 2, v);
    v := HasBusy(OneClear, v, 2);
    run := Next(env, OneClear, run, WakeBusy(2), v);
    FindsNothing(env, OneClear, Last(run), 3, v);
    WithoutHead(3, [4]);
    assert [3] + [4] == [3, 4];
    v := Moves(v.(search := Lock(Some(3), [4])), 3, Done(Failed(NoEntry)));
    run := Next(env, OneClear, run, WakeSearch(3, 0), v);
    Facts(env, OneClear, Last(run), v);
    Position(env, OneClear, Last(run), v, 3);
    Position(env, OneClear, Last(run), v, 4);
  }
}
