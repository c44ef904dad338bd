/** A run in which a call returns a result: a heatmap session is opened, a white pixel is uploaded, and
    the call returns the bytes the worker dumped for the map. */
module ResultRun {
  import opened Wrappers
  import opened Pictures
  import opened Messages
  import opened ManagerMachine
  import opened SmallRuns
  import HeatmapImage
  import SharedMemory
  import WS = WorkerSpec

  const OneUpload: Plan := Plan({}, true, {1})

  /** Ten bytes of memory, and every message dumps to the byte 7. */
  const Tiny: WS.Env := WS.Env(10, _ => [7])

  const Opened: Reply := Message(WorkerMessage(MessageType.Ok, 0, None, Nothing, Some("A")))
  const Announced: Reply := Message(WorkerMessage(CheckSharedMemory, 1, None, Length(1), Some("A")))

  lemma Opens()
    ensures WS.Acts(Tiny, [], Request(OneUpload, 0)) == [WS.Send(Opened)]
    ensures WS.Replay(Tiny, [Request(OneUpload, 0)]) == map[Some("A") := WS.Heatmap(1, 1, [])]
  {
    var m := Request(OneUpload, 0);
    assert WS.Replay(Tiny, []) == map[];
    assert [m][..0] == [];
  }

  lemma Shows()
    ensures WS.Acts(Tiny, [Request(OneUpload, 0)], Request(OneUpload, 1)) == [WS.Write([7]), WS.Send(Announced)]
  {
    Opens();
    var st, m := WS.Replay(Tiny, [Request(OneUpload, 0)]), Request(OneUpload, 1);
    hide WS.Replay, WS.Handle, HeatmapImage.GetHeatmap, HeatmapImage.HeatGrid;
    WS.ExactReactions(Tiny, st, m);
    assert WS.Result(st, m).Some?;
  }

  lemma OpenedReturns(memory: seq<Byte>)
    ensures Judge(Caller(OneUpload, 0), Request(OneUpload, 0), Opened, 1, memory) == End(Returned(None), false)
  {
  }

  lemma AnnouncedReturns(memory: seq<Byte>)
    requires |memory| == 10 && SharedMemory.ReadBytes(memory, 1) == [7]
    ensures Judge(Caller(OneUpload, 1), Request(OneUpload, 1), Announced, 1, memory) == End(Returned(Some([7])), false)
  {
  }

  /** The session is open, the upload has been sent. */
  function Asked(): Scene {
    Scene(true, Lock(Some(1), []), Lock(None, []),
          Channel([Request(OneUpload, 0), Request(OneUpload, 1)], 1, [], [Opened], 1, Empty(Tiny).memory),
          [Done(Returned(None)), AwaitAnswer(0, 0)])
  }

  lemma UploadSent() returns (run: Run)
    ensures Gentle(Tiny, run) && run.states != [] && View(Tiny, OneUpload, Last(run), Asked())
  {
    hide View, Leads, Gentle, Last, Request, WS.Acts, Judge;
    run := Begun(Tiny, OneUpload);
    var v := FirstScene(Tiny, OneUpload);
    StartFirstWaiter(Tiny, OneUpload, Last(run), v);
    assert [] + [1] == [1];
    v := Arrives(v.(busy := Lock(Some(0), [1]), search := Lock(Some(1), [])), WaitBusy(0, Some(0)));
    run := Next(Tiny, OneUpload, run, Begin(OneUpload, 1), v);
    Opens();
    assert v.c.sent[..0] == [];
    WorkerTakes(Tiny, OneUpload, Last(run), v, [WS.Send(Opened)]);
    v := v.(c := v.c.(handled := 1, todo := [WS.Send(Opened)]));
    run := Next(Tiny, OneUpload, run, WorkerTake(0), v);
    WorkerSends(Tiny, OneUpload, Last(run), v, Opened);
    v := v.(c := v.c.(todo := [], out := v.c.out + [Opened]));
    run := Next(Tiny, OneUpload, run, WorkerAct(0), v);
    OpenedReturns(v.c.memory);
    Receives(Tiny, OneUpload, Last(run), 0, v, Returned(None));
    v := HasEnded(OneUpload, v.(c := v.c.(taken := 1)), 0, Returned(None));
    run := Next(Tiny, OneUpload, run, Receive(0), v);
    GetBusy(Tiny, OneUpload, Last(run), 1, v);
    v := HasBusy(OneUpload, v, 1);
    run := Next(Tiny, OneUpload, run, WakeBusy(1), v);
    assert v == Asked();
  }

  /** The upload returns the worker's bytes. */
  lemma ResultReturned() returns (run: Run)
    ensures IsRun(Tiny, 1, run) && run.states != []
    ensures var s := Last(run);
            && 1 in s.tasks && s.tasks[1].call.SendResult? && s.tasks[1].msg.content == Upload(Some(White))
            && s.tasks[1].pc == Done(Returned(Some([7])))
  {
    hide View, Leads, Last, WS.Acts, Judge, IsRun, SharedMemory.Written;
    run := UploadSent();
    var v := Asked();
    Shows();
    assert v.c.sent[..1] == [Request(OneUpload, 0)];
    WorkerTakes(Tiny, OneUpload, Last(run), v, [WS.Write([7]), WS.Send(Announced)]);
    v := v.(c := v.c.(handled := 2, todo := [WS.Write([7]), WS.Send(Announced)]));
    run := Next(Tiny, OneUpload, run, WorkerTake(0), v);
    SharedMemory.ReadBack(v.c.memory, [7]);
    WorkerWrites(Tiny, OneUpload, Last(run), v, [7], Announced);
    v := v.(c := v.c.(todo := [WS.Send(Announced)], memory := SharedMemory.Written(v.c.memory, [7])));
    run := Next(Tiny, OneUpload, run, WorkerAct(0), v);
    WorkerSends(Tiny, OneUpload, Last(run), v, Announced);
    v := v.(c := v.c.(todo := [], out := v.c.out + [Announced]));
    run := Next(Tiny, OneUpload, run, WorkerAct(0), v);
    AnnouncedReturns(v.c.memory);
    Receives(Tiny, OneUpload, Last(run), 1, v, Returned(Some([7])));
    v := HasEnded(OneUpload, v.(c := v.c.(taken := 2)), 1, Returned(Some([7])));
    run := Next(Tiny, OneUpload, run, Receive(1), v);
    Position(Tiny, OneUpload, Last(run), v, 1);
  }
}
