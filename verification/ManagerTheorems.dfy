/** What every run of the manager with its workers guarantees. */
module ManagerTheorems {
  import opened Wrappers
  import opened Pictures
  import opened Messages
  import opened SessionTable
  import opened ManagerMachine
  import opened ManagerLocks
  import opened ManagerInvariant
  import opened ManagerPipes
  import opened ManagerSteps
  import opened ManagerSessions
  import opened ManagerLeaks
  import opened ManagerAnswers
  import SummaryImage
  import WS = WorkerSpec

  // ---- mutual exclusion -------------------------------------------------------------------

  /** At most one request uses a process; it holds the process's busy lock, and the process has not
      been replaced, so the restart of an already restarted process never happens. */
  lemma MutualExclusion(env: WS.Env, n: nat, run: Run, i: nat, t: Rack, u: Rack)
    requires n > 0 && IsRun(env, n, run) && i < |run.states|
    requires var s := run.states[i];
             && t in s.tasks && u in s.tasks && s.tasks[t].pc.AwaitAnswer? && s.tasks[u].pc.AwaitAnswer?
             && s.tasks[t].pc.pid == s.tasks[u].pc.pid
    ensures t == u && LockOf(run.states[i], Busy(run.states[i].tasks[t].pc.pid)).holder == Some(t)
    ensures run.states[i].tasks[t].pc.pid in run.states[i].live
  {
    RunGood(env, n, run, i);
    OneUser(run.states[i], t, u);
    AwaitedLive(run.states[i], t);
  }

  /** Only the holder of the busy lock reads or writes the pipe, in every step of every run. */
  lemma PipesAreExclusive(env: WS.Env, n: nat, run: Run, i: nat, p: Pid)
    requires n > 0 && IsRun(env, n, run) && i < |run.steps| && ByTask(run.steps[i])
    requires ChannelOf(env, run.states[i + 1], p) != ChannelOf(env, run.states[i], p)
    ensures LockOf(run.states[i], Busy(p)).holder == Some(run.steps[i].t)
            || LockOf(run.states[i + 1], Busy(p)).holder == Some(run.steps[i].t)
    ensures ManagersPart(ChannelOf(env, run.states[i], p), ChannelOf(env, run.states[i + 1], p))
  {
    hide PipesOk, LocksOk, Enabled, Apply, ChannelOf, LockOf, ManagersPart;
    RunGood(env, n, run, i);
    RunGood(env, n, run, i + 1);
    RunStep(env, n, run, i);
    PipeUse(env, n, run.states[i], run.steps[i], p);
  }

  // ---- waiting ----------------------------------------------------------------------------

  /** No lost wakeup. While a request without session is parked un-notified, the event is clear and
      every process is in use by a request that awaits its answer, and whose end will set the event.
      As soon as a process is unlocked nobody is parked un-notified, and whoever has been notified
      can go on with that process. */
  lemma NoLostWakeup(env: WS.Env, n: nat, run: Run, i: nat, t: Rack)
    requires n > 0 && IsRun(env, n, run) && i < |run.states|
    requires t in run.states[i].tasks && run.states[i].tasks[t].pc.WaitEvent?
    ensures var s := run.states[i];
            if s.tasks[t].pc.notified then forall p :: Unlocked(s, p) ==> Enabled(env, s, WakeEvent(t, p))
            else !s.freeEvent && forall p :: p in s.live ==> AwaitsWorker(s, Busy(p))
  {
    var s := run.states[i];
    RunGood(env, n, run, i);
    if s.tasks[t].pc.notified {
      assert forall p :: Unlocked(SetPc(s, t, Running(None)), p) == Unlocked(s, p);
    } else {
      forall p | p in s.live ensures AwaitsWorker(s, Busy(p)) {
        LockOrder(env, n, s, Busy(p));
        LiveNotLeaked(s, p);
      }
    }
  }

  lemma LiveNotLeaked(s: State, p: Pid)
    requires LocksOk(s) && p in s.live
    ensures !Leaked(s, Busy(p))
  {
    assert LockOf(s, Busy(p)) == At(s.locks, Busy(p));
  }

  /** Deadlock freedom, exactly. The chain of a blocked request ends at a request waiting on its
      worker, or at a lock that a woken request is about to take, if and only if no earlier step of
      the run left that lock behind; and if one did, the request gets nowhere (StuckForever). */
  lemma DeadlockFreedom(env: WS.Env, n: nat, run: Run, i: nat, t: Rack)
    requires n > 0 && IsRun(env, n, run) && i < |run.states|
    requires t in run.states[i].tasks && Waits(run.states[i].tasks[t].pc).Some?
    ensures var s := run.states[i];
            var x := RootOf(s, t);
            AwaitsWorker(s, x) || AboutToMove(env, s, x) <==>
                !exists j :: 0 <= j < i && Leaks(run.states[j], run.steps[j], x)
  {
    RunGood(env, n, run, i);
    LeakHistory(env, n, run, i, RootOf(run.states[i], t));
    ChainEnds(env, n, run.states[i], t);
  }

  // ---- answers ----------------------------------------------------------------------------

  predicate IsAnswerTo(answer: WorkerMessage, m: WorkerMessage) {
    answer.kind.Data? && answer.rack == m.rack && answer.session in {m.session, None}
  }

  ghost predicate DumpedAnswer(env: WS.Env, m: WorkerMessage, b: seq<Byte>) {
    exists answer :: IsAnswerTo(answer, m) && b == env.dumps(answer)
  }

  lemma PayloadIsAnswer(env: WS.Env, before: seq<WorkerMessage>, m: WorkerMessage)
    ensures var data := Payload(WS.Acts(env, before, m));
            data.Some? ==> WS.Result(WS.Replay(env, before), m).Some?
                           && data.value == env.dumps(WS.Result(WS.Replay(env, before), m).value)
    ensures Payload(WS.Acts(env, before, m)).Some? ==> DumpedAnswer(env, m, Payload(WS.Acts(env, before, m)).value)
  {
    WS.ExactReactions(env, WS.Replay(env, before), m);
    hide WS.Handle;
    if Payload(WS.Acts(env, before, m)).Some? {
      ResultIsAnswer(WS.Replay(env, before), m);
    }
  }

  lemma ResultIsAnswer(st: WS.Sessions, m: WorkerMessage)
    ensures WS.Result(st, m).Some? ==> IsAnswerTo(WS.Result(st, m).value, m)
  {
  }

  /** Own-answer delivery. In every run, whatever was cancelled, timed out, restarted or interleaved
      before: if a call returns a value, the value is what the worker handed over in reaction to that
      very request; if it returns without one where the worker's ok is required, the worker's
      reaction to that very request was ok. The reaction depends only on the requests of the same
      session that were sent to that process before, all of them requests of tasks of this run. */
  lemma OwnAnswerDelivered(env: WS.Env, n: nat, run: Run, i: nat, t: Rack) returns (p: Pid, k: nat)
    requires n > 0 && IsRun(env, n, run) && i < |run.states|
    requires t in run.states[i].tasks && Claims(run.states[i].tasks[t])
    ensures var c := ChannelOf(env, run.states[i], p);
            var m, bytes := run.states[i].tasks[t].msg, run.states[i].tasks[t].pc.outcome.bytes;
            && k < c.handled <= |c.sent| && c.sent[k] == m
            && Delivers(WS.Acts(env, c.sent[..k], m), bytes)
            && Delivers(WS.Acts(env, WS.Project(c.sent[..k], m.session), m), bytes)
            && (bytes.Some? ==> DumpedAnswer(env, m, bytes.value))
            && forall j :: 0 <= j < |c.sent| ==>
                  c.sent[j].rack in run.states[i].tasks && run.states[i].tasks[c.sent[j].rack].msg == c.sent[j]
  {
    var s := run.states[i];
    var m, bytes := s.tasks[t].msg, s.tasks[t].pc.outcome.bytes;
    RunGood(env, n, run, i);
    assert Served(env, s, m, bytes);
    hide IsRun, Invariant, ChannelOk, WS.Acts, Claims;
    p, k :| ServedAt(env, ChannelOf(env, s, p), k, m, bytes);
    var before := ChannelOf(env, s, p).sent[..k];
    WS.AnswersDependOnOwnSession(env, before, m);
    PayloadIsAnswer(env, before, m);
  }

  /** What a summary session returns, from end to end: if a clear with result returns, its session
      was opened at some message of the process's channel, and the value is the dump of the clipped
      sums of exactly the pictures uploaded to the session from there on, true sums wherever at most
      65,793 of them cover a cell. */
  lemma SummaryReturned(env: WS.Env, n: nat, run: Run, i: nat, t: Rack) returns (p: Pid, k: nat, o: nat)
    requires n > 0 && IsRun(env, n, run) && i < |run.states| && t in run.states[i].tasks
    requires var task := run.states[i].tasks[t];
             && task.pc.Done? && task.pc.outcome.Returned? && task.pc.outcome.bytes.Some?
             && task.msg.kind.Clear? && task.msg.command == Some(Command.SummaryImage) && task.msg.session.Some?
    ensures var sent := ChannelOf(env, run.states[i], p).sent;
            var m := run.states[i].tasks[t].msg;
            && k < |sent| && sent[k] == m && WS.OpenSince(env, sent[..k], o, Command.SummaryImage, m.session)
            && var w, h := sent[o].content.width, sent[o].content.height;
               var images := WS.Uploaded(sent[o + 1..k], Command.SummaryImage, m.session);
               && run.states[i].tasks[t].pc.outcome.bytes.value
                    == env.dumps(WorkerMessage(Data, m.rack, None,
                        SummaryPicture(SummaryImage.Summary(w, h, images)), m.session))
               && (forall x: nat, y: nat, c: nat :: x < w && y < h && c < 3 && Coverage(images, x, y) <= 65_793 ==>
                     SummaryImage.Summary(w, h, images)[x][y][c] == SummaryImage.TrueSum(images, x, y, c))
  {
    p, k := OwnAnswerDelivered(env, n, run, i, t);
    hide IsRun, SummaryImage.Summary;
    var sent := ChannelOf(env, run.states[i], p).sent;
    var m := run.states[i].tasks[t].msg;
    SummaryWasOpen(env, sent[..k], m);
    o := WS.SummaryOfSession(env, sent[..k], m);
    assert sent[..k][o + 1..] == sent[o + 1..k];
  }

  /** The same for a heatmap session: a value returned for an upload is the dump of the normalised
      heat of exactly the pictures uploaded to the session since it was opened, up to this one. */
  lemma HeatmapReturned(env: WS.Env, n: nat, run: Run, i: nat, t: Rack) returns (p: Pid, k: nat, o: nat)
    requires n > 0 && IsRun(env, n, run) && i < |run.states| && t in run.states[i].tasks
    requires var task := run.states[i].tasks[t];
             && task.pc.Done? && task.pc.outcome.Returned? && task.pc.outcome.bytes.Some?
             && task.msg.kind.Data? && task.msg.command == Some(Command.HeatmapImage)
    ensures var sent := ChannelOf(env, run.states[i], p).sent;
            var m := run.states[i].tasks[t].msg;
            && k < |sent| && sent[k] == m && WS.OpenSince(env, sent[..k], o, Command.HeatmapImage, m.session)
            && var heat := WS.HeatmapImage.HeatGrid(sent[o].content.width, sent[o].content.height,
                             WS.Uploaded(sent[o + 1..k + 1], Command.HeatmapImage, m.session));
               WS.HeatmapImage.GetHeatmap(heat).Some?
               && run.states[i].tasks[t].pc.outcome.bytes.value
                    == env.dumps(WorkerMessage(Data, m.rack, None,
                        HeatPicture(WS.HeatmapImage.GetHeatmap(heat).value), m.session))
  {
    p, k := OwnAnswerDelivered(env, n, run, i, t);
    hide IsRun, WS.HeatmapImage.GetHeatmap, WS.HeatmapImage.HeatGrid, WS.Answers, WS.Project, ChannelOf;
    var sent := ChannelOf(env, run.states[i], p).sent;
    var m := run.states[i].tasks[t].msg;
    o := HeatmapServed(env, sent, k, run.states[i].tasks[t].pc.outcome.bytes.value);
  }

  /** The same for a request without session: the dump of the grey picture of its own upload. */
  lemma GrayscaleReturned(env: WS.Env, n: nat, run: Run, i: nat, t: Rack)
    requires n > 0 && IsRun(env, n, run) && i < |run.states| && t in run.states[i].tasks
    requires var task := run.states[i].tasks[t];
             && task.pc.Done? && task.pc.outcome.Returned? && task.pc.outcome.bytes.Some?
             && task.msg.kind.Data? && task.msg.command == Some(GrayscaleImage)
    ensures var m := run.states[i].tasks[t].msg;
            && m.content.Upload? && m.content.decoded.Some?
            && run.states[i].tasks[t].pc.outcome.bytes.value
                 == env.dumps(WorkerMessage(Data, m.rack, None, GrayPicture(m.content.decoded.value), None))
  {
    var p, k := OwnAnswerDelivered(env, n, run, i, t);
    hide IsRun;
    PayloadIsAnswer(env, ChannelOf(env, run.states[i], p).sent[..k], run.states[i].tasks[t].msg);
  }

  lemma HeatmapServed(env: WS.Env, sent: seq<WorkerMessage>, k: nat, b: seq<Byte>) returns (o: nat)
    requires k < |sent| && sent[k].kind.Data? && sent[k].command == Some(Command.HeatmapImage)
    requires Payload(WS.Acts(env, sent[..k], sent[k])) == Some(b)
    ensures WS.OpenSince(env, sent[..k], o, Command.HeatmapImage, sent[k].session)
    ensures var heat := WS.HeatmapImage.HeatGrid(sent[o].content.width, sent[o].content.height,
                          WS.Uploaded(sent[o + 1..k + 1], Command.HeatmapImage, sent[k].session));
            && WS.HeatmapImage.GetHeatmap(heat).Some?
            && b == env.dumps(WorkerMessage(Data, sent[k].rack, None,
                  HeatPicture(WS.HeatmapImage.GetHeatmap(heat).value),
                                            sent[k].session))
  {
    hide WS.HeatmapImage.GetHeatmap, WS.HeatmapImage.HeatGrid, WS.Replay;
    HeatmapWasOpen(env, sent[..k], sent[k]);
    hide WS.Acts;
    o := WS.HeatmapOfSession(env, sent[..k], sent[k]);
    assert (sent[..k] + [sent[k]])[o + 1..] == sent[o + 1..k + 1];
  }

  lemma HeatmapWasOpen(env: WS.Env, trace: seq<WorkerMessage>, upload: WorkerMessage)
    requires upload.kind.Data? && upload.command == Some(Command.HeatmapImage)
    requires Payload(WS.Acts(env, trace, upload)).Some?
    ensures upload.session.Some? && upload.session in WS.Replay(env, trace)
    ensures WS.Replay(env, trace)[upload.session].Heatmap?
    ensures WS.IsUpload(upload, Command.HeatmapImage, upload.session)
  {
  }

  lemma SummaryWasOpen(env: WS.Env, trace: seq<WorkerMessage>, clear: WorkerMessage)
    requires clear.kind.Clear? && clear.command == Some(Command.SummaryImage)
    requires Payload(WS.Acts(env, trace, clear)).Some?
    ensures clear.session in WS.Replay(env, trace) && WS.Replay(env, trace)[clear.session].Summary?
  {
  }

  /** An acknowledged upload has been added to its session: right after it was handled the session's
      last picture is the one it carried. */
  lemma AcknowledgedIsAdded(env: WS.Env, n: nat, run: Run, i: nat, t: Rack) returns (p: Pid, k: nat)
    requires n > 0 && IsRun(env, n, run) && i < |run.states| && t in run.states[i].tasks
    requires var task := run.states[i].tasks[t];
             && task.call.SendNoResult? && task.pc.Done? && task.pc.outcome == Returned(None)
             && task.msg.kind.Data? && task.msg.command == Some(Command.SummaryImage)
    ensures var c := ChannelOf(env, run.states[i], p);
            var m := run.states[i].tasks[t].msg;
            && k < c.handled <= |c.sent| && c.sent[k] == m && m.content.Upload? && m.content.decoded.Some?
            && var before, after := WS.Replay(env, c.sent[..k]), WS.Replay(env, c.sent[..k + 1]);
               && m.session in before && before[m.session].Summary?
               && var images := before[m.session].images + [m.content.decoded.value];
                  after == before[m.session := before[m.session].(images := images)]
  {
    p, k := OwnAnswerDelivered(env, n, run, i, t);
    hide IsRun;
    var c := ChannelOf(env, run.states[i], p);
    assert c.sent[..k + 1][..k] == c.sent[..k];
  }
}
