/** Who uses a pipe, whose answer a received object is, and why an answer cannot be missed. */
module ManagerAnswers {
  import opened Wrappers
  import opened Messages
  import opened SessionTable
  import opened ManagerMachine
  import opened ManagerLocks
  import opened ManagerInvariant
  import opened ManagerPipes
  import opened ManagerSteps
  import opened ManagerSessions
  import WS = WorkerSpec

  // ---- who uses a pipe --------------------------------------------------------------------

  lemma ConcludeChannels(s: State, t: Rack, verdict: Verdict)
    requires t in s.tasks && s.tasks[t].pc.AwaitAnswer?
    ensures var s' := Conclude(s, t, verdict);
            && s'.channels == s.channels && t in s'.tasks
            && (forall u :: u != t && u in s'.tasks && s'.tasks[u].pc.AwaitAnswer? ==>
                  u in s.tasks && s'.tasks[u] == s.tasks[u])
            && (verdict.Retry? ==>
                  s'.tasks[t] == s.tasks[t].(pc := AwaitAnswer(s.tasks[t].pc.pid, s.tasks[t].pc.count + 1)))
            && (verdict.End? ==> s'.tasks[t].pc.Done?)
  {
    hide Finish;
    if verdict.End? {
      FinishedTasks(s, t, s.tasks[t].pc.pid, verdict.outcome, verdict.restart);
    }
  }

  /** What a task may do to a channel: send or take, never what the worker does. */
  predicate ManagersPart(c: Channel, c': Channel) {
    c' == c.(sent := c'.sent, taken := c'.taken) && c.sent <= c'.sent
  }

  /** Mutual exclusion on the pipes: a step of a task changes the channel of a process only if that
      task holds the process's busy lock before or after the step. */
  lemma PipeUse(env: WS.Env, n: nat, s: State, step: Step, p: Pid)
    requires n > 0 && Invariant(n, s) && Enabled(env, s, step) && LocksOk(Apply(env, s, step)) && ByTask(step)
    requires ChannelOf(env, Apply(env, s, step), p) != ChannelOf(env, s, p)
    ensures LockOf(s, Busy(p)).holder == Some(step.t) || LockOf(Apply(env, s, step), Busy(p)).holder == Some(step.t)
    ensures ManagersPart(ChannelOf(env, s, p), ChannelOf(env, Apply(env, s, step), p))
  {
    if Seeks(step) {
      hide LocksOk, FreshOk, EventOk, TasksOk, Enabled, Apply, SendsIfAwaits, OthersStay, ManagersPart;
      assert s.live != {};
      SeekEffects(env, s, step);
      SentByHolder(env, s, step.t, Apply(env, s, step), p);
    } else {
      HolderOf(s, step.t, Busy(s.tasks[step.t].pc.pid));
      hide Invariant, LocksOk;
      AnswerChannels(env, s, step);
    }
  }

  lemma SentByHolder(env: WS.Env, s: State, t: Rack, s': State, p: Pid)
    requires SendsIfAwaits(env, s, t, s') && LocksOk(s') && ChannelOf(env, s', p) != ChannelOf(env, s, p)
    ensures LockOf(s', Busy(p)).holder == Some(t) && ManagersPart(ChannelOf(env, s, p), ChannelOf(env, s', p))
  {
    hide LocksOk;
    assert s'.tasks[t].pc == AwaitAnswer(p, 0);
    HolderOf(s', t, Busy(p));
  }

  lemma AnswerChannels(env: WS.Env, s: State, step: Step)
    requires Enabled(env, s, step) && (step.Receive? || step.Interrupt?)
    ensures Apply(env, s, step).channels
            == if step.Receive? then Popped(env, s, s.tasks[step.t].pc.pid).channels else s.channels
  {
    var t := step.t;
    match step
    case Receive(_) => ConcludeChannels(Popped(env, s, s.tasks[t].pc.pid), t, VerdictFor(env, s, t));
    case Interrupt(_, restart) => ConcludeChannels(s, t, End(Failed(AnswerInterrupted), restart));
  }

  // ---- whose answer -----------------------------------------------------------------------

  /** A request the worker answers with a fitting object. */
  predicate GetsAnswer(env: WS.Env, m: WorkerMessage) {
    WS.Answered(m) && !WS.LosesSession(env, m)
  }

  lemma OneReply(env: WS.Env, before: seq<WorkerMessage>, m: WorkerMessage)
    ensures |WS.Sends(WS.Acts(env, before, m))| == if WS.Answered(m) then 1 else 0
    ensures GetsAnswer(env, m) ==> WS.Fitting(m, WS.Sends(WS.Acts(env, before, m))[0])
  {
    WS.OneAnswer(env, WS.Replay(env, before), m);
  }

  /** The number of answers to all messages but the last. */
  function AnswersBefore(env: WS.Env, c: Channel): nat
    requires c.sent != []
  {
    |WS.Answers(env, c.sent[..|c.sent| - 1])|
  }

  lemma {:induction false} AnswersGrow(env: WS.Env, trace: seq<WorkerMessage>, k: nat)
    requires k <= |trace|
    ensures WS.Answers(env, trace[..k]) <= WS.Answers(env, trace)
  {
    if k < |trace| {
      var before := trace[..|trace| - 1];
      AnswersGrow(env, before, k);
      assert before[..k] == trace[..k];
    } else {
      assert trace[..k] == trace;
    }
  }

  lemma Prefix(env: WS.Env, c: Channel)
    requires ChannelOk(env, c)
    ensures c.out <= WS.Answers(env, c.sent)
  {
    AnswersGrow(env, c.sent, c.handled);
    assert c.out <= c.out + WS.Sends(c.todo);
  }

  /** The k-th answer to a trace is the reply to exactly one of its messages. */
  lemma {:induction false} AnswerOf(env: WS.Env, trace: seq<WorkerMessage>, k: nat) returns (i: nat)
    requires k < |WS.Answers(env, trace)|
    ensures i < |trace| && WS.Sends(WS.Acts(env, trace[..i], trace[i])) == [WS.Answers(env, trace)[k]]
    ensures i == |trace| - 1 <==> k >= |WS.Answers(env, trace[..|trace| - 1])|
  {
    hide WS.Acts, WS.Answered, WS.Sends;
    var before, m := trace[..|trace| - 1], trace[|trace| - 1];
    if k < |WS.Answers(env, before)| {
      i := AnswerOf(env, before, k);
      assert trace[..i] == before[..i] && trace[i] == before[i];
    } else {
      i := |trace| - 1;
      OneReply(env, before, m);
    }
  }

  /** An object in the pipe, be it a message or an exception, is the answer to the last message sent
      if and only if all answers to earlier messages have been taken. Exceptions carry no rack, so
      an exception met too early is the error of an earlier request. */
  lemma OwnOrForeign(env: WS.Env, c: Channel) returns (i: nat)
    requires ChannelOk(env, c) && c.taken < |c.out| && c.sent != []
    ensures i < |c.sent| && WS.Sends(WS.Acts(env, c.sent[..i], c.sent[i])) == [c.out[c.taken]]
    ensures i == |c.sent| - 1 <==> c.taken >= AnswersBefore(env, c)
  {
    hide ChannelOk, WS.Acts, WS.Sends, WS.Answers;
    Prefix(env, c);
    i := AnswerOf(env, c.sent, c.taken);
  }

  // ---- no answer is missed ----------------------------------------------------------------

  /** The answer to the last message has not been taken out of the pipe. */
  predicate OwnAhead(env: WS.Env, c: Channel) {
    c.sent != [] && GetsAnswer(env, c.sent[|c.sent| - 1]) ==> c.taken <= AnswersBefore(env, c)
  }

  /** While a request awaits its answer, the answer is still ahead. */
  ghost predicate AnswersAhead(env: WS.Env, s: State) {
    forall u :: u in s.tasks && s.tasks[u].pc.AwaitAnswer? ==> OwnAhead(env, ChannelOf(env, s, s.tasks[u].pc.pid))
  }

  lemma PostedAhead(env: WS.Env, c: Channel, m: WorkerMessage)
    requires ChannelOk(env, c)
    ensures OwnAhead(env, c.(sent := c.sent + [m], taken := |c.out|))
  {
    Prefix(env, c);
    var sent := c.sent + [m];
    assert sent[..|sent| - 1] == c.sent;
  }

  lemma SentAhead(env: WS.Env, s: State, t: Rack, s': State)
    requires AllChannelsOk(env, s) && AnswersAhead(env, s) && LocksOk(s')
    requires SendsIfAwaits(env, s, t, s') && OthersStay(s, t, s')
    ensures AnswersAhead(env, s')
  {
    hide OwnAhead, ChannelOk, LocksOk;
    forall u | u in s'.tasks && s'.tasks[u].pc.AwaitAnswer?
      ensures OwnAhead(env, ChannelOf(env, s', s'.tasks[u].pc.pid))
    {
      if u == t {
        PostedAhead(env, ChannelOf(env, s, s'.tasks[t].pc.pid), s'.tasks[t].msg);
      } else if s'.tasks[t].pc.AwaitAnswer? && s'.tasks[t].pc.pid == s'.tasks[u].pc.pid {
        OneUser(s', t, u);
      }
    }
  }

  lemma SeekAhead(env: WS.Env, n: nat, s: State, step: Step)
    requires n > 0 && Good(env, n, s) && AnswersAhead(env, s) && Enabled(env, s, step) && Seeks(step)
    requires LocksOk(Apply(env, s, step))
    ensures AnswersAhead(env, Apply(env, s, step))
  {
    hide LocksOk, FreshOk, EventOk, TasksOk, SentByTasks, AwaitsLast, ResultsServed, Enabled, Apply, AnswersAhead,
         SendsIfAwaits, OthersStay;
    assert s.live != {};
    SeekEffects(env, s, step);
    SentAhead(env, s, step.t, Apply(env, s, step));
  }

  /** The answer to the last message makes the loop end, so a message that is skipped is not it. */
  lemma SkippedIsForeign(env: WS.Env, s: State, t: Rack)
    requires PipesOk(env, s) && Enabled(env, s, Receive(t)) && VerdictFor(env, s, t).Retry?
    ensures var c := ChannelOf(env, s, s.tasks[t].pc.pid);
            c.sent != [] && (GetsAnswer(env, c.sent[|c.sent| - 1]) ==> c.taken < AnswersBefore(env, c))
  {
    hide ChannelOk, GetsAnswer, AnswersBefore, SentByTasks, ResultsServed, Judge;
    var c := ChannelOf(env, s, s.tasks[t].pc.pid);
    assert ChannelOk(env, c) && c.sent != [] && c.sent[|c.sent| - 1] == s.tasks[t].msg;
    hide PipesOk;
    SkippedInChannel(env, c, s.tasks[t].call, s.tasks[t].pc.count + 1);
  }

  lemma SkippedInChannel(env: WS.Env, c: Channel, call: Call, count: nat)
    requires ChannelOk(env, c) && c.sent != [] && c.taken < |c.out|
    requires Judge(call, c.sent[|c.sent| - 1], c.out[c.taken], count, c.memory).Retry?
    ensures GetsAnswer(env, c.sent[|c.sent| - 1]) ==> c.taken < AnswersBefore(env, c)
  {
    hide ChannelOk, WS.Acts, WS.Answered, WS.LosesSession, WS.Fitting, WS.Answers, Judge;
    var m := c.sent[|c.sent| - 1];
    if GetsAnswer(env, m) && c.taken >= AnswersBefore(env, c) {
      var i := OwnOrForeign(env, c);
      OneReply(env, c.sent[..i], m);
      FittingEnds(call, m, c.out[c.taken], count, c.memory);
    }
  }

  lemma FittingEnds(call: Call, msg: WorkerMessage, reply: Reply, count: nat, memory: seq<Pictures.Byte>)
    requires WS.Fitting(msg, reply)
    ensures Judge(call, msg, reply, count, memory).End?
  {
  }

  lemma ReceiveAhead(env: WS.Env, s: State, t: Rack)
    requires PipesOk(env, s) && LocksOk(s) && AnswersAhead(env, s) && Enabled(env, s, Receive(t))
    ensures AnswersAhead(env, Apply(env, s, Receive(t)))
  {
    hide PipesOk, LocksOk, Conclude, Judge, GetsAnswer, WS.Answers;
    var p := s.tasks[t].pc.pid;
    var s1, verdict, s' := Popped(env, s, p), VerdictFor(env, s, t), Apply(env, s, Receive(t));
    ConcludeChannels(s1, t, verdict);
    if verdict.Retry? {
      SkippedIsForeign(env, s, t);
    }
    forall u | u in s'.tasks && s'.tasks[u].pc.AwaitAnswer?
      ensures OwnAhead(env, ChannelOf(env, s', s'.tasks[u].pc.pid))
    {
      if u != t && s.tasks[u].pc.pid == p {
        OneUser(s, t, u);
      }
    }
  }

  lemma InterruptAhead(env: WS.Env, s: State, t: Rack, restart: bool)
    requires AnswersAhead(env, s) && Enabled(env, s, Interrupt(t, restart))
    ensures AnswersAhead(env, Apply(env, s, Interrupt(t, restart)))
  {
    var verdict := End(Failed(AnswerInterrupted), restart);
    ConcludeChannels(s, t, verdict);
    hide Conclude, OwnAhead;
    assert Apply(env, s, Interrupt(t, restart)) == Conclude(s, t, verdict);
  }

  lemma WorkerAhead(env: WS.Env, s: State, step: Step)
    requires AnswersAhead(env, s) && Enabled(env, s, step) && !ByTask(step)
    ensures AnswersAhead(env, Apply(env, s, step))
  {
    hide WS.Answers, WS.Acts, GetsAnswer;
  }

  lemma StepAhead(env: WS.Env, n: nat, s: State, step: Step)
    requires n > 0 && Good(env, n, s) && AnswersAhead(env, s) && Enabled(env, s, step)
    ensures AnswersAhead(env, Apply(env, s, step))
  {
    StepGood(env, n, s, step);
    assert PipesOk(env, s) && LocksOk(s) && LocksOk(Apply(env, s, step));
    hide Good, Invariant, PipesOk, LocksOk, AnswersAhead;
    if Seeks(step) {
      SeekAhead(env, n, s, step);
    } else if step.Receive? {
      ReceiveAhead(env, s, step.t);
    } else if step.Interrupt? {
      InterruptAhead(env, s, step.t, step.restart);
    } else {
      WorkerAhead(env, s, step);
    }
  }

  lemma NobodyWaits(env: WS.Env, n: nat, run: Run)
    requires IsRun(env, n, run)
    ensures AnswersAhead(env, run.states[0])
  {
  }

  lemma {:induction false} RunAhead(env: WS.Env, n: nat, run: Run, i: nat)
    requires n > 0 && IsRun(env, n, run) && i < |run.states|
    ensures AnswersAhead(env, run.states[i])
  {
    hide AnswersAhead, Good, IsRun, Enabled, Apply;
    RunStart(env, n, run);
    if i == 0 {
      NobodyWaits(env, n, run);
    } else {
      RunAhead(env, n, run, i - 1);
      RunGood(env, n, run, i - 1);
      RunStep(env, n, run, i - 1);
      StepAhead(env, n, run.states[i - 1], run.steps[i - 1]);
    }
  }

  lemma WorkLeft(env: WS.Env, c: Channel, m: WorkerMessage)
    requires ChannelOk(env, c) && OwnAhead(env, c) && c.sent != [] && c.sent[|c.sent| - 1] == m && GetsAnswer(env, m)
    ensures c.taken < |c.out| || c.handled < |c.sent| || c.todo != []
  {
    if c.handled == |c.sent| && c.todo == [] {
      QuietAnswered(env, c);
    }
  }

  lemma LastSent(env: WS.Env, s: State, t: Rack)
    requires PipesOk(env, s) && AnswersAhead(env, s) && t in s.tasks && s.tasks[t].pc.AwaitAnswer?
    ensures var c := ChannelOf(env, s, s.tasks[t].pc.pid);
            ChannelOk(env, c) && OwnAhead(env, c) && c.sent != [] && c.sent[|c.sent| - 1] == s.tasks[t].msg
  {
    hide ChannelOk, OwnAhead, SentByTasks, ResultsServed, ChannelOf;
  }

  /** In one state: there is an object to receive, or the worker has work to do. */
  lemma CanGoOn(env: WS.Env, s: State, t: Rack)
    requires LocksOk(s) && FreshOk(s) && PipesOk(env, s) && AnswersAhead(env, s)
    requires t in s.tasks && s.tasks[t].pc.AwaitAnswer? && GetsAnswer(env, s.tasks[t].msg)
    ensures var p := s.tasks[t].pc.pid;
            Enabled(env, s, Receive(t)) || Enabled(env, s, WorkerTake(p)) || Enabled(env, s, WorkerAct(p))
  {
    hide LocksOk, FreshOk, PipesOk, AnswersAhead, ChannelOk, OwnAhead, GetsAnswer, ChannelOf;
    AwaitedLive(s, t);
    LastSent(env, s, t);
    WorkLeft(env, ChannelOf(env, s, s.tasks[t].pc.pid), s.tasks[t].msg);
  }

  /** No request starves. While a request that gets an answer awaits it, in any run and however many
      stale answers are in the way, there is an object to receive or the worker has work to do. */
  lemma NeverStarves(env: WS.Env, n: nat, run: Run, i: nat, t: Rack)
    requires n > 0 && IsRun(env, n, run) && i < |run.states|
    requires var s := run.states[i]; t in s.tasks && s.tasks[t].pc.AwaitAnswer? && GetsAnswer(env, s.tasks[t].msg)
    ensures var s, p := run.states[i], run.states[i].tasks[t].pc.pid;
            Enabled(env, s, Receive(t)) || Enabled(env, s, WorkerTake(p)) || Enabled(env, s, WorkerAct(p))
  {
    hide IsRun, LocksOk, FreshOk, TablesOk, TasksOk, EventOk, PipesOk, AnswersAhead, GetsAnswer, Enabled, ChannelOf;
    RunGood(env, n, run, i);
    RunAhead(env, n, run, i);
    CanGoOn(env, run.states[i], t);
  }

  lemma QuietAnswered(env: WS.Env, c: Channel)
    requires ChannelOk(env, c) && c.sent != [] && c.handled == |c.sent| && c.todo == []
    requires WS.Answered(c.sent[|c.sent| - 1])
    ensures |c.out| == AnswersBefore(env, c) + 1
  {
    hide WS.Acts, WS.Answered;
    var before := c.sent[..|c.sent| - 1];
    OneReply(env, before, c.sent[|c.sent| - 1]);
    assert WS.Sends(c.todo) == [];
    assert c.sent[..c.handled] == c.sent;
  }

  // ---- a clean start ----------------------------------------------------------------------

  /** Task t has ended, or it awaits its answer from p and every answer to an earlier message has
      been taken out of the pipe. */
  ghost predicate Clean(env: WS.Env, s: State, t: Rack, p: Pid) {
    && t in s.tasks
    && (s.tasks[t].pc.Done? ||
        (&& s.tasks[t].pc.AwaitAnswer? && s.tasks[t].pc.pid == p
         && ChannelOf(env, s, p).sent != [] && ChannelOf(env, s, p).taken >= AnswersBefore(env, ChannelOf(env, s, p))))
  }

  /** The worker had answered everything. */
  predicate Idle(c: Channel) {
    c.handled == |c.sent| && c.todo == []
  }

  /** Because the pipe is cleared first, a request that is sent to an idle worker starts clean. */
  lemma SentClean(env: WS.Env, s: State, t: Rack, p: Pid, s': State)
    requires AllChannelsOk(env, s) && Idle(ChannelOf(env, s, p))
    requires SendsIfAwaits(env, s, t, s') && s'.tasks[t].pc.AwaitAnswer? && s'.tasks[t].pc.pid == p
    ensures Clean(env, s', t, p)
  {
    var c := ChannelOf(env, s, p);
    assert ChannelOk(env, c);
    hide ChannelOk, WS.Answers, AllChannelsOk;
    var c' := ChannelOf(env, s', p);
    assert c'.sent[..|c'.sent| - 1] == c.sent;
    IdleAnswered(env, c);
  }

  lemma IdleAnswered(env: WS.Env, c: Channel)
    requires ChannelOk(env, c) && Idle(c)
    ensures c.out == WS.Answers(env, c.sent)
  {
    hide WS.Acts, WS.Answers;
    assert c.sent[..c.handled] == c.sent;
    assert WS.Sends(c.todo) == [];
  }

  lemma OwnStepClean(env: WS.Env, s: State, step: Step, p: Pid)
    requires Enabled(env, s, step) && ByTask(step) && Clean(env, s, step.t, p)
    ensures Clean(env, Apply(env, s, step), step.t, p)
  {
    hide WS.Answers;
    var t := step.t;
    match step
    case Receive(_) => ConcludeChannels(Popped(env, s, p), t, VerdictFor(env, s, t));
    case Interrupt(_, restart) => ConcludeChannels(s, t, End(Failed(AnswerInterrupted), restart));
    case _ =>
  }

  lemma OtherStepClean(env: WS.Env, n: nat, s: State, step: Step, t: Rack, p: Pid)
    requires n > 0 && Invariant(n, s) && Enabled(env, s, step) && LocksOk(Apply(env, s, step)) && ByTask(step)
    requires step.t != t
    requires Clean(env, s, t, p)
    ensures Clean(env, Apply(env, s, step), t, p)
  {
    var s' := Apply(env, s, step);
    StepEffect(env, n, s, step);
    assert t in s'.tasks && s'.tasks[t].pc == s.tasks[t].pc;
    hide AnswersBefore, Apply, Enabled, TaskStep;
    if s.tasks[t].pc.AwaitAnswer? {
      HolderOf(s, t, Busy(p));
      HolderOf(s', t, Busy(p));
      if ChannelOf(env, s', p) != ChannelOf(env, s, p) {
        PipeUse(env, n, s, step, p);
      }
    }
  }

  lemma WorkerStepClean(env: WS.Env, s: State, step: Step, t: Rack, p: Pid)
    requires Enabled(env, s, step) && !ByTask(step) && Clean(env, s, t, p)
    ensures Clean(env, Apply(env, s, step), t, p)
  {
    hide WS.Answers, WS.Acts;
  }

  lemma StepClean(env: WS.Env, n: nat, s: State, step: Step, t: Rack, p: Pid)
    requires n > 0 && Invariant(n, s) && Enabled(env, s, step) && LocksOk(Apply(env, s, step)) && Clean(env, s, t, p)
    ensures Clean(env, Apply(env, s, step), t, p)
  {
    hide Clean, Invariant, Apply, LocksOk;
    if !ByTask(step) {
      WorkerStepClean(env, s, step, t, p);
    } else if step.t == t {
      OwnStepClean(env, s, step, p);
    } else {
      OtherStepClean(env, n, s, step, t, p);
    }
  }

  lemma {:induction false} StaysClean(env: WS.Env, n: nat, run: Run, i: nat, j: nat, t: Rack, p: Pid)
    requires n > 0 && IsRun(env, n, run) && i <= j < |run.states| && Clean(env, run.states[i], t, p)
    ensures Clean(env, run.states[j], t, p)
  {
    hide Clean, IsRun, Enabled, Apply, PipesOk, LocksOk, FreshOk, TablesOk, TasksOk, EventOk;
    RunStart(env, n, run);
    if i < j {
      StaysClean(env, n, run, i, j - 1, t, p);
      RunGood(env, n, run, j - 1);
      RunGood(env, n, run, j);
      RunStep(env, n, run, j - 1);
      StepClean(env, n, run.states[j - 1], run.steps[j - 1], t, p);
    }
  }

  lemma StartsClean(env: WS.Env, n: nat, run: Run, i: nat, t: Rack, p: Pid)
    requires n > 0 && IsRun(env, n, run) && i < |run.steps| && ByTask(run.steps[i]) && run.steps[i].t == t
    requires !From(run.states[i], t).AwaitAnswer? && t in run.states[i + 1].tasks
    requires run.states[i + 1].tasks[t].pc == AwaitAnswer(p, 0)
    requires Idle(ChannelOf(env, run.states[i], p))
    ensures Clean(env, run.states[i + 1], t, p)
  {
    hide Idle, Clean, IsRun, Apply, LocksOk, FreshOk, EventOk, SentByTasks, AwaitsLast, ResultsServed, AllChannelsOk,
         TasksOk;
    RunStart(env, n, run);
    RunGood(env, n, run, i);
    RunStep(env, n, run, i);
    var s := run.states[i];
    assert s.live != {};
    assert Seeks(run.steps[i]);
    SeekEffects(env, s, run.steps[i]);
    SentClean(env, s, t, p, run.states[i + 1]);
  }

  /** What clearing the pipe is for. If the worker had answered everything when the message was sent,
      then every object received while the answer is awaited, errors included, is the answer to that
      very message, whatever earlier requests had left in the pipe. */
  lemma CleanStart(env: WS.Env, n: nat, run: Run, i: nat, j: nat, t: Rack, p: Pid)
    requires n > 0 && IsRun(env, n, run) && i < j < |run.states| && ByTask(run.steps[i]) && run.steps[i].t == t
    requires !From(run.states[i], t).AwaitAnswer? && t in run.states[i + 1].tasks
    requires run.states[i + 1].tasks[t].pc == AwaitAnswer(p, 0)
    requires Idle(ChannelOf(env, run.states[i], p))
    requires Enabled(env, run.states[j], Receive(t))
    ensures var c := ChannelOf(env, run.states[j], p);
            && c.taken < |c.out| && c.sent != [] && c.sent[|c.sent| - 1] == run.states[j].tasks[t].msg
            && WS.Sends(WS.Acts(env, c.sent[..|c.sent| - 1], run.states[j].tasks[t].msg)) == [c.out[c.taken]]
  {
    hide IsRun, Invariant, PipesOk, Clean, Enabled;
    RunStart(env, n, run);
    StartsClean(env, n, run, i, t, p);
    StaysClean(env, n, run, i + 1, j, t, p);
    RunGood(env, n, run, j);
    CleanReceive(env, run.states[j], t, p);
  }

  lemma CleanReceive(env: WS.Env, s: State, t: Rack, p: Pid)
    requires PipesOk(env, s) && Clean(env, s, t, p) && Enabled(env, s, Receive(t))
    ensures var c := ChannelOf(env, s, p);
            && c.taken < |c.out| && c.sent != [] && c.sent[|c.sent| - 1] == s.tasks[t].msg
            && WS.Sends(WS.Acts(env, c.sent[..|c.sent| - 1], s.tasks[t].msg)) == [c.out[c.taken]]
  {
    hide ChannelOk, WS.Acts, WS.Sends, WS.Answers, SentByTasks, ResultsServed;
    var c := ChannelOf(env, s, p);
    assert ChannelOk(env, c);
    var k := OwnOrForeign(env, c);
  }
}
