/** Every step of every run keeps the whole invariant. */
module ManagerSteps {
  import opened Wrappers
  import opened Pictures
  import opened Messages
  import opened SessionTable
  import opened ManagerMachine
  import opened ManagerLocks
  import opened ManagerFrame
  import opened ManagerFresh
  import opened ManagerInvariant
  import opened ManagerPipes
  import SharedMemory
  import WS = WorkerSpec

  // ---- tables, tasks and the event --------------------------------------------------------

  ghost predicate Rest(n: nat, s: State) {
    TablesOk(n, s) && TasksOk(s) && EventOk(s)
  }

  lemma QuietRest(n: nat, s: State, t: Rack, s': State)
    requires Rest(n, s) && Quiet(s, t, s') && Rested(s', t)
    requires s'.tasks[t].pc.WaitEvent? ==> s'.tasks[t].msg.session.None?
    requires s'.tasks[t].pc.WaitSearch? ==> s'.tasks[t].msg.session.Some?
    requires s'.tasks[t].pc == WaitEvent(false) ==> !s'.freeEvent && AllLocked(s')
    ensures Rest(n, s')
  {
    QuietTables(n, s, t, s');
    QuietTasks(s, t, s');
    QuietEvent(s, t, s');
  }

  /** The same for a task that has just been created. */
  lemma NewTaskRest(n: nat, s: State, t: Rack, s': State)
    requires TablesOk(n, s) && EventOk(s) && Quiet(s, t, s') && Lands(s', t) && s.tasks[t].pc.Running?
    requires forall u :: u in s.tasks && u != t ==> TaskOk(s, u)
    requires s.tasks[t].msg.rack == t && WellFormed(s.tasks[t].call, s.tasks[t].msg)
    ensures Rest(n, s')
  {
    QuietTables(n, s, t, s');
    QuietEvent(s, t, s');
    forall u | u in s'.tasks ensures TaskOk(s', u) {
      assert u != t ==> TaskOk(s, u);
    }
  }

  lemma SpawnRest(n: nat, s: State, t: Rack, call: Call, msg: WorkerMessage)
    requires Rest(n, s) && t !in s.tasks
    ensures var s0 := Spawn(s, t, call, msg);
            TablesOk(n, s0) && EventOk(s0) && forall u :: u in s0.tasks && u != t ==> TaskOk(s0, u)
  {
    assert forall u :: u in s.tasks ==> TaskOk(s, u);
  }

  lemma FirstChosenEvent(s: State, t: Rack, sid: SessionId, choice: Pid)
    requires EventOk(s) && t in s.tasks
    ensures EventOk(FirstChosen(s, t, sid, choice))
    ensures forall u :: u != t ==> (u in FirstChosen(s, t, sid, choice).tasks <==> u in s.tasks)
    ensures forall u :: u != t && u in s.tasks ==> FirstChosen(s, t, sid, choice).tasks[u] == s.tasks[u]
    ensures var task := FirstChosen(s, t, sid, choice).tasks[t];
            task.call == s.tasks[t].call && task.msg == s.tasks[t].msg && task.pc.Running?
  {
  }

  lemma StartNewRest(env: WS.Env, n: nat, s: State, t: Rack, call: Call, msg: WorkerMessage, choice: Pid)
    requires n > 0 && Rest(n, s) && t !in s.tasks && msg.rack == t && WellFormed(call, msg)
    requires msg.session.Some? && msg.session.value !in s.sessions && !Clears(call)
    requires ContinueAllowed(Enter(s, t, call, msg), t, choice)
    ensures Rest(n, Continue(env, Enter(s, t, call, msg), t, choice))
  {
    hide Quiet, EventOk, Binds, AfterSearch, FirstChosen, WellFormed, Continue, Enter, ContinueAllowed, Lands;
    var s0 := Spawn(s, t, call, msg);
    var sid := msg.session.value;
    var m := FirstChosen(s0, t, sid, choice);
    assert s.live != {};
    SpawnRest(n, s, t, call, msg);
    FirstChosenEvent(s0, t, sid, choice);
    FirstQuiet(env, s, t, call, msg, choice);
    BindTables(n, s0, m, sid, choice);
    forall u | u in m.tasks && u != t ensures TaskOk(m, u) {
      assert TaskOk(s0, u);
    }
    NewTaskRest(n, m, t, Continue(env, Enter(s, t, call, msg), t, choice));
  }

  lemma StartRest(env: WS.Env, n: nat, s: State, t: Rack, call: Call, msg: WorkerMessage, choice: Pid)
    requires n > 0 && Rest(n, s) && t !in s.tasks && msg.rack == t && WellFormed(call, msg)
    requires ContinueAllowed(Enter(s, t, call, msg), t, choice)
    ensures Rest(n, Continue(env, Enter(s, t, call, msg), t, choice))
  {
    var s0 := Spawn(s, t, call, msg);
    var s' := Continue(env, Enter(s, t, call, msg), t, choice);
    SpawnRest(n, s, t, call, msg);
    hide Quiet, EventOk;
    if msg.session.None? || msg.session.value in s.sessions {
      StartQuiet(env, s, t, call, msg, choice);
      NewTaskRest(n, s0, t, s');
    } else if Clears(call) {
      SetPcQuiet(s0, t, Done(Returned(None)));
      NewTaskRest(n, s0, t, s');
    } else {
      StartNewRest(env, n, s, t, call, msg, choice);
    }
  }

  lemma StepRest(env: WS.Env, n: nat, s: State, step: Step)
    requires n > 0 && Rest(n, s) && LocksOk(s) && FreshOk(s) && Enabled(env, s, step)
    ensures Rest(n, Apply(env, s, step))
  {
    if step.Receive? || step.Interrupt? {
      AwaitedLive(s, step.t);
    }
    if step.WakeBusy? || step.WakeSearch? || step.WakeEvent? || step.Abandon? {
      assert TaskOk(s, step.t);
    }
    hide LocksOk, FreshOk, Quiet, EventOk;
    match step
    case Start(t, call, msg, choice) => StartRest(env, n, s, t, call, msg, choice);
    case WakeBusy(t) =>
      WakeBusyQuiet(env, s, t);
      QuietRest(n, s, t, Apply(env, s, step));
    case Abandon(t) =>
      AbandonQuiet(s, t);
      QuietRest(n, s, t, Apply(env, s, step));
    case Receive(t) =>
      UnchangedRest(n, s, Popped(env, s, s.tasks[t].pc.pid));
      PoppedFresh(env, s, s.tasks[t].pc.pid);
      ConcludeRest(n, Popped(env, s, s.tasks[t].pc.pid), t, VerdictFor(env, s, t));
    case Interrupt(t, restart) =>
      FinishTables(n, s, t, s.tasks[t].pc.pid, Failed(AnswerInterrupted), restart);
      FinishTasks(s, t, s.tasks[t].pc.pid, Failed(AnswerInterrupted), restart);
    case WorkerTake(_) => UnchangedRest(n, s, Apply(env, s, step));
    case WorkerAct(_) => UnchangedRest(n, s, Apply(env, s, step));
    case _ =>
      WakeQuiet(env, s, step);
      QuietRest(n, s, step.t, Apply(env, s, step));
  }

  lemma AwaitedLive(s: State, t: Rack)
    requires LocksOk(s) && FreshOk(s) && t in s.tasks && s.tasks[t].pc.AwaitAnswer?
    ensures s.tasks[t].pc.pid in s.live && s.tasks[t].pc.pid < s.nextPid
  {
  }

  lemma UnchangedRest(n: nat, s: State, s': State)
    requires Rest(n, s) && s' == s.(channels := s'.channels)
    ensures Rest(n, s')
  {
    assert forall u :: u in s.tasks ==> TaskOk(s, u) == TaskOk(s', u);
  }

  lemma ConcludeRest(n: nat, s: State, t: Rack, verdict: Verdict)
    requires Rest(n, s) && FreshOk(s) && t in s.tasks && s.tasks[t].pc.AwaitAnswer?
    requires s.tasks[t].pc.pid in s.live && s.tasks[t].pc.pid < s.nextPid
    ensures Rest(n, Conclude(s, t, verdict))
  {
    var p := s.tasks[t].pc.pid;
    assert TaskOk(s, t);
    hide FreshOk, Quiet, EventOk;
    match verdict
    case Retry =>
      var pc := AwaitAnswer(p, s.tasks[t].pc.count + 1);
      SetPcQuiet(s, t, pc);
      QuietRest(n, s, t, SetPc(s, t, pc));
    case End(outcome, restart) =>
      FinishTables(n, s, t, p, outcome, restart);
      FinishTasks(s, t, p, outcome, restart);
  }

  // ---- pipes ------------------------------------------------------------------------------

  /** A task that sought a process sent its message exactly if it now awaits an answer. */
  ghost predicate SendsIfAwaits(env: WS.Env, s: State, t: Rack, s': State) {
    && t in s'.tasks
    && (if s'.tasks[t].pc.AwaitAnswer? then Posts(env, s, t, s'.tasks[t].pc.pid, s')
        else s'.channels == s.channels && !Claims(s'.tasks[t]))
  }

  lemma SameChannels(env: WS.Env, s: State, m: State, t: Rack, s': State)
    requires SendsIfAwaits(env, m, t, s') && m.channels == s.channels
    ensures SendsIfAwaits(env, s, t, s')
  {
  }

  lemma EndedSends(env: WS.Env, s: State, t: Rack, why: Failure)
    requires t in s.tasks
    ensures SendsIfAwaits(env, s, t, Ended(s, t, Failed(why)))
  {
  }

  lemma SentPosts(env: WS.Env, s: State, t: Rack, p: Pid)
    requires t in s.tasks && s.tasks[t].msg.rack == t && s.tasks[t].pc == AwaitAnswer(p, 0)
    ensures Posts(env, s, t, p, Sent(env, s, t, p)) && Sent(env, s, t, p).tasks == s.tasks
  {
  }

  lemma TakenMoves(s: State, t: Rack, search: Option<LockId>, p: Pid, pc: Pc)
    requires t in s.tasks
    ensures var s2 := Take(GiveBack(s, t, search), t, Busy(p), pc);
            s2.channels == s.channels && t in s2.tasks && s2.tasks[t] == s.tasks[t].(pc := pc)
  {
    PiecesChannels(GiveBack(s, t, search), t, Busy(p), pc);
    hide Take;
  }

  lemma ObtainedSends(env: WS.Env, s: State, t: Rack, p: Pid, search: Option<LockId>)
    requires t in s.tasks && s.tasks[t].msg.rack == t
    ensures SendsIfAwaits(env, s, t, Obtained(env, s, t, p, search))
  {
    hide Take, Closed, Sent;
    var pc := if p in s.live then AwaitAnswer(p, 0) else Done(Failed(ClosedHandles));
    var s2 := Take(GiveBack(s, t, search), t, Busy(p), pc);
    TakenMoves(s, t, search, p, pc);
    ClosedFields(s2, t);
    if p in s.live {
      SentPosts(env, s2, t, p);
      SameChannels(env, s, s2, t, Sent(env, s2, t, p));
    }
  }

  lemma TryBusySends(env: WS.Env, s: State, t: Rack, p: Pid, search: Option<LockId>)
    requires t in s.tasks && s.tasks[t].msg.rack == t
    ensures SendsIfAwaits(env, s, t, TryBusy(env, s, t, p, search))
  {
    if Available(s, Busy(p)) {
      ObtainedSends(env, s, t, p, search);
    }
  }

  lemma AfterSearchSends(env: WS.Env, s: State, t: Rack, id: LockId, choice: Pid)
    requires t in s.tasks && s.tasks[t].msg.rack == t && s.tasks[t].msg.session.Some?
    ensures SendsIfAwaits(env, s, t, AfterSearch(env, s, t, id, choice))
  {
    hide SendsIfAwaits;
    var sid := s.tasks[t].msg.session.value;
    EndedSends(env, s, t, NoEntry);
    EndedSends(env, s, t, NoProcess);
    if sid in s.sessions && s.sessions[sid].pid.Some? {
      TryBusySends(env, s, t, s.sessions[sid].pid.value, Some(id));
    } else if sid in s.sessions {
      var m := Chosen(s, sid, id, choice);
      TryBusySends(env, m, t, choice, Some(id));
      SameChannels(env, s, m, t, TryBusy(env, m, t, choice, Some(id)));
    }
  }

  lemma ContinueSends(env: WS.Env, s: State, t: Rack, choice: Pid)
    requires t in s.tasks && s.tasks[t].msg.rack == t && !s.tasks[t].pc.AwaitAnswer? && ContinueAllowed(s, t, choice)
    requires !Claims(s.tasks[t])
    ensures SendsIfAwaits(env, s, t, Continue(env, s, t, choice))
  {
    match s.tasks[t].pc
    case Running(Some(id)) => AfterSearchSends(env, s, t, id, choice);
    case Running(None) => TryBusySends(env, s, t, choice, None);
    case _ =>
  }

  lemma WakeSends(env: WS.Env, s: State, step: Step)
    requires Enabled(env, s, step) && (step.WakeSearch? || step.WakeBusy? || step.WakeEvent?) && TaskOk(s, step.t)
    ensures SendsIfAwaits(env, s, step.t, Apply(env, s, step))
  {
    var t := step.t;
    match step
    case WakeEvent(_, choice) => ContinueSends(env, SetPc(s, t, Running(None)).(freeEvent := false), t, choice);
    case WakeSearch(_, choice) =>
      var id := s.tasks[t].pc.id;
      AfterSearchSends(env, Take(Dequeue(s, t, Search(id), Running(None)), t, Search(id), Running(Some(id))), t, id,
          choice);
    case WakeBusy(_) =>
      var p, search := s.tasks[t].pc.pid, s.tasks[t].pc.search;
      ObtainedSends(env, Dequeue(s, t, Busy(p), Running(search)), t, p, search);
  }

  lemma PiecesChannels(s: State, t: Rack, x: LockName, pc: Pc)
    requires t in s.tasks
    ensures forall s' :: s' in {SetPc(s, t, pc), Take(s, t, x, pc), Enqueue(s, t, x, pc)} ==>
              s'.channels == s.channels && t in s'.tasks && s'.tasks[t] == s.tasks[t].(pc := pc)
  {
  }

  lemma EnterChannels(s: State, t: Rack, call: Call, msg: WorkerMessage)
    ensures var s' := Enter(s, t, call, msg);
            s'.channels == s.channels && s'.tasks[t].msg == msg && !s'.tasks[t].pc.AwaitAnswer? && !Claims(s'.tasks[t])
  {
    hide Available, LockOf, At, SetPc, Take, Enqueue;
    var s0 := Spawn(s, t, call, msg);
    PiecesChannels(s0, t, Busy(0), Done(Failed(AlreadyExists)));
    PiecesChannels(s0, t, Busy(0), Done(Returned(None)));
    if msg.session.Some? {
      var sid := msg.session.value;
      PiecesChannels(NewEntry(s0, sid), t, Search(s.nextLock), Running(Some(s.nextLock)));
      if sid in s.sessions {
        var id := s.sessions[sid].lock;
        PiecesChannels(s0, t, Search(id), Running(Some(id)));
        PiecesChannels(s0, t, Search(id), WaitSearch(id));
      }
    }
  }

  // ---- results ----------------------------------------------------------------------------

  /** The verdicts that make a call return a value or acknowledge it. */
  predicate Grants(call: Call, verdict: Verdict) {
    verdict.End? && verdict.outcome.Returned? && (verdict.outcome.bytes.Some? || call.Init? || call.SendNoResult?)
  }

  /** What the received object then was, and where the value came from. */
  predicate Backed(reply: Reply, memory: seq<Byte>, bytes: Option<seq<Byte>>) {
    reply.Message? &&
      match bytes
      case None => reply.message.kind.Ok?
      case Some(b) =>
        && reply.message.kind.CheckSharedMemory? && reply.message.content.Length?
        && memory != [] && b == SharedMemory.ReadBytes(memory, reply.message.content.bytes)
  }

  lemma JudgedResult(call: Call, msg: WorkerMessage, reply: Reply, count: nat, memory: seq<Byte>)
    requires Grants(call, Judge(call, msg, reply, count, memory))
    ensures Backed(reply, memory, Judge(call, msg, reply, count, memory).outcome.bytes)
    ensures reply.message.rack == msg.rack
  {
  }

  lemma OwnServed(env: WS.Env, c: Channel, m: WorkerMessage, bytes: Option<seq<Byte>>)
    requires 0 < c.handled == |c.sent| && c.sent[c.handled - 1] == m && Delivers(LastActs(env, c), bytes)
    ensures ServedAt(env, c, c.handled - 1, m, bytes)
  {
  }

  /** A result that is about to be returned was handed over for this very request. */
  lemma VerdictServed(env: WS.Env, s: State, t: Rack, c: Channel, count: nat, verdict: Verdict)
    requires PipesOk(env, s) && t in s.tasks && TaskOk(s, t) && s.tasks[t].pc.AwaitAnswer?
    requires c == ChannelOf(env, s, s.tasks[t].pc.pid) && c.taken < |c.out|
    requires verdict == Judge(s.tasks[t].call, s.tasks[t].msg, c.out[c.taken], count, c.memory)
    requires Grants(s.tasks[t].call, verdict)
    ensures Served(env, s, s.tasks[t].msg, verdict.outcome.bytes)
  {
    hide ChannelOk, WS.Acts, ResultsServed, SentByTasks;
    var m := s.tasks[t].msg;
    assert ChannelOk(env, c) && c.sent != [] && c.sent[|c.sent| - 1] == m && m.rack == t;
    JudgedResult(s.tasks[t].call, m, c.out[c.taken], count, c.memory);
    hide PipesOk, Judge;
    OwnAnswer(env, c, t);
    assert Delivers(LastActs(env, c), verdict.outcome.bytes);
    OwnServed(env, c, m, verdict.outcome.bytes);
    assert ServedAt(env, ChannelOf(env, s, s.tasks[t].pc.pid), c.handled - 1, m, verdict.outcome.bytes);
  }

  lemma PopOk(env: WS.Env, c: Channel)
    requires ChannelOk(env, c) && c.taken < |c.out|
    ensures ChannelOk(env, c.(taken := c.taken + 1))
  {
    hide WS.Acts, WS.Answers;
  }

  lemma PoppedPipes(env: WS.Env, s: State, p: Pid)
    requires PipesOk(env, s) && ChannelOf(env, s, p).taken < |ChannelOf(env, s, p).out|
    ensures PipesOk(env, Popped(env, s, p))
  {
    hide ChannelOk, SentByTasks, AwaitsLast, ResultsServed, ChannelOf;
    var c := ChannelOf(env, s, p);
    assert ChannelOk(env, c);
    PopOk(env, c);
    ChannelMoves(env, s, p, c.(taken := c.taken + 1), Popped(env, s, p));
  }

  lemma FinishAdvances(env: WS.Env, s: State, t: Rack, verdict: Verdict)
    requires PipesOk(env, s) && t in s.tasks && s.tasks[t].pc.AwaitAnswer? && verdict.End?
    requires Grants(s.tasks[t].call, verdict) ==> Served(env, s, s.tasks[t].msg, verdict.outcome.bytes)
    ensures Advances(env, s, Finish(s, t, s.tasks[t].pc.pid, verdict.outcome, verdict.restart))
  {
    hide AllChannelsOk, SentByTasks, AwaitsLast, Served, Finish;
    FinishedTasks(s, t, s.tasks[t].pc.pid, verdict.outcome, verdict.restart);
  }

  lemma RetryAdvances(env: WS.Env, s: State, t: Rack, pc: Pc)
    requires PipesOk(env, s) && t in s.tasks && s.tasks[t].pc.AwaitAnswer? && pc.AwaitAnswer?
    requires pc.pid == s.tasks[t].pc.pid
    ensures Advances(env, s, SetPc(s, t, pc))
  {
    hide AllChannelsOk, SentByTasks, AwaitsLast, Served;
  }

  lemma ConcludeAdvances(env: WS.Env, s: State, t: Rack, verdict: Verdict)
    requires PipesOk(env, s) && t in s.tasks && s.tasks[t].pc.AwaitAnswer?
    requires Grants(s.tasks[t].call, verdict) ==> Served(env, s, s.tasks[t].msg, verdict.outcome.bytes)
    ensures Advances(env, s, Conclude(s, t, verdict)) && Conclude(s, t, verdict).channels == s.channels
  {
    hide PipesOk, Served, Finish, Advances;
    match verdict
    case Retry => RetryAdvances(env, s, t, AwaitAnswer(s.tasks[t].pc.pid, s.tasks[t].pc.count + 1));
    case End(outcome, restart) =>
      FinishAdvances(env, s, t, verdict);
      FinishedTasks(s, t, s.tasks[t].pc.pid, outcome, restart);
  }

  lemma ReceivePipes(env: WS.Env, s: State, t: Rack)
    requires PipesOk(env, s) && Enabled(env, s, Receive(t)) && TaskOk(s, t)
    ensures PipesOk(env, Apply(env, s, Receive(t)))
  {
    var s1, verdict := Popped(env, s, s.tasks[t].pc.pid), VerdictFor(env, s, t);
    PoppedPipes(env, s, s.tasks[t].pc.pid);
    if Grants(s.tasks[t].call, verdict) {
      VerdictServed(env, s, t, ChannelOf(env, s, s.tasks[t].pc.pid), s.tasks[t].pc.count + 1, verdict);
      ServedStays(env, s, s.tasks[t].pc.pid, ChannelOf(env, s1, s.tasks[t].pc.pid), s1, s.tasks[t].msg,
          verdict.outcome.bytes);
    }
    hide PipesOk, VerdictFor, Served;
    ConcludeAdvances(env, s1, t, verdict);
    TasksAdvance(env, s1, Conclude(s1, t, verdict));
  }

  // ---- every step -------------------------------------------------------------------------

  /** A step in which a task looked for a process. */
  lemma SeekPipes(env: WS.Env, s: State, t: Rack, s': State)
    requires PipesOk(env, s) && Unsent(s, t) && OthersStay(s, t, s') && SendsIfAwaits(env, s, t, s')
    requires t in s.tasks ==> s'.tasks[t].msg == s.tasks[t].msg
    requires LocksOk(s')
    ensures PipesOk(env, s')
  {
    if s'.tasks[t].pc.AwaitAnswer? {
      var p := s'.tasks[t].pc.pid;
      forall u | u in s.tasks && s.tasks[u].pc.AwaitAnswer? ensures s.tasks[u].pc.pid != p {
        if s.tasks[u].pc.pid == p {
          OneUser(s', t, u);
        }
      }
      PostKeeps(env, s, t, p, s');
    } else {
      SeekAdvances(env, s, t, s');
      TasksAdvance(env, s, s');
    }
  }

  lemma SeekAdvances(env: WS.Env, s: State, t: Rack, s': State)
    requires PipesOk(env, s) && Unsent(s, t) && OthersStay(s, t, s') && t in s'.tasks
    requires t in s.tasks ==> s'.tasks[t].msg == s.tasks[t].msg
    requires !s'.tasks[t].pc.AwaitAnswer? && !Claims(s'.tasks[t])
    ensures Advances(env, s, s')
  {
    hide AllChannelsOk, SentByTasks, AwaitsLast, Served;
  }

  lemma StartOthers(env: WS.Env, s: State, t: Rack, call: Call, msg: WorkerMessage, choice: Pid)
    requires t !in s.tasks && Linked(s.sessions, s.live) && s.live != {}
    requires ContinueAllowed(Enter(s, t, call, msg), t, choice)
    ensures OthersStay(s, t, Continue(env, Enter(s, t, call, msg), t, choice))
  {
    var s0 := Spawn(s, t, call, msg);
    if msg.session.None? || msg.session.value in s.sessions {
      StartQuiet(env, s, t, call, msg, choice);
    } else if !Clears(call) {
      FirstSearchQuiet(env, s0, t, msg.session.value, choice);
    }
  }

  lemma AbandonedChannels(s: State, t: Rack)
    requires t in s.tasks
    ensures Abandoned(s, t).channels == s.channels && Abandoned(s, t).tasks[t].pc.Done?
    ensures Abandoned(s, t).tasks[t].pc.outcome.Failed?
  {
    hide Closed, Dequeue;
    var pc := Done(Failed(AcquireInterrupted));
    match Waits(s.tasks[t].pc)
    case Some(x) =>
      DequeueChannels(s, t, x, pc);
      ClosedFields(Dequeue(s, t, x, pc), t);
    case None => ClosedFields(SetPc(s, t, pc), t);
  }

  lemma DequeueChannels(s: State, t: Rack, x: LockName, pc: Pc)
    requires t in s.tasks
    ensures var s' := Dequeue(s, t, x, pc); s'.channels == s.channels && t in s'.tasks && s'.tasks[t].pc == pc
  {
  }

  predicate Seeks(step: Step) {
    step.Start? || step.WakeEvent? || step.WakeSearch? || step.WakeBusy? || step.Abandon?
  }

  /** A step in which a task looks for a process sends its message or leaves every channel alone. */
  lemma SeekEffects(env: WS.Env, s: State, step: Step)
    requires Enabled(env, s, step) && Seeks(step) && Linked(s.sessions, s.live) && s.live != {} && TasksOk(s)
    ensures SendsIfAwaits(env, s, step.t, Apply(env, s, step)) && OthersStay(s, step.t, Apply(env, s, step))
    ensures Unsent(s, step.t) && (step.t in s.tasks ==> Apply(env, s, step).tasks[step.t].msg == s.tasks[step.t].msg)
  {
    var t := step.t;
    if !step.Start? {
      assert TaskOk(s, t);
    }
    match step
    case Start(_, call, msg, choice) =>
      var s1 := Enter(s, t, call, msg);
      EnterChannels(s, t, call, msg);
      ContinueSends(env, s1, t, choice);
      SameChannels(env, s, s1, t, Apply(env, s, step));
      StartOthers(env, s, t, call, msg, choice);
    case Abandon(_) =>
      AbandonedChannels(s, t);
      AbandonQuiet(s, t);
    case WakeBusy(_) =>
      WakeSends(env, s, step);
      WakeBusyQuiet(env, s, t);
    case _ =>
      WakeSends(env, s, step);
      WakeQuiet(env, s, step);
  }

  lemma StepPipes(env: WS.Env, s: State, step: Step)
    requires PipesOk(env, s) && Enabled(env, s, step) && Linked(s.sessions, s.live) && s.live != {} && TasksOk(s)
    requires LocksOk(Apply(env, s, step))
    ensures PipesOk(env, Apply(env, s, step))
  {
    hide PipesOk, LocksOk, ChannelOk;
    match step
    case Receive(t) =>
      assert TaskOk(s, t);
      ReceivePipes(env, s, t);
    case Interrupt(t, restart) =>
      ConcludeAdvances(env, s, t, End(Failed(AnswerInterrupted), restart));
      TasksAdvance(env, s, Apply(env, s, step));
    case WorkerTake(p) => WorkerPipes(env, s, p);
    case WorkerAct(p) => WorkerPipes(env, s, p);
    case _ =>
      SeekEffects(env, s, step);
      SeekPipes(env, s, step.t, Apply(env, s, step));
  }

  lemma WorkerPipes(env: WS.Env, s: State, p: Pid)
    requires PipesOk(env, s)
    ensures var c := ChannelOf(env, s, p);
            && (c.todo == [] && c.handled < |c.sent| ==> PipesOk(env, s.(channels := s.channels[p := Taken(env, c)])))
            && (c.todo != [] ==> PipesOk(env, s.(channels := s.channels[p := Acted(c)])))
  {
    var c := ChannelOf(env, s, p);
    assert ChannelOk(env, c);
    hide PipesOk, ChannelOk, WS.Acts;
    if c.todo == [] && c.handled < |c.sent| {
      TakenOk(env, c);
      ChannelMoves(env, s, p, Taken(env, c), s.(channels := s.channels[p := Taken(env, c)]));
    }
    if c.todo != [] {
      ActedOk(env, c);
      ChannelMoves(env, s, p, Acted(c), s.(channels := s.channels[p := Acted(c)]));
    }
  }

  /** The whole invariant. */
  ghost predicate Good(env: WS.Env, n: nat, s: State) {
    Invariant(n, s) && PipesOk(env, s)
  }

  lemma StepGood(env: WS.Env, n: nat, s: State, step: Step)
    requires n > 0 && Good(env, n, s) && Enabled(env, s, step)
    ensures Good(env, n, Apply(env, s, step))
  {
    assert s.live != {};
    assert Rest(n, s);
    StepLocks(env, s, step);
    StepFresh(env, s, step);
    StepRest(env, n, s, step);
    StepPipes(env, s, step);
  }

  lemma InitialTables(n: nat, s: State)
    requires Initial(n, s)
    ensures Invariant(n, s)
  {
    assert forall x :: LockOf(s, x) == Lock(None, []);
    forall p ensures Load(s.sessions, p) == 0 {
      assert Bound(s.sessions, p) == {};
    }
  }

  lemma EmptyChannel(env: WS.Env)
    ensures ChannelOk(env, Channel([], 0, [], [], 0, seq(env.size, _ => 0)))
  {
  }

  lemma InitialGood(env: WS.Env, n: nat, s: State)
    requires Initial(n, s)
    ensures Good(env, n, s)
  {
    InitialTables(n, s);
    EmptyChannel(env);
    hide Invariant, ChannelOk;
    assert forall p :: ChannelOf(env, s, p) == Channel([], 0, [], [], 0, seq(env.size, _ => 0));
  }

  lemma RunStep(env: WS.Env, n: nat, run: Run, i: nat)
    requires IsRun(env, n, run) && i < |run.steps|
    ensures |run.states| == |run.steps| + 1
    ensures Enabled(env, run.states[i], run.steps[i]) && run.states[i + 1] == Apply(env, run.states[i], run.steps[i])
  {
  }

  lemma RunStart(env: WS.Env, n: nat, run: Run)
    requires IsRun(env, n, run)
    ensures |run.states| == |run.steps| + 1 && Initial(n, run.states[0])
  {
  }

  /** The invariant holds at every moment of every run from at least one process. */
  lemma {:induction false} RunGood(env: WS.Env, n: nat, run: Run, i: nat)
    requires n > 0 && IsRun(env, n, run) && i < |run.states|
    ensures Good(env, n, run.states[i])
  {
    hide Good, IsRun, Enabled, Apply, Initial;
    RunStart(env, n, run);
    if i == 0 {
      InitialGood(env, n, run.states[0]);
    } else {
      RunGood(env, n, run, i - 1);
      RunStep(env, n, run, i - 1);
      StepGood(env, n, run.states[i - 1], run.steps[i - 1]);
    }
  }
}
