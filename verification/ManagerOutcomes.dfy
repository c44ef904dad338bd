/** How every step of a request ends, exactly: where it comes to rest, what it returns or raises, and
    whether a process is replaced. */
module ManagerOutcomes {
  import opened Wrappers
  import opened Pictures
  import opened Messages
  import opened SessionTable
  import opened ManagerMachine
  import opened ManagerLocks
  import opened ManagerFrame
  import opened ManagerInvariant
  import opened ManagerPipes
  import opened ManagerSteps
  import opened ManagerSessions
  import opened ManagerAnswers
  import SharedMemory
  import WS = WorkerSpec

  // ---- the end of a call ------------------------------------------------------------------

  /** How a call ends that would end like this: a clear whose session is not in the table any more
      ends with the KeyError of its own removal. */
  function EndsAs(task: Task, outcome: Outcome, sessions: Table): Pc {
    if Clears(task.call) && task.msg.session.Some? && task.msg.session.value !in sessions
    then Done(Failed(EntryGone)) else Done(outcome)
  }

  lemma ClosedEnds(s: State, t: Rack, outcome: Outcome)
    requires t in s.tasks && s.tasks[t].pc == Done(outcome)
    ensures Closed(s, t).tasks[t].pc == EndsAs(s.tasks[t], outcome, s.sessions)
  {
  }

  /** The sessions at the moment the call ends: those of a replaced process are gone. */
  function SessionsAfter(s: State, p: Pid, restart: bool): Table {
    if restart then map sid | sid in s.sessions && s.sessions[sid].pid != Some(p) :: s.sessions[sid] else s.sessions
  }

  /** The processes after the call: a replaced process makes room for a fresh one. */
  function LiveAfter(s: State, p: Pid, restart: bool): set<Pid> {
    if restart then s.live - {p} + {s.nextPid} else s.live
  }

  lemma RestartIs(s: State, p: Pid)
    requires p in s.live
    ensures Restart(s, p).sessions == SessionsAfter(s, p, true) && Restart(s, p).live == LiveAfter(s, p, true)
    ensures Restart(s, p).tasks == s.tasks
  {
  }

  lemma FinishEnds(s: State, t: Rack, p: Pid, outcome: Outcome, restart: bool)
    requires t in s.tasks && p in s.live
    ensures var s' := Finish(s, t, p, outcome, restart);
            && t in s'.tasks && s'.tasks[t].pc == EndsAs(s.tasks[t], outcome, SessionsAfter(s, p, restart))
            && s'.live == LiveAfter(s, p, restart)
            && s'.sessions == SessionsAfter(s, p, restart) - Dropped(s.tasks[t])
            && LockOf(s', Busy(p)).holder.None? && s'.freeEvent
  {
    hide Closed, Notify, Release, Restart, SessionsAfter, LiveAfter;
    var s1 := Freed(s, t, p, outcome);
    FreedTasks(s, t, p, outcome);
    FreedLock(s, t, p, outcome);
    RestartIs(s1, p);
    RestartLock(s1, p);
    AfterSame(s, s1, p, restart);
    var s2 := if restart then Restart(s1, p) else s1;
    ClosedFields(s2, t);
    ClosedSessions(s2, t);
    ClosedEnds(s2, t, outcome);
  }

  lemma AfterSame(s: State, s1: State, p: Pid, restart: bool)
    requires s1.sessions == s.sessions && s1.live == s.live && s1.nextPid == s.nextPid
    ensures SessionsAfter(s1, p, restart) == SessionsAfter(s, p, restart)
    ensures LiveAfter(s1, p, restart) == LiveAfter(s, p, restart)
    ensures SessionsAfter(s, p, false) == s.sessions && LiveAfter(s, p, false) == s.live
  {
  }

  lemma FreedLock(s: State, t: Rack, p: Pid, outcome: Outcome)
    requires t in s.tasks
    ensures LockOf(Freed(s, t, p, outcome), Busy(p)).holder.None? && Freed(s, t, p, outcome).freeEvent
  {
  }

  lemma RestartLock(s: State, p: Pid)
    ensures Restart(s, p).locks == s.locks && Restart(s, p).freeEvent == s.freeEvent
  {
  }

  // ---- receiving --------------------------------------------------------------------------

  /** The object a request is about to receive, and how many it has received before. */
  function NextObject(env: WS.Env, s: State, t: Rack): Reply
    requires Enabled(env, s, Receive(t))
  {
    var c := ChannelOf(env, s, s.tasks[t].pc.pid);
    c.out[c.taken]
  }

  /** The object is a message, but not to this request. */
  predicate Stray(m: WorkerMessage, o: Reply) {
    match o
    case Message(answer) => answer.session != m.session || answer.rack != m.rack
    case Raised(_) => false
  }

  /** The process is given up: an error of the listed classes, or the fifth stray message. */
  predicate GivesUpProcess(m: WorkerMessage, o: Reply, before: nat) {
    o == Raised(Restarting) || (Stray(m, o) && before >= 4)
  }

  /** What a request makes of an object that it does not skip. */
  function Makes(call: Call, m: WorkerMessage, o: Reply, memory: seq<Byte>): Outcome {
    if o.Raised? then Failed(FromWorker)
    else if Stray(m, o) then Failed(ForeignMessages)
    else if call.Clear? then Returned(None)
    else if call.Init? || call.SendNoResult? then
      if o.message.kind == Ok then Returned(None) else Failed(UnexpectedType)
    else if o.message.kind == CheckSharedMemory && o.message.content.Length? && memory != [] then
      Returned(Some(SharedMemory.ReadBytes(memory, o.message.content.bytes)))
    else Failed(UnexpectedType)
  }

  lemma Judges(call: Call, m: WorkerMessage, o: Reply, before: nat, memory: seq<Byte>)
    ensures Judge(call, m, o, before + 1, memory) ==
            if Stray(m, o) && before < 4 then Retry else End(Makes(call, m, o, memory), GivesUpProcess(m, o, before))
  {
  }

  /** Task t ended this way, released its process and announced that it is free. */
  ghost predicate EndsRequest(s: State, t: Rack, outcome: Outcome, gone: bool, s': State)
    requires t in s.tasks && s.tasks[t].pc.AwaitAnswer?
  {
    var p := s.tasks[t].pc.pid;
    && t in s'.tasks && s'.tasks[t].pc == EndsAs(s.tasks[t], outcome, SessionsAfter(s, p, gone))
    && s'.live == LiveAfter(s, p, gone) && s'.sessions == SessionsAfter(s, p, gone) - Dropped(s.tasks[t])
    && LockOf(s', Busy(p)).holder.None? && s'.freeEvent
  }

  /** Task t counted the object and goes on waiting. */
  predicate SkipsObject(s: State, t: Rack, s': State)
    requires t in s.tasks && s.tasks[t].pc.AwaitAnswer?
  {
    && s'.tasks == s.tasks[t := s.tasks[t].(pc := AwaitAnswer(s.tasks[t].pc.pid, s.tasks[t].pc.count + 1))]
    && s'.sessions == s.sessions && s'.live == s.live && s'.locks == s.locks
  }

  lemma ConcludeIs(s: State, t: Rack, verdict: Verdict)
    requires t in s.tasks && s.tasks[t].pc.AwaitAnswer? && s.tasks[t].pc.pid in s.live
    ensures match verdict
            case Retry => SkipsObject(s, t, Conclude(s, t, verdict))
            case End(outcome, gone) => EndsRequest(s, t, outcome, gone, Conclude(s, t, verdict))
  {
    hide Finish, EndsAs, SessionsAfter, LiveAfter, LockOf, Dropped;
    if verdict.End? {
      FinishEnds(s, t, s.tasks[t].pc.pid, verdict.outcome, verdict.restart);
    }
  }

  /** Taking an object out of the pipe changes nothing else. */
  lemma PoppedEnds(env: WS.Env, s: State, t: Rack, verdict: Verdict, s': State)
    requires t in s.tasks && s.tasks[t].pc.AwaitAnswer?
    requires var s1 := Popped(env, s, s.tasks[t].pc.pid);
             match verdict
             case Retry => SkipsObject(s1, t, s')
             case End(outcome, gone) => EndsRequest(s1, t, outcome, gone, s')
    ensures match verdict
            case Retry => SkipsObject(s, t, s')
            case End(outcome, gone) => EndsRequest(s, t, outcome, gone, s')
  {
    hide EndsAs, SessionsAfter, LiveAfter, LockOf, Dropped;
    if verdict.End? {
      AfterSame(s, Popped(env, s, s.tasks[t].pc.pid), s.tasks[t].pc.pid, verdict.restart);
    }
  }

  /** Receiving, exactly: one of the first four stray messages is skipped and counted; every other
      object ends the request, releases the process and announces that it is free, and the process
      is replaced exactly if it is given up. */
  lemma Receives(env: WS.Env, n: nat, s: State, t: Rack)
    requires n > 0 && Invariant(n, s) && Enabled(env, s, Receive(t))
    ensures var before, m, o := s.tasks[t].pc.count, s.tasks[t].msg, NextObject(env, s, t);
            var memory := ChannelOf(env, s, s.tasks[t].pc.pid).memory;
            if Stray(m, o) && before < 4 then SkipsObject(s, t, Apply(env, s, Receive(t)))
            else EndsRequest(s, t, Makes(s.tasks[t].call, m, o, memory), GivesUpProcess(m, o, before),
                             Apply(env, s, Receive(t)))
  {
    hide Judge, Makes, Stray, GivesUpProcess, LocksOk, FreshOk, EndsRequest, SkipsObject, Conclude;
    AwaitedLive(s, t);
    var c := ChannelOf(env, s, s.tasks[t].pc.pid);
    Judges(s.tasks[t].call, s.tasks[t].msg, c.out[c.taken], s.tasks[t].pc.count, c.memory);
    var verdict := VerdictFor(env, s, t);
    ConcludeIs(Popped(env, s, s.tasks[t].pc.pid), t, verdict);
    PoppedEnds(env, s, t, verdict, Apply(env, s, Receive(t)));
  }

  /** The restart, on the sets: a process that is given up is not live any more, a fresh one is, and no
      session is bound to it; for every other object the processes stay. */
  lemma ReceiveRestarts(env: WS.Env, n: nat, s: State, t: Rack)
    requires n > 0 && Invariant(n, s) && Enabled(env, s, Receive(t))
    ensures var s', p := Apply(env, s, Receive(t)), s.tasks[t].pc.pid;
            var o, m := NextObject(env, s, t), s.tasks[t].msg;
            if o == Raised(Restarting)
               || (o.Message? && (o.message.rack != m.rack || o.message.session != m.session)
                     && s.tasks[t].pc.count >= 4)
            then
              && p !in s'.live && s.nextPid in s'.live
              && forall sid :: sid in s'.sessions ==> s'.sessions[sid].pid != Some(p)
            else s'.live == s.live
  {
    hide LocksOk, FreshOk, TablesOk, TasksOk, EventOk, Makes, EndsAs, Dropped, LockOf;
    AwaitedLive(s, t);
    Receives(env, n, s, t);
    PidFresh(s, s.tasks[t].pc.pid);
    hide Apply, Invariant;
  }

  /** A timeout, a cancellation or an error while the answer is awaited ends the request, and the
      process is replaced or not as that error demands. */
  lemma Interrupted(env: WS.Env, n: nat, s: State, t: Rack, restart: bool)
    requires n > 0 && Invariant(n, s) && Enabled(env, s, Interrupt(t, restart))
    ensures EndsRequest(s, t, Failed(AnswerInterrupted), restart, Apply(env, s, Interrupt(t, restart)))
  {
    hide Finish, EndsAs, SessionsAfter, LiveAfter, LockOf, Dropped, LocksOk, FreshOk;
    AwaitedLive(s, t);
    FinishEnds(s, t, s.tasks[t].pc.pid, Failed(AnswerInterrupted), restart);
  }

  // ---- the own answer ---------------------------------------------------------------------

  /** How a call ends when the worker's reaction to its own message has been received. */
  function Settles(call: Call, acts: seq<WS.Action>): Outcome
    requires acts != [] && acts[|acts| - 1].Send?
  {
    var reply := acts[|acts| - 1].reply;
    if reply.Raised? then Failed(FromWorker)
    else
      match call
      case Clear => Returned(None)
      case Init => if reply.message.kind.Ok? then Returned(None) else Failed(UnexpectedType)
      case SendNoResult => if reply.message.kind.Ok? then Returned(None) else Failed(UnexpectedType)
      case _ => if Payload(acts).Some? then Returned(Payload(acts)) else Failed(UnexpectedType)
  }

  /** The object at hand ends the worker's reaction to the request's own message, and what was
      announced lies in the memory. */
  lemma OwnObject(env: WS.Env, c: Channel, m: WorkerMessage)
    requires ChannelOk(env, c) && c.taken < |c.out| && c.sent != [] && c.sent[|c.sent| - 1] == m
    requires c.taken >= AnswersBefore(env, c)
    ensures var acts := WS.Acts(env, c.sent[..|c.sent| - 1], m);
            && acts != [] && acts[|acts| - 1] == WS.Send(c.out[c.taken]) && WS.Answered(m)
            && (WS.Fitting(m, c.out[c.taken]) <==> !WS.LosesSession(env, m))
            && (Payload(acts).Some? ==>
                  && c.out[c.taken].Message? && c.out[c.taken].message.kind.CheckSharedMemory? && c.memory != []
                  && c.out[c.taken].message.content == Length(|Payload(acts).value|)
                  && SharedMemory.ReadBytes(c.memory, |Payload(acts).value|) == Payload(acts).value)
            && (c.out[c.taken].Message? && c.out[c.taken].message.kind.CheckSharedMemory? ==> Payload(acts).Some?)
  {
    hide ChannelOk, WS.Acts, WS.Answers, WS.Sends, WS.Fitting, WS.LosesSession, WS.Answered, SharedMemory.ReadBytes;
    var before := c.sent[..|c.sent| - 1];
    var acts := WS.Acts(env, before, m);
    var i := OwnOrForeign(env, c);
    assert WS.Sends(acts) == [c.out[c.taken]];
    OwnReply(env, before, m);
    ReactionShape(env, before, m);
    if c.out[c.taken].Message? {
      OwnAnswer(env, c, m.rack);
    }
  }

  lemma OwnReply(env: WS.Env, before: seq<WorkerMessage>, m: WorkerMessage)
    requires |WS.Sends(WS.Acts(env, before, m))| == 1
    ensures WS.Answered(m)
    ensures WS.Fitting(m, WS.Sends(WS.Acts(env, before, m))[0]) <==> !WS.LosesSession(env, m)
  {
    WS.OneAnswer(env, WS.Replay(env, before), m);
  }

  lemma SettlesMakes(call: Call, m: WorkerMessage, o: Reply, memory: seq<Byte>, acts: seq<WS.Action>)
    requires acts != [] && acts[|acts| - 1] == WS.Send(o) && WS.Fitting(m, o)
    requires Payload(acts).Some? ==>
               && o.Message? && o.message.kind.CheckSharedMemory? && memory != []
               && o.message.content == Length(|Payload(acts).value|)
               && SharedMemory.ReadBytes(memory, |Payload(acts).value|) == Payload(acts).value
    requires o.Message? && o.message.kind.CheckSharedMemory? ==> Payload(acts).Some?
    ensures !Stray(m, o) && Makes(call, m, o, memory) == Settles(call, acts)
  {
  }

  /** The next object answers request t's own message, and fits it. (The answer to a grayscale request
      that names a session does not fit and is treated as stray.) */
  predicate OwnIsNext(env: WS.Env, s: State, t: Rack) {
    && t in s.tasks && s.tasks[t].pc.AwaitAnswer? && !WS.LosesSession(env, s.tasks[t].msg)
    && var c := ChannelOf(env, s, s.tasks[t].pc.pid);
       c.sent != [] && c.taken < |c.out| && c.taken >= AnswersBefore(env, c)
  }

  /** The worker's reaction to the last message sent to the process that request t awaits. */
  function OwnActs(env: WS.Env, s: State, t: Rack): seq<WS.Action>
    requires t in s.tasks && s.tasks[t].pc.AwaitAnswer?
  {
    var sent := ChannelOf(env, s, s.tasks[t].pc.pid).sent;
    if sent == [] then [] else WS.Acts(env, sent[..|sent| - 1], s.tasks[t].msg)
  }

  /** Request t has ended as this reaction to its message calls for. */
  ghost predicate EndsWith(s: State, t: Rack, acts: seq<WS.Action>, s': State)
    requires t in s.tasks && s.tasks[t].pc.AwaitAnswer?
  {
    && acts != [] && acts[|acts| - 1].Send? && t in s'.tasks
    && s'.tasks[t].pc == EndsAs(s.tasks[t], Settles(s.tasks[t].call, acts),
                                SessionsAfter(s, s.tasks[t].pc.pid, acts[|acts| - 1].reply == Raised(Restarting)))
  }

  /** The converse of own-answer delivery. A request whose own answer is received ends at once, with
      what the worker's reaction to it calls for: the data handed over, the acknowledgement, or the
      error. Only a clear whose session is gone ends differently. */
  lemma OwnAnswerAccepted(env: WS.Env, n: nat, s: State, t: Rack)
    requires n > 0 && Invariant(n, s) && PipesOk(env, s) && OwnIsNext(env, s, t) && Enabled(env, s, Receive(t))
    ensures EndsWith(s, t, OwnActs(env, s, t), Apply(env, s, Receive(t)))
  {
    hide ChannelOk, WS.Acts, WS.Answers, WS.LosesSession, WS.Fitting, PipesOk, LocksOk, FreshOk, TablesOk,
         TasksOk, EventOk, Judge, Makes, Stray, GivesUpProcess, Settles, SessionsAfter, LiveAfter, EndsAs, Payload,
         Apply, AnswersBefore,
         EndsRequest, SkipsObject, ChannelOf;
    var c := ChannelOf(env, s, s.tasks[t].pc.pid);
    OwnIsLastSent(env, s, t);
    OwnObject(env, c, s.tasks[t].msg);
    var acts := OwnActs(env, s, t);
    SettlesMakes(s.tasks[t].call, s.tasks[t].msg, c.out[c.taken], c.memory, acts);
    OnlyErrorsGiveUp(s.tasks[t].msg, c.out[c.taken], s.tasks[t].pc.count);
    Receives(env, n, s, t);
    EndsThere(s, t, Settles(s.tasks[t].call, acts), c.out[c.taken] == Raised(Restarting), Apply(env, s, Receive(t)));
  }

  lemma OwnIsLastSent(env: WS.Env, s: State, t: Rack)
    requires PipesOk(env, s) && t in s.tasks && s.tasks[t].pc.AwaitAnswer?
    ensures var c := ChannelOf(env, s, s.tasks[t].pc.pid);
            ChannelOk(env, c) && c.sent != [] && c.sent[|c.sent| - 1] == s.tasks[t].msg
  {
    hide ChannelOk, SentByTasks, ResultsServed;
    ChannelIsOk(env, s, s.tasks[t].pc.pid);
  }

  lemma OnlyErrorsGiveUp(m: WorkerMessage, o: Reply, before: nat)
    ensures !Stray(m, o) ==> (GivesUpProcess(m, o, before) <==> o == Raised(Restarting))
  {
  }

  lemma EndsThere(s: State, t: Rack, outcome: Outcome, gone: bool, s': State)
    requires t in s.tasks && s.tasks[t].pc.AwaitAnswer? && EndsRequest(s, t, outcome, gone, s')
    ensures t in s'.tasks && s'.tasks[t].pc == EndsAs(s.tasks[t], outcome, SessionsAfter(s, s.tasks[t].pc.pid, gone))
  {
    hide EndsAs, SessionsAfter, LiveAfter, LockOf;
  }

  lemma ChannelIsOk(env: WS.Env, s: State, p: Pid)
    requires AllChannelsOk(env, s)
    ensures ChannelOk(env, ChannelOf(env, s, p))
  {
  }

  /** Data handed over for request t has been returned, and an ok has acknowledged it. */
  ghost predicate ReturnsResult(s: State, t: Rack, acts: seq<WS.Action>, s': State)
    requires t in s.tasks
  {
    var call, session := s.tasks[t].call, s.tasks[t].msg.session;
    && t in s'.tasks
    && (call.SendResult? && Payload(acts).Some? ==> s'.tasks[t].pc == Done(Returned(Payload(acts))))
    && (call.ClearResult? && Payload(acts).Some? && session.Some? && session.value in s.sessions ==>
          s'.tasks[t].pc == Done(Returned(Payload(acts))))
    && ((call.Init? || call.SendNoResult?) && Delivers(acts, None) ==> s'.tasks[t].pc == Done(Returned(None)))
  }

  lemma EndsReturning(s: State, t: Rack, acts: seq<WS.Action>, s': State)
    requires t in s.tasks && s.tasks[t].pc.AwaitAnswer? && EndsWith(s, t, acts, s')
    requires acts[|acts| - 1].reply.Raised? ==> Payload(acts).None?
    ensures ReturnsResult(s, t, acts, s')
  {
  }

  lemma NoDataWithError(env: WS.Env, s: State, t: Rack)
    requires t in s.tasks && s.tasks[t].pc.AwaitAnswer?
    ensures var acts := OwnActs(env, s, t);
            acts != [] && acts[|acts| - 1].Send? && acts[|acts| - 1].reply.Raised? ==> Payload(acts).None?
  {
    var sent := ChannelOf(env, s, s.tasks[t].pc.pid).sent;
    if sent != [] {
      ReactionShape(env, sent[..|sent| - 1], s.tasks[t].msg);
    }
    hide WS.Acts;
  }

  lemma OwnIsReturned(env: WS.Env, n: nat, s: State, t: Rack)
    requires n > 0 && Invariant(n, s) && PipesOk(env, s) && OwnIsNext(env, s, t) && Enabled(env, s, Receive(t))
    ensures ReturnsResult(s, t, OwnActs(env, s, t), Apply(env, s, Receive(t)))
  {
    hide Enabled, Apply, LocksOk, FreshOk, TablesOk, TasksOk, EventOk, PipesOk, EndsWith, ReturnsResult, OwnActs,
         ChannelOf;
    OwnAnswerAccepted(env, n, s, t);
    NoDataWithError(env, s, t);
    EndsWithSend(s, t, OwnActs(env, s, t), Apply(env, s, Receive(t)));
    EndsReturning(s, t, OwnActs(env, s, t), Apply(env, s, Receive(t)));
  }

  /** Over runs: a value handed over for a request is returned, and an ok acknowledges it. */
  lemma ResultsAreReturned(env: WS.Env, n: nat, run: Run, i: nat, t: Rack)
    requires n > 0 && IsRun(env, n, run) && i < |run.steps| && |run.states| == |run.steps| + 1
    requires run.steps[i] == Receive(t) && OwnIsNext(env, run.states[i], t)
    ensures ReturnsResult(run.states[i], t, OwnActs(env, run.states[i], t), run.states[i + 1])
  {
    hide IsRun, Enabled, Apply, Invariant, PipesOk, ReturnsResult, OwnActs, ChannelOf;
    RunGood(env, n, run, i);
    RunStep(env, n, run, i);
    OwnIsReturned(env, n, run.states[i], t);
  }

  lemma EndsWithSend(s: State, t: Rack, acts: seq<WS.Action>, s': State)
    requires t in s.tasks && s.tasks[t].pc.AwaitAnswer? && EndsWith(s, t, acts, s')
    ensures acts != [] && acts[|acts| - 1].Send?
  {
  }

  // ---- looking for a process --------------------------------------------------------------

  /** Task t has process p: its message is the last one in the channel. Or it is last in the queue for
      the busy lock. It is sent at once exactly if nobody has the lock or waits for it. */
  ghost predicate GoesTo(env: WS.Env, s: State, t: Rack, p: Pid, search: Option<LockId>, s': State) {
    && t in s'.tasks
    && if Available(s, Busy(p)) then
         && s'.tasks[t].pc == AwaitAnswer(p, 0)
         && ChannelOf(env, s', p).sent == ChannelOf(env, s, p).sent + [s'.tasks[t].msg]
         && ChannelOf(env, s', p).taken == |ChannelOf(env, s', p).out|
       else
         && s'.tasks[t].pc == WaitBusy(p, search)
         && LockOf(s', Busy(p)).queue == LockOf(s, Busy(p)).queue + [t] && s'.channels == s.channels
  }

  lemma TryBusyGoes(env: WS.Env, s: State, t: Rack, p: Pid, search: Option<LockId>)
    requires t in s.tasks && p in s.live
    ensures GoesTo(env, s, t, p, search, TryBusy(env, s, t, p, search))
    ensures TryBusy(env, s, t, p, search).tasks[t].msg == s.tasks[t].msg
  {
    if Available(s, Busy(p)) {
      var s2 := Take(GiveBack(s, t, search), t, Busy(p), AwaitAnswer(p, 0));
      TakenMoves(s, t, search, p, AwaitAnswer(p, 0));
      hide Take, GiveBack;
      assert TryBusy(env, s, t, p, search) == Sent(env, s2, t, p);
    }
  }

  /** The same process, seen from a state that differs in other locks only. */
  lemma GoesSame(env: WS.Env, s: State, s1: State, t: Rack, p: Pid, search: Option<LockId>, s': State)
    requires GoesTo(env, s1, t, p, search, s') && s1.channels == s.channels && LockOf(s1, Busy(p)) == LockOf(s, Busy(p))
    ensures GoesTo(env, s, t, p, search, s')
  {
  }

  /** A request whose session has an entry goes to the entry's process; without an entry it fails. */
  ghost predicate FindsSession(env: WS.Env, s: State, t: Rack, sid: SessionId, id: LockId, s': State)
    requires t in s.tasks
  {
    if sid in s.sessions && s.sessions[sid].pid.Some? then GoesTo(env, s, t, s.sessions[sid].pid.value, Some(id), s')
    else t in s'.tasks && s'.tasks[t].pc == EndsAs(s.tasks[t], Failed(NoEntry), s.sessions) && s'.channels == s.channels
  }

  lemma AfterSearchFinds(env: WS.Env, s: State, t: Rack, id: LockId, choice: Pid)
    requires t in s.tasks && s.tasks[t].msg.session.Some? && Linked(s.sessions, s.live)
    ensures FindsSession(env, s, t, s.tasks[t].msg.session.value, id, AfterSearch(env, s, t, id, choice))
  {
    hide GoesTo, TryBusy, EndsAs, Closed;
    var sid := s.tasks[t].msg.session.value;
    if sid in s.sessions {
      TryBusyGoes(env, s, t, s.sessions[sid].pid.value, Some(id));
    } else {
      var s1 := SetPc(s, t, Done(Failed(NoEntry)));
      ClosedFields(s1, t);
      ClosedEnds(s1, t, Failed(NoEntry));
      EndsSame(s.tasks[t], s1.tasks[t], Failed(NoEntry), s.sessions);
    }
  }

  lemma EndsSame(task: Task, other: Task, outcome: Outcome, sessions: Table)
    requires other.call == task.call && other.msg == task.msg
    ensures EndsAs(other, outcome, sessions) == EndsAs(task, outcome, sessions)
  {
  }

  /** A request without session goes to an unlocked process, or parks if there is none. */
  ghost predicate Scans(env: WS.Env, s: State, t: Rack, choice: Pid, s': State) {
    if exists p :: p in s.live && LockOf(s, Busy(p)).holder.None?
    then choice in s.live && LockOf(s, Busy(choice)).holder.None? && GoesTo(env, s, t, choice, None, s')
    else t in s'.tasks && s'.tasks[t].pc == WaitEvent(false) && !s'.freeEvent && s'.channels == s.channels
  }

  lemma FreeScans(env: WS.Env, s: State, t: Rack, choice: Pid)
    requires t in s.tasks && ScanAllowed(s, choice)
    ensures Scans(env, s, t, choice, FreeScan(env, s, t, choice))
  {
    hide GoesTo, TryBusy;
    assert forall p :: Unlocked(s, p) <==> p in s.live && LockOf(s, Busy(p)).holder.None?;
    if exists p :: p in s.live && Unlocked(s, p) {
      TryBusyGoes(env, s, t, choice, None);
    }
  }

  /** Only this was added to the state: task t, already ended. */
  predicate EndsAtOnce(s: State, t: Rack, call: Call, msg: WorkerMessage, outcome: Outcome, s': State) {
    s' == s.(tasks := s.tasks[t := Task(call, msg, Done(outcome))])
  }

  /** A clear of a session without an entry returns nothing at once and leaves everything alone; so
      does the init of a session that has one, with its exception. */
  lemma EndsAtStart(env: WS.Env, s: State, t: Rack, call: Call, msg: WorkerMessage, choice: Pid)
    requires Linked(s.sessions, s.live) && Enabled(env, s, Start(t, call, msg, choice)) && msg.session.Some?
    ensures var s' := Apply(env, s, Start(t, call, msg, choice));
            && (Clears(call) && msg.session.value !in s.sessions ==> EndsAtOnce(s, t, call, msg, Returned(None), s'))
            && (call.Init? && msg.session.value in s.sessions ==>
                  EndsAtOnce(s, t, call, msg, Failed(AlreadyExists), s'))
  {
    hide LockOf, ContinueAllowed, AfterSearch, FreeScan;
  }

  /** The first request of a session binds it to the least loaded process chosen, and goes there. */
  lemma FirstGoes(env: WS.Env, s: State, t: Rack, call: Call, msg: WorkerMessage, choice: Pid)
    requires FreshOk(s) && s.live != {} && t !in s.tasks && msg.session.Some? && msg.session.value !in s.sessions
    requires !Clears(call)
    requires ContinueAllowed(Enter(s, t, call, msg), t, choice)
    ensures var s' := Continue(env, Enter(s, t, call, msg), t, choice);
            && LeastLoaded(s.sessions, s.live, choice)
            && s'.sessions == Bind(s.sessions, msg.session.value, s.nextLock, choice)
            && GoesTo(env, s, t, choice, Some(s.nextLock), s')
  {
    var s0, sid := Spawn(s, t, call, msg), msg.session.value;
    var m := FirstChosen(s0, t, sid, choice);
    FirstQuiet(env, s, t, call, msg, choice);
    FirstEnters(env, s, t, call, msg, choice);
    FirstSearches(env, s0, t, sid, choice);
    hide FirstChosen, Quiet, Enter, Continue, ContinueAllowed, TryBusy, AfterSearch, GoesTo, LeastLoaded, Bind, FreshOk,
         FirstLocked, Lands;
    FirstSame(s, t, call, msg, choice);
    TryBusyGoes(env, m, t, choice, Some(s.nextLock));
    GoesSame(env, s, m, t, choice, Some(s.nextLock), TryBusy(env, m, t, choice, Some(s.nextLock)));
  }

  lemma FirstSearches(env: WS.Env, s: State, t: Rack, sid: SessionId, choice: Pid)
    requires t in s.tasks && s.tasks[t].msg.session == Some(sid) && sid !in s.sessions && s.live != {}
    ensures var s1 := FirstLocked(s, t, sid);
            AfterSearch(env, s1, t, s.nextLock, choice)
                == TryBusy(env, FirstChosen(s, t, sid, choice), t, choice, Some(s.nextLock))
  {
    hide TryBusy, LockOf;
  }

  lemma FirstSame(s: State, t: Rack, call: Call, msg: WorkerMessage, choice: Pid)
    requires t !in s.tasks && msg.session.Some?
    ensures var m := FirstChosen(Spawn(s, t, call, msg), t, msg.session.value, choice);
            && m.channels == s.channels && LockOf(m, Busy(choice)) == LockOf(s, Busy(choice)) && m.live == s.live
            && t in m.tasks
  {
  }

  /** A later request of a session goes to the session's process if it gets the search lock, and else
      to the end of its queue. */
  lemma LaterGoes(env: WS.Env, s: State, t: Rack, call: Call, msg: WorkerMessage, choice: Pid)
    requires Linked(s.sessions, s.live) && t !in s.tasks && msg.session.Some? && msg.session.value in s.sessions
    requires !call.Init?
    ensures var s', entry := Continue(env, Enter(s, t, call, msg), t, choice), s.sessions[msg.session.value];
            if Available(s, Search(entry.lock)) then GoesTo(env, s, t, entry.pid.value, Some(entry.lock), s')
            else && t in s'.tasks && s'.tasks[t].pc == WaitSearch(entry.lock) && s'.channels == s.channels
                 && LockOf(s', Search(entry.lock)).queue == LockOf(s, Search(entry.lock)).queue + [t]
  {
    hide GoesTo, AfterSearch;
    var s0, entry := Spawn(s, t, call, msg), s.sessions[msg.session.value];
    if Available(s, Search(entry.lock)) {
      var s1 := Take(s0, t, Search(entry.lock), Running(Some(entry.lock)));
      assert Enter(s, t, call, msg) == s1;
      AfterSearchFinds(env, s1, t, entry.lock, choice);
      SearchSame(s, t, call, msg, entry.lock, entry.pid.value);
      hide Take;
      GoesSame(env, s, s1, t, entry.pid.value, Some(entry.lock), AfterSearch(env, s1, t, entry.lock, choice));
    } else {
      assert Enter(s, t, call, msg) == Enqueue(s0, t, Search(entry.lock), WaitSearch(entry.lock));
    }
  }

  lemma SearchSame(s: State, t: Rack, call: Call, msg: WorkerMessage, id: LockId, p: Pid)
    ensures var s1 := Take(Spawn(s, t, call, msg), t, Search(id), Running(Some(id)));
            s1.channels == s.channels && LockOf(s1, Busy(p)) == LockOf(s, Busy(p)) && s1.sessions == s.sessions
            && s1.tasks[t].msg == msg
  {
  }

  lemma ScanSame(env: WS.Env, s: State, s1: State, t: Rack, choice: Pid, s': State)
    requires Scans(env, s1, t, choice, s')
    requires s1.channels == s.channels && s1.live == s.live && forall p :: LockOf(s1, Busy(p)) == LockOf(s, Busy(p))
    ensures Scans(env, s, t, choice, s')
  {
  }

  /** Every request that starts: it ends at once, or goes to its process, or queues up, exactly so. */
  lemma Starts(env: WS.Env, n: nat, s: State, t: Rack, call: Call, msg: WorkerMessage, choice: Pid)
    requires n > 0 && Invariant(n, s) && Enabled(env, s, Start(t, call, msg, choice))
    ensures var s' := Apply(env, s, Start(t, call, msg, choice));
            match msg.session
            case None => Scans(env, s, t, choice, s')
            case Some(sid) =>
              if call.Init? && sid in s.sessions then EndsAtOnce(s, t, call, msg, Failed(AlreadyExists), s')
              else if Clears(call) && sid !in s.sessions then EndsAtOnce(s, t, call, msg, Returned(None), s')
              else if sid !in s.sessions then
                && LeastLoaded(s.sessions, s.live, choice) && s'.sessions == Bind(s.sessions, sid, s.nextLock, choice)
                && GoesTo(env, s, t, choice, Some(s.nextLock), s')
              else
                var id := s.sessions[sid].lock;
                if Available(s, Search(id)) then
                  s.sessions[sid].pid.Some? && GoesTo(env, s, t, s.sessions[sid].pid.value, Some(id), s')
                else && t in s'.tasks && s'.tasks[t].pc == WaitSearch(id) && s'.channels == s.channels
                     && LockOf(s', Search(id)).queue == LockOf(s, Search(id)).queue + [t]
  {
    assert s.live != {} && Linked(s.sessions, s.live);
    hide LocksOk, FreshOk, TablesOk, TasksOk, EventOk, GoesTo, Scans, LeastLoaded, EndsAtOnce, AfterSearch, FreeScan;
    match msg.session
    case None =>
      var s0 := Spawn(s, t, call, msg);
      FreeScans(env, s0, t, choice);
      ScanSame(env, s, s0, t, choice, FreeScan(env, s0, t, choice));
    case Some(sid) =>
      hide Enter, Continue;
      if (call.Init? && sid in s.sessions) || (Clears(call) && sid !in s.sessions) {
        EndsAtStart(env, s, t, call, msg, choice);
      } else if sid in s.sessions {
        LaterGoes(env, s, t, call, msg, choice);
      } else {
        FirstGoes(env, s, t, call, msg, choice);
      }
  }

  /** A request woken for its search lock goes to its session's process, or fails without an entry. */
  lemma WakesForSearch(env: WS.Env, n: nat, s: State, t: Rack, choice: Pid)
    requires n > 0 && Invariant(n, s) && Enabled(env, s, WakeSearch(t, choice))
    ensures FindsSession(env, s, t, s.tasks[t].msg.session.value, s.tasks[t].pc.id,
            Apply(env, s, WakeSearch(t, choice)))
  {
    assert Linked(s.sessions, s.live);
    hide LocksOk, FreshOk, TablesOk, TasksOk, EventOk, GoesTo, AfterSearch, EndsAs, Without;
    var id, sid := s.tasks[t].pc.id, s.tasks[t].msg.session.value;
    var s1 := Take(Dequeue(s, t, Search(id), Running(None)), t, Search(id), Running(Some(id)));
    AfterSearchFinds(env, s1, t, id, choice);
    TakenSame(s, t, id);
    hide Take, Dequeue;
    var s' := AfterSearch(env, s1, t, id, choice);
    EndsSame(s.tasks[t], s1.tasks[t], Failed(NoEntry), s.sessions);
    if sid in s.sessions {
      GoesSame(env, s, s1, t, s.sessions[sid].pid.value, Some(id), s');
    }
  }

  lemma TakenSame(s: State, t: Rack, id: LockId)
    requires t in s.tasks
    ensures var s1 := Take(Dequeue(s, t, Search(id), Running(None)), t, Search(id), Running(Some(id)));
            && s1.channels == s.channels && s1.sessions == s.sessions && t in s1.tasks
            && s1.tasks[t].msg == s.tasks[t].msg && s1.tasks[t].call == s.tasks[t].call
            && forall p :: LockOf(s1, Busy(p)) == LockOf(s, Busy(p))
  {
    hide Without;
  }

  lemma EventCleared(env: WS.Env, s: State, t: Rack, choice: Pid)
    requires Enabled(env, s, WakeEvent(t, choice)) && s.tasks[t].msg.session.None?
    ensures !Apply(env, s, WakeEvent(t, choice)).freeEvent
  {
    var s1 := SetPc(s, t, Running(None)).(freeEvent := false);
    FreeScanEvent(env, s1, t, choice);
    hide FreeScan;
  }

  lemma FreeScanEvent(env: WS.Env, s: State, t: Rack, choice: Pid)
    requires t in s.tasks && !s.freeEvent
    ensures !FreeScan(env, s, t, choice).freeEvent
  {
    var pc := if choice in s.live then AwaitAnswer(choice, 0) else Done(Failed(ClosedHandles));
    TakeEvent(s, t, Busy(choice), pc);
    ClosedFields(Take(s, t, Busy(choice), pc), t);
    hide Take, Closed, LockOf;
  }

  lemma TakeEvent(s: State, t: Rack, x: LockName, pc: Pc)
    requires t in s.tasks
    ensures t in Take(s, t, x, pc).tasks && Take(s, t, x, pc).freeEvent == s.freeEvent
  {
  }

  /** A request woken because a process became free scans again. */
  lemma WakesForEvent(env: WS.Env, n: nat, s: State, t: Rack, choice: Pid)
    requires n > 0 && Invariant(n, s) && Enabled(env, s, WakeEvent(t, choice))
    ensures Scans(env, s, t, choice, Apply(env, s, WakeEvent(t, choice)))
    ensures !Apply(env, s, WakeEvent(t, choice)).freeEvent
  {
    assert TaskOk(s, t);
    EventCleared(env, s, t, choice);
    hide LocksOk, FreshOk, TablesOk, TasksOk, EventOk, Scans, FreeScan;
    var s1 := SetPc(s, t, Running(None)).(freeEvent := false);
    assert forall p :: LockOf(s1, Busy(p)) == LockOf(s, Busy(p));
    assert ScanAllowed(s1, choice) by {
      assert forall p :: Unlocked(s1, p) == Unlocked(SetPc(s, t, Running(None)), p);
    }
    FreeScans(env, s1, t, choice);
    ScanSame(env, s, s1, t, choice, FreeScan(env, s1, t, choice));
  }

  /** A request woken for its busy lock sends its message, or finds the pipe of a replaced process
      closed. */
  lemma WakesForBusy(env: WS.Env, s: State, t: Rack)
    requires Enabled(env, s, WakeBusy(t))
    ensures var s', p := Apply(env, s, WakeBusy(t)), s.tasks[t].pc.pid;
            && t in s'.tasks
            && if p in s.live then
                 && s'.tasks[t].pc == AwaitAnswer(p, 0)
                 && ChannelOf(env, s', p).sent == ChannelOf(env, s, p).sent + [s.tasks[t].msg]
                 && ChannelOf(env, s', p).taken == |ChannelOf(env, s', p).out|
               else
                 s'.tasks[t].pc == EndsAs(s.tasks[t], Failed(ClosedHandles), s.sessions) && s'.channels == s.channels
  {
    var p, search := s.tasks[t].pc.pid, s.tasks[t].pc.search;
    var s1 := Dequeue(s, t, Busy(p), Running(search));
    DequeueChannels(s, t, Busy(p), Running(search));
    DequeueSame(s, t, Busy(p), Running(search));
    hide Dequeue, EndsAs;
    var pc := if p in s.live then AwaitAnswer(p, 0) else Done(Failed(ClosedHandles));
    var s2 := Take(GiveBack(s1, t, search), t, Busy(p), pc);
    TakenMoves(s1, t, search, p, pc);
    TakeSame(GiveBack(s1, t, search), t, Busy(p), pc);
    GiveBackSame(s1, t, search);
    hide Take, GiveBack, Closed;
    ClosedFields(s2, t);
    if p !in s.live {
      ClosedEnds(s2, t, Failed(ClosedHandles));
      EndsSame(s.tasks[t], s2.tasks[t], Failed(ClosedHandles), s.sessions);
    }
  }

  lemma DequeueSame(s: State, t: Rack, x: LockName, pc: Pc)
    requires t in s.tasks
    ensures var s' := Dequeue(s, t, x, pc);
            s'.live == s.live && s'.sessions == s.sessions && t in s'.tasks && s'.tasks[t] == s.tasks[t].(pc := pc)
  {
  }

  /** A request that gives up looking for a process ends with that error, and a clear drops its
      session even then. */
  lemma GivesUp(s: State, t: Rack)
    requires t in s.tasks
    ensures var s' := Abandoned(s, t);
            && t in s'.tasks && s'.tasks[t].pc == EndsAs(s.tasks[t], Failed(AcquireInterrupted), s.sessions)
            && s'.sessions == s.sessions - Dropped(s.tasks[t]) && s'.live == s.live && s'.channels == s.channels
  {
    var pc := Done(Failed(AcquireInterrupted));
    var s1 := match Waits(s.tasks[t].pc) case Some(x) => Dequeue(s, t, x, pc) case None => SetPc(s, t, pc);
    if Waits(s.tasks[t].pc).Some? {
      DequeueChannels(s, t, Waits(s.tasks[t].pc).value, pc);
      DequeueSame(s, t, Waits(s.tasks[t].pc).value, pc);
    }
    hide Dequeue, Closed, EndsAs;
    ClosedFields(s1, t);
    ClosedSessions(s1, t);
    ClosedEnds(s1, t, Failed(AcquireInterrupted));
    EndsSame(s.tasks[t], s1.tasks[t], Failed(AcquireInterrupted), s.sessions);
  }

  // ---- over runs --------------------------------------------------------------------------

  /** Clearing an unknown session, over runs: the call returns None in the step it starts in, and
      nothing else changes; with an entry it does not end in that step. */
  lemma ClearAtStart(env: WS.Env, n: nat, run: Run, i: nat, t: Rack, call: Call, msg: WorkerMessage, choice: Pid)
    requires n > 0 && IsRun(env, n, run) && i < |run.steps| && run.steps[i] == Start(t, call, msg, choice)
    requires Clears(call) && msg.session.Some?
    ensures var s, s' := run.states[i], run.states[i + 1];
            && t in s'.tasks
            && if msg.session.value !in s.sessions then
                 s' == s.(tasks := s.tasks[t := Task(call, msg, Done(Returned(None)))])
               else !s'.tasks[t].pc.Done?
  {
    RunStart(env, n, run);
    RunGood(env, n, run, i);
    RunStep(env, n, run, i);
    hide IsRun, Enabled, Apply, Invariant, PipesOk;
    Starts(env, n, run.states[i], t, call, msg, choice);
  }

  /** Which steps replace a process. */
  predicate ReplacesProcess(env: WS.Env, s: State, step: Step)
    requires Enabled(env, s, step)
  {
    match step
    case Receive(t) => GivesUpProcess(s.tasks[t].msg, NextObject(env, s, t), s.tasks[t].pc.count)
    case Interrupt(_, restart) => restart
    case _ => false
  }

  /** Process p has been replaced by a fresh one, and no session is bound to it. */
  ghost predicate MakesRoom(s: State, p: Pid, s': State) {
    && p in s.live && p !in s'.live && s'.live == s.live - {p} + {s.nextPid}
    && forall sid :: sid in s'.sessions ==> s'.sessions[sid].pid != Some(p)
  }

  lemma SeekLive(env: WS.Env, s: State, step: Step)
    requires Enabled(env, s, step) && Seeks(step) && Linked(s.sessions, s.live) && s.live != {} && TasksOk(s)
    ensures Apply(env, s, step).live == s.live && Apply(env, s, step).nextPid == s.nextPid
  {
    var t := step.t;
    if !step.Start? {
      assert TaskOk(s, t);
    }
    match step
    case Start(_, call, msg, choice) =>
      if msg.session.None? || msg.session.value in s.sessions {
        StartQuiet(env, s, t, call, msg, choice);
      } else if Clears(call) {
        EndsAtStart(env, s, t, call, msg, choice);
      } else {
        FirstQuiet(env, s, t, call, msg, choice);
      }
    case Abandon(_) => AbandonQuiet(s, t);
    case WakeBusy(_) => WakeBusyQuiet(env, s, t);
    case _ => WakeQuiet(env, s, step);
  }

  /** Over all steps: the processes change if and only if a process is given up or an interruption
      demands it, and then the awaited process makes room for a fresh one without sessions. */
  lemma LiveChanges(env: WS.Env, n: nat, s: State, step: Step)
    requires n > 0 && Invariant(n, s) && Enabled(env, s, step)
    ensures var s' := Apply(env, s, step);
            if ReplacesProcess(env, s, step) then MakesRoom(s, s.tasks[step.t].pc.pid, s') else s'.live == s.live
  {
    assert s.live != {} && Linked(s.sessions, s.live);
    hide LocksOk, FreshOk, TablesOk, TasksOk, EventOk, Stray, GivesUpProcess, MakesRoom, EndsRequest, Makes;
    match step
    case Receive(t) =>
      AwaitedLive(s, t);
      Receives(env, n, s, t);
      PidFresh(s, s.tasks[t].pc.pid);
      var o, m := NextObject(env, s, t), s.tasks[t].msg;
      hide Apply;
      var gone := GivesUpProcess(m, o, s.tasks[t].pc.count);
      if Stray(m, o) && s.tasks[t].pc.count < 4 {
        NotGivenUp(m, o, s.tasks[t].pc.count);
      } else {
        EndsLive(s, t, Makes(s.tasks[t].call, m, o, ChannelOf(env, s, s.tasks[t].pc.pid).memory), gone,
                 Apply(env, s, step));
      }
    case Interrupt(t, restart) =>
      AwaitedLive(s, t);
      Interrupted(env, n, s, t, restart);
      PidFresh(s, s.tasks[t].pc.pid);
      hide Apply;
      EndsLive(s, t, Failed(AnswerInterrupted), restart, Apply(env, s, step));
    case WorkerTake(_) =>
    case WorkerAct(_) =>
    case _ => SeekLive(env, s, step);
  }

  lemma NotGivenUp(m: WorkerMessage, o: Reply, before: nat)
    requires Stray(m, o) && before < 4
    ensures !GivesUpProcess(m, o, before)
  {
  }

  lemma EndsLive(s: State, t: Rack, outcome: Outcome, gone: bool, s': State)
    requires t in s.tasks && s.tasks[t].pc.AwaitAnswer? && s.tasks[t].pc.pid in s.live && s.nextPid != s.tasks[t].pc.pid
    requires EndsRequest(s, t, outcome, gone, s')
    ensures if gone then MakesRoom(s, s.tasks[t].pc.pid, s') else s'.live == s.live
  {
    hide EndsAs, LockOf;
  }

  lemma PidFresh(s: State, p: Pid)
    requires FreshOk(s) && p in s.live
    ensures p != s.nextPid
  {
  }

  /** A process that has been replaced does nothing more, and nobody writes to it or reads from it. */
  lemma ReplacedIsSilent(env: WS.Env, n: nat, s: State, step: Step, p: Pid)
    requires n > 0 && Invariant(n, s) && Enabled(env, s, step) && LocksOk(Apply(env, s, step)) && p !in s.live
    ensures ChannelOf(env, Apply(env, s, step), p) == ChannelOf(env, s, p)
  {
    assert s.live != {} && Linked(s.sessions, s.live);
    if Seeks(step) {
      hide LocksOk, FreshOk, TablesOk, EventOk, TasksOk, SendsIfAwaits, OthersStay, Apply, Enabled;
      SeekEffects(env, s, step);
      SeekLive(env, s, step);
      SendsToLive(env, s, step.t, Apply(env, s, step), p);
    } else if ByTask(step) {
      AwaitedLive(s, step.t);
      AnswerChannels(env, s, step);
      hide Apply, Invariant, LocksOk;
    } else {
      hide Invariant, LocksOk, WS.Acts;
    }
  }

  lemma SendsToLive(env: WS.Env, s: State, t: Rack, s': State, p: Pid)
    requires SendsIfAwaits(env, s, t, s') && LocksOk(s') && p !in s'.live
    ensures ChannelOf(env, s', p) == ChannelOf(env, s, p)
  {
  }

  lemma ReplacedStaysReplaced(env: WS.Env, n: nat, s: State, step: Step, p: Pid)
    requires n > 0 && Invariant(n, s) && Enabled(env, s, step) && p !in s.live && p < s.nextPid
    ensures p !in Apply(env, s, step).live
  {
    hide Apply, Enabled, Invariant, ReplacesProcess;
    LiveChanges(env, n, s, step);
  }

  lemma PidsGrow(env: WS.Env, n: nat, s: State, step: Step)
    requires n > 0 && Invariant(n, s) && Enabled(env, s, step)
    ensures s.nextPid <= Apply(env, s, step).nextPid
  {
    assert s.live != {} && Linked(s.sessions, s.live);
    hide LocksOk, FreshOk, TablesOk, TasksOk, EventOk, Conclude;
    match step
    case Receive(t) => ConcludePids(Popped(env, s, s.tasks[t].pc.pid), t, VerdictFor(env, s, t));
    case Interrupt(t, restart) => InterruptPids(s, t, restart);
    case WorkerTake(_) =>
    case WorkerAct(_) =>
    case _ => SeekLive(env, s, step);
  }

  lemma InterruptPids(s: State, t: Rack, restart: bool)
    requires t in s.tasks && s.tasks[t].pc.AwaitAnswer?
    ensures s.nextPid <= Finish(s, t, s.tasks[t].pc.pid, Failed(AnswerInterrupted), restart).nextPid
  {
    ConcludePids(s, t, End(Failed(AnswerInterrupted), restart));
    hide Finish;
  }

  lemma ConcludePids(s: State, t: Rack, verdict: Verdict)
    requires t in s.tasks && s.tasks[t].pc.AwaitAnswer?
    ensures s.nextPid <= Conclude(s, t, verdict).nextPid
  {
    if verdict.End? {
      var p := s.tasks[t].pc.pid;
      FreedTasks(s, t, p, verdict.outcome);
      var s1 := Freed(s, t, p, verdict.outcome);
      ClosedFields(if verdict.restart then Restart(s1, p) else s1, t);
      hide Notify, Release, Closed;
    }
  }

  /** Over runs: from its replacement on, nothing ever happens to a process's pipe and memory again. */
  lemma {:induction false} ReplacedForever(env: WS.Env, n: nat, run: Run, i: nat, j: nat, p: Pid)
    requires n > 0 && IsRun(env, n, run) && i <= j < |run.states|
    requires p !in run.states[i].live && p < run.states[i].nextPid
    ensures p !in run.states[j].live && p < run.states[j].nextPid
    ensures ChannelOf(env, run.states[j], p) == ChannelOf(env, run.states[i], p)
  {
    hide IsRun, Enabled, Apply, PipesOk, ChannelOf, LocksOk, FreshOk, TablesOk, TasksOk, EventOk;
    RunStart(env, n, run);
    if i < j {
      ReplacedForever(env, n, run, i, j - 1, p);
      RunGood(env, n, run, j - 1);
      RunGood(env, n, run, j);
      RunStep(env, n, run, j - 1);
      ReplacedIsSilent(env, n, run.states[j - 1], run.steps[j - 1], p);
      ReplacedStaysReplaced(env, n, run.states[j - 1], run.steps[j - 1], p);
      PidsGrow(env, n, run.states[j - 1], run.steps[j - 1]);
    }
  }

  // ---- nothing is forbidden that the program allows ---------------------------------------

  lemma {:induction false} SomeLeast(table: Table, live: set<Pid>) returns (p: Pid)
    requires live != {}
    ensures LeastLoaded(table, live, p)
    decreases |live|
  {
    var q :| q in live;
    if live == {q} {
      p := q;
    } else {
      var r := SomeLeast(table, live - {q});
      p := if Load(table, q) <= Load(table, r) then q else r;
      assert live == (live - {q}) + {q};
    }
  }

  /** Any call can start at any time; what a manager method puts into its message is all it takes. */
  lemma CanStart(env: WS.Env, s: State, t: Rack, call: Call, msg: WorkerMessage) returns (choice: Pid)
    requires s.live != {} && Linked(s.sessions, s.live) && t !in s.tasks && msg.rack == t
    requires call.Init? ==> msg.kind.InitSession? && msg.session.Some?
    requires Clears(call) ==> msg.kind.Clear? && msg.session.Some?
    ensures Enabled(env, s, Start(t, call, msg, choice))
  {
    hide ContinueAllowed, Enter;
    if msg.session.None? {
      choice := AnyCanStart(s, t, call, msg);
    } else if msg.session.value in s.sessions || Clears(call) {
      choice := 0;
      KnownCanStart(s, t, call, msg, choice);
    } else {
      var sid := msg.session.value;
      choice := SomeLeast(FirstLocked(Spawn(s, t, call, msg), t, sid).sessions, s.live);
      FirstCanStart(env, s, t, call, msg, choice);
    }
  }

  lemma AnyCanStart(s: State, t: Rack, call: Call, msg: WorkerMessage) returns (choice: Pid)
    requires msg.session.None?
    ensures ContinueAllowed(Enter(s, t, call, msg), t, choice)
  {
    hide LockOf, NewEntry, Take, Enqueue, SetPc, Available;
    var s0 := Spawn(s, t, call, msg);
    assert Enter(s, t, call, msg) == s0;
    hide Enter, Unlocked;
    choice := if exists p :: p in s0.live && Unlocked(s0, p) then var p :| p in s0.live && Unlocked(s0, p); p else 0;
  }

  lemma KnownCanStart(s: State, t: Rack, call: Call, msg: WorkerMessage, choice: Pid)
    requires Linked(s.sessions, s.live) && msg.session.Some? && (msg.session.value in s.sessions || Clears(call))
    ensures ContinueAllowed(Enter(s, t, call, msg), t, choice)
  {
    hide LockOf, At;
  }

  lemma FirstCanStart(env: WS.Env, s: State, t: Rack, call: Call, msg: WorkerMessage, choice: Pid)
    requires t !in s.tasks && msg.session.Some? && msg.session.value !in s.sessions && !Clears(call)
    requires LeastLoaded(FirstLocked(Spawn(s, t, call, msg), t, msg.session.value).sessions, s.live, choice)
    ensures ContinueAllowed(Enter(s, t, call, msg), t, choice)
  {
    FirstEnters(env, s, t, call, msg, choice);
    hide LockOf, At, LeastLoaded, Enter;
  }

  /** A call that is not over can always be given up or interrupted, whatever it waits for. */
  lemma CanEnd(env: WS.Env, n: nat, s: State, t: Rack)
    requires n > 0 && Invariant(n, s) && t in s.tasks && !s.tasks[t].pc.Done?
    ensures if s.tasks[t].pc.AwaitAnswer?
            then Enabled(env, s, Interrupt(t, true)) && Enabled(env, s, Interrupt(t, false))
            else Enabled(env, s, Abandon(t))
  {
    assert TaskOk(s, t);
  }
}
