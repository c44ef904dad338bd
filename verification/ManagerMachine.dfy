/** The process manager as a step machine. Any number of asyncio tasks, each inside one call of a
    manager method, share the manager's state; one step is the code a task runs from one suspension
    point to the next, so a step is atomic as it is in asyncio. Worker processes take their own
    steps in between. Timeouts and cancellations may strike at every suspension point.

    A lock is asyncio's: a holder and a first-in first-out queue. A released lock with a queue is
    unlocked but promised: only the head of the queue, which has been woken, can take it. */
module ManagerMachine {
  import opened Wrappers
  import opened Pictures
  import opened Messages
  import opened SessionTable
  import SharedMemory
  import WS = WorkerSpec

  datatype LockName = Busy(pid: Pid) | Search(id: LockId)

  datatype Lock = Lock(holder: Option<Rack>, queue: seq<Rack>)

  /** The manager method a task is in. */
  datatype Call = Init | SendNoResult | SendResult | Clear | ClearResult

  datatype Failure =
    | AlreadyExists         // init_session of a known session
    | NoEntry               // TypeError: the session disappeared while its search lock was awaited
    | NoProcess             // KeyError or ValueError: no process to choose from
    | ClosedHandles         // OSError of clear_pipe on the pipe of a replaced process
    | EntryGone             // KeyError of the final `del` of a clear whose session is gone already
    | AcquireInterrupted    // timeout or cancellation before a process was obtained
    | AnswerInterrupted     // timeout, cancellation or error while the answer was awaited
    | FromWorker            // an exception object received from the pipe
    | ForeignMessages       // five answers to other requests
    | UnexpectedType        // the answer has a type the method does not expect

  datatype Outcome = Returned(bytes: Option<seq<Byte>>) | Failed(why: Failure)

  /** Where a task is suspended. `Running` occurs inside a step only. */
  datatype Pc =
    | Running(search: Option<LockId>)
    | WaitEvent(notified: bool)
    | WaitSearch(id: LockId)
    | WaitBusy(pid: Pid, search: Option<LockId>)
    | AwaitAnswer(pid: Pid, count: nat)
    | Done(outcome: Outcome)

  /** A task is named by the rack of its message. */
  datatype Task = Task(call: Call, msg: WorkerMessage, pc: Pc)

  /** The two directions of a process's pipe with all that ever went through them, its transfer
      memory, and what the worker still has to do for the message it took last. */
  datatype Channel = Channel(
    sent: seq<WorkerMessage>, handled: nat,
    todo: seq<WS.Action>,
    out: seq<Reply>, taken: nat,
    memory: seq<Byte>)

  datatype State = State(
    live: set<Pid>,                  // the keys of process_info
    sessions: Table,
    locks: Locks,                    // locks never used yet are free
    channels: map<Pid, Channel>,     // channels never used yet are empty
    freeEvent: bool,                 // free_process_event
    tasks: Tasks,
    nextPid: Pid, nextLock: LockId,  // process and lock identities are never reused
    peak: nat)                       // history: the largest number of sessions held so far

  type Locks = map<LockName, Lock>
  type Tasks = map<Rack, Task>

  function At(locks: Locks, x: LockName): Lock {
    if x in locks then locks[x] else Lock(None, [])
  }

  function LockOf(s: State, x: LockName): Lock {
    At(s.locks, x)
  }

  function ChannelOf(env: WS.Env, s: State, p: Pid): Channel {
    if p in s.channels then s.channels[p] else Channel([], 0, [], [], 0, seq(env.size, _ => 0))
  }

  function FirstPids(n: nat): (live: set<Pid>)
    ensures |live| == n && forall p: Pid :: p in live <==> p < n
  {
    if n == 0 then {}
    else
      var fewer := FirstPids(n - 1);
      assert |fewer + {n - 1}| == |fewer| + 1;
      fewer + {n - 1}
  }

  predicate Initial(n: nat, s: State) {
    && s.live == FirstPids(n) && s.nextPid == n
    && s.sessions == map[] && s.locks == map[] && s.channels == map[] && s.tasks == map[]
    && !s.freeEvent && s.nextLock == 0 && s.peak == 0
  }

  // ---- pieces of steps --------------------------------------------------------------------

  function WithLock(s: State, x: LockName, l: Lock): State {
    s.(locks := s.locks[x := l])
  }

  function SetPc(s: State, t: Rack, pc: Pc): State
    requires t in s.tasks
  {
    s.(tasks := s.tasks[t := s.tasks[t].(pc := pc)])
  }

  function Without(queue: seq<Rack>, t: Rack): seq<Rack> {
    if queue == [] then []
    else if queue[0] == t then Without(queue[1..], t)
    else [queue[0]] + Without(queue[1..], t)
  }

  predicate Clears(call: Call) {
    call.Clear? || call.ClearResult?
  }

  /** The `finally` of both clear operations: the session is dropped however the call ends. If it is
      gone already, the KeyError of `del` takes the place of the call's own result or error. */
  function Closed(s: State, t: Rack): State
    requires t in s.tasks
  {
    var task := s.tasks[t];
    if !Clears(task.call) || task.msg.session.None? then s
    else if task.msg.session.value in s.sessions then s.(sessions := s.sessions - {task.msg.session.value})
    else SetPc(s, t, Done(Failed(EntryGone)))
  }

  function Ended(s: State, t: Rack, outcome: Outcome): State
    requires t in s.tasks
  {
    Closed(SetPc(s, t, Done(outcome)), t)
  }

  /** Task t takes a free lock, gives one back, or joins a queue, and moves to the given position. */
  function Take(s: State, t: Rack, x: LockName, pc: Pc): State
    requires t in s.tasks
  {
    SetPc(WithLock(s, x, LockOf(s, x).(holder := Some(t))), t, pc)
  }

  function Release(s: State, t: Rack, x: LockName, pc: Pc): State
    requires t in s.tasks
  {
    SetPc(WithLock(s, x, LockOf(s, x).(holder := None)), t, pc)
  }

  function Enqueue(s: State, t: Rack, x: LockName, pc: Pc): State
    requires t in s.tasks
  {
    SetPc(WithLock(s, x, LockOf(s, x).(queue := LockOf(s, x).queue + [t])), t, pc)
  }

  function Dequeue(s: State, t: Rack, x: LockName, pc: Pc): State
    requires t in s.tasks
  {
    SetPc(WithLock(s, x, LockOf(s, x).(queue := Without(LockOf(s, x).queue, t))), t, pc)
  }

  /** Nobody holds the lock and nobody awaits it. */
  predicate Available(s: State, x: LockName) {
    LockOf(s, x).holder.None? && LockOf(s, x).queue == []
  }

  /** `search_free_process_lock.release()`, for requests that have one. */
  function GiveBack(s: State, t: Rack, search: Option<LockId>): State
    requires t in s.tasks
  {
    if search.None? then s else Release(s, t, Search(search.value), Running(None))
  }

  /** What is left in the pipe is thrown away and the message is sent. */
  function Sent(env: WS.Env, s: State, t: Rack, p: Pid): State
    requires t in s.tasks
  {
    var c := ChannelOf(env, s, p);
    s.(channels := s.channels[p := c.(sent := c.sent + [s.tasks[t].msg], taken := |c.out|)])
  }

  /** The busy lock of p is taken and the search lock given back (one atomic step, so their order
      does not show). On a replaced process clearing the pipe raises outside the `try`, so the busy
      lock is kept for ever. */
  function Obtained(env: WS.Env, s: State, t: Rack, p: Pid, search: Option<LockId>): State
    requires t in s.tasks
  {
    var s1 := GiveBack(s, t, search);
    if p in s.live then Sent(env, Take(s1, t, Busy(p), AwaitAnswer(p, 0)), t, p)
    else Closed(Take(s1, t, Busy(p), Done(Failed(ClosedHandles))), t)
  }

  /** `await busy_lock.acquire()`: at once if nobody holds or awaits the lock, else in the queue. */
  function TryBusy(env: WS.Env, s: State, t: Rack, p: Pid, search: Option<LockId>): State
    requires t in s.tasks
  {
    if Available(s, Busy(p)) then Obtained(env, s, t, p, search)
    else Enqueue(s, t, Busy(p), WaitBusy(p, search))
  }

  /** The allocator's result is written into the session's entry. */
  function Chosen(s: State, sid: SessionId, id: LockId, choice: Pid): State {
    var table := Bind(s.sessions, sid, id, choice);
    s.(sessions := table, peak := if |table| > s.peak then |table| else s.peak)
  }

  /** The code after `search_free_process_lock.acquire()`, the lock being held. */
  function AfterSearch(env: WS.Env, s: State, t: Rack, id: LockId, choice: Pid): State
    requires t in s.tasks && s.tasks[t].msg.session.Some?
  {
    var sid := s.tasks[t].msg.session.value;
    if sid !in s.sessions then Ended(s, t, Failed(NoEntry))
    else
      match s.sessions[sid].pid
      case Some(p) =>
        if p in s.live then TryBusy(env, s, t, p, Some(id)) else Ended(s, t, Failed(NoProcess))
      case None =>
        if s.live == {} then Ended(s, t, Failed(NoProcess))
        else
          TryBusy(env, Chosen(s, sid, id, choice), t, choice, Some(id))
  }

  /** A choice the allocator may make: a least loaded process. */
  predicate ChoiceAllowed(s: State, t: Rack, choice: Pid)
    requires t in s.tasks && s.tasks[t].msg.session.Some?
  {
    var sid := s.tasks[t].msg.session.value;
    sid in s.sessions && s.sessions[sid].pid.None? && s.live != {} ==> LeastLoaded(s.sessions, s.live, choice)
  }

  predicate Unlocked(s: State, p: Pid) {
    p in s.live && LockOf(s, Busy(p)).holder.None?
  }

  /** The scan of a request without session: some unlocked process, or wait for the event. A set
      event is cleared and the scan repeated, with the same result. */
  function FreeScan(env: WS.Env, s: State, t: Rack, choice: Pid): State
    requires t in s.tasks
  {
    if exists p :: p in s.live && Unlocked(s, p) then TryBusy(env, s, t, choice, None)
    else SetPc(s.(freeEvent := false), t, WaitEvent(false))
  }

  predicate ScanAllowed(s: State, choice: Pid) {
    (exists p :: p in s.live && Unlocked(s, p)) ==> Unlocked(s, choice)
  }

  /** `_restart_process`: the process and its sessions go, a new process comes. */
  function Restart(s: State, p: Pid): State {
    if p !in s.live then s
    else s.(live := s.live - {p} + {s.nextPid}, nextPid := s.nextPid + 1, sessions := Purge(s.sessions, p))
  }

  function Woken(task: Task): Task {
    if task.pc.WaitEvent? then task.(pc := WaitEvent(true)) else task
  }

  /** `free_process_event.set()`: every waiter is woken. */
  function Notify(s: State): State {
    s.(freeEvent := true, tasks := map u | u in s.tasks :: Woken(s.tasks[u]))
  }

  /** The end of `_send_message`: the process is replaced after one of the listed errors; the busy
      lock is released and the event set in any case. */
  function Finish(s: State, t: Rack, p: Pid, outcome: Outcome, restart: bool): State
    requires t in s.tasks
  {
    var s1 := Notify(Release(s, t, Busy(p), Done(outcome)));
    Closed(if restart then Restart(s1, p) else s1, t)
  }

  // ---- the answer -------------------------------------------------------------------------

  datatype Verdict = Retry | End(outcome: Outcome, restart: bool)

  /** What a task does with the count-th object it receives. A single-shot result is read from the
      transfer memory in the same step. */
  function Judge(call: Call, msg: WorkerMessage, reply: Reply, count: nat, memory: seq<Byte>): Verdict {
    match reply
    case Raised(error) => End(Failed(FromWorker), error.Restarting?)
    case Message(m) =>
      if m.session != msg.session || m.rack != msg.rack then
        if count >= 5 then End(Failed(ForeignMessages), true) else Retry
      else
        match call
        case Clear => End(Returned(None), false)
        case Init => if m.kind.Ok? then End(Returned(None), false) else End(Failed(UnexpectedType), false)
        case SendNoResult => if m.kind.Ok? then End(Returned(None), false) else End(Failed(UnexpectedType), false)
        case _ =>
          if m.kind.CheckSharedMemory? && m.content.Length? && memory != []
          then End(Returned(Some(SharedMemory.ReadBytes(memory, m.content.bytes))), false)
          else End(Failed(UnexpectedType), false)
  }

  // ---- steps ------------------------------------------------------------------------------

  datatype Step =
    | Start(t: Rack, call: Call, msg: WorkerMessage, choice: Pid)
    | WakeEvent(t: Rack, choice: Pid)
    | WakeSearch(t: Rack, choice: Pid)
    | WakeBusy(t: Rack)
    | Receive(t: Rack)
    | Abandon(t: Rack)                      // timeout or cancellation while a process is sought
    | Interrupt(t: Rack, restart: bool)     // timeout, cancellation or error while the answer is awaited
    | WorkerTake(p: Pid)
    | WorkerAct(p: Pid)

  /** What the manager's methods put into the messages they build. */
  predicate WellFormed(call: Call, msg: WorkerMessage) {
    match call
    case Init => msg.kind.InitSession? && msg.session.Some?
    case Clear => msg.kind.Clear? && msg.session.Some?
    case ClearResult => msg.kind.Clear? && msg.session.Some?
    case _ => true
  }

  predicate Promised(s: State, x: LockName, t: Rack) {
    var l := LockOf(s, x);
    l.holder.None? && l.queue != [] && l.queue[0] == t
  }

  function Spawn(s: State, t: Rack, call: Call, msg: WorkerMessage): State {
    s.(tasks := s.tasks[t := Task(call, msg, Running(None))])
  }

  /** A new search lock and the placeholder entry without a process. */
  function NewEntry(s: State, sid: SessionId): State {
    s.(sessions := s.sessions[sid := Entry(s.nextLock, None)], nextLock := s.nextLock + 1)
  }

  /** A call up to the search lock. */
  function Enter(s: State, t: Rack, call: Call, msg: WorkerMessage): (s': State)
    ensures t in s'.tasks
  {
    var s0 := Spawn(s, t, call, msg);
    if msg.session.None? then s0
    else
      var sid := msg.session.value;
      if call.Init? && sid in s.sessions then SetPc(s0, t, Done(Failed(AlreadyExists)))
      else if Clears(call) && (sid !in s.sessions || s.sessions[sid].pid.None?) then SetPc(s0, t, Done(Returned(None)))
      else if sid !in s.sessions then Take(NewEntry(s0, sid), t, Search(s.nextLock), Running(Some(s.nextLock)))
      else
        var id := s.sessions[sid].lock;
        if Available(s, Search(id)) then Take(s0, t, Search(id), Running(Some(id)))
        else Enqueue(s0, t, Search(id), WaitSearch(id))
  }

  /** The rest of a step once a task is running. */
  function Continue(env: WS.Env, s: State, t: Rack, choice: Pid): State
    requires t in s.tasks
  {
    match s.tasks[t].pc
    case Running(Some(id)) => if s.tasks[t].msg.session.Some? then AfterSearch(env, s, t, id, choice) else s
    case Running(None) => FreeScan(env, s, t, choice)
    case _ => s
  }

  predicate ContinueAllowed(s: State, t: Rack, choice: Pid)
    requires t in s.tasks
  {
    match s.tasks[t].pc
    case Running(Some(id)) => s.tasks[t].msg.session.Some? && ChoiceAllowed(s, t, choice)
    case Running(None) => ScanAllowed(s, choice)
    case _ => true
  }

  predicate Enabled(env: WS.Env, s: State, step: Step) {
    match step
    case Start(t, call, msg, choice) =>
      && t !in s.tasks && msg.rack == t && WellFormed(call, msg)
      && ContinueAllowed(Enter(s, t, call, msg), t, choice)
    case WakeEvent(t, choice) =>
      && t in s.tasks && s.tasks[t].pc == WaitEvent(true)
      && ContinueAllowed(SetPc(s, t, Running(None)), t, choice)
    case WakeSearch(t, choice) =>
      && t in s.tasks && s.tasks[t].pc.WaitSearch? && Promised(s, Search(s.tasks[t].pc.id), t)
      && s.tasks[t].msg.session.Some? && ChoiceAllowed(s, t, choice)
    case WakeBusy(t) => t in s.tasks && s.tasks[t].pc.WaitBusy? && Promised(s, Busy(s.tasks[t].pc.pid), t)
    case Receive(t) =>
      && t in s.tasks && s.tasks[t].pc.AwaitAnswer?
      && (var c := ChannelOf(env, s, s.tasks[t].pc.pid); c.taken < |c.out|)
    case Abandon(t) => t in s.tasks
        && (s.tasks[t].pc.WaitEvent? || s.tasks[t].pc.WaitSearch? || s.tasks[t].pc.WaitBusy?)
    case Interrupt(t, _) => t in s.tasks && s.tasks[t].pc.AwaitAnswer?
    case WorkerTake(p) => p in s.live && (var c := ChannelOf(env, s, p); c.todo == [] && c.handled < |c.sent|)
    case WorkerAct(p) => p in s.live && ChannelOf(env, s, p).todo != []
  }

  /** The next object is taken out of the pipe. */
  function Popped(env: WS.Env, s: State, p: Pid): State {
    var c := ChannelOf(env, s, p);
    s.(channels := s.channels[p := c.(taken := c.taken + 1)])
  }

  function Conclude(s: State, t: Rack, verdict: Verdict): State
    requires t in s.tasks && s.tasks[t].pc.AwaitAnswer?
  {
    var p, count := s.tasks[t].pc.pid, s.tasks[t].pc.count;
    match verdict
    case Retry => SetPc(s, t, AwaitAnswer(p, count + 1))
    case End(outcome, restart) => Finish(s, t, p, outcome, restart)
  }

  function VerdictFor(env: WS.Env, s: State, t: Rack): Verdict
    requires Enabled(env, s, Receive(t))
  {
    var c := ChannelOf(env, s, s.tasks[t].pc.pid);
    Judge(s.tasks[t].call, s.tasks[t].msg, c.out[c.taken], s.tasks[t].pc.count + 1, c.memory)
  }

  /** The lock a position is queued for. */
  function Waits(pc: Pc): Option<LockName> {
    match pc
    case WaitSearch(id) => Some(Search(id))
    case WaitBusy(p, _) => Some(Busy(p))
    case _ => None
  }

  /** A request that gives up its search leaves its queue, but keeps a search lock it holds. */
  function Abandoned(s: State, t: Rack): State
    requires t in s.tasks
  {
    var pc := Done(Failed(AcquireInterrupted));
    match Waits(s.tasks[t].pc)
    case Some(x) => Closed(Dequeue(s, t, x, pc), t)
    case None => Closed(SetPc(s, t, pc), t)
  }

  /** The worker takes the next message; what it will do depends on all it has handled so far. */
  function Taken(env: WS.Env, c: Channel): Channel
    requires c.handled < |c.sent|
  {
    c.(handled := c.handled + 1, todo := WS.Acts(env, c.sent[..c.handled], c.sent[c.handled]))
  }

  /** The worker performs its next action. */
  function Acted(c: Channel): Channel
    requires c.todo != []
  {
    c.(todo := c.todo[1..], memory := WS.Perform(c.memory, c.todo[0]),
       out := if c.todo[0].Send? then c.out + [c.todo[0].reply] else c.out)
  }

  function Apply(env: WS.Env, s: State, step: Step): State
    requires Enabled(env, s, step)
  {
    match step
    case Start(t, call, msg, choice) => Continue(env, Enter(s, t, call, msg), t, choice)
    case WakeEvent(t, choice) => Continue(env, SetPc(s, t, Running(None)).(freeEvent := false), t, choice)
    case WakeSearch(t, choice) =>
      var id := s.tasks[t].pc.id;
      AfterSearch(env, Take(Dequeue(s, t, Search(id), Running(None)), t, Search(id), Running(Some(id))), t, id, choice)
    case WakeBusy(t) =>
      var p, search := s.tasks[t].pc.pid, s.tasks[t].pc.search;
      Obtained(env, Dequeue(s, t, Busy(p), Running(search)), t, p, search)
    case Receive(t) => Conclude(Popped(env, s, s.tasks[t].pc.pid), t, VerdictFor(env, s, t))
    case Abandon(t) => Abandoned(s, t)
    case Interrupt(t, restart) => Finish(s, t, s.tasks[t].pc.pid, Failed(AnswerInterrupted), restart)
    case WorkerTake(p) => s.(channels := s.channels[p := Taken(env, ChannelOf(env, s, p))])
    case WorkerAct(p) => s.(channels := s.channels[p := Acted(ChannelOf(env, s, p))])
  }

  // ---- runs -------------------------------------------------------------------------------

  /** A run: states and the steps between them, from n fresh processes. */
  datatype Run = Run(states: seq<State>, steps: seq<Step>)

  ghost predicate IsRun(env: WS.Env, n: nat, run: Run) {
    && |run.states| == |run.steps| + 1 && Initial(n, run.states[0])
    && forall i {:trigger run.steps[i]} :: 0 <= i < |run.steps| ==>
         Enabled(env, run.states[i], run.steps[i]) && run.states[i + 1] == Apply(env, run.states[i], run.steps[i])
  }
}
