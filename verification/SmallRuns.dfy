/** Building blocks of concrete runs: one process, numbered 0, one session "A" of the heatmap
    processor, and one search lock, numbered 0. */
module SmallRuns {
  import opened Wrappers
  import opened Pictures
  import opened Messages
  import opened SessionTable
  import opened ManagerMachine
  import SharedMemory
  import WS = WorkerSpec

  /** Which requests are clears, which upload a white pixel and want the map, and whether request 0
      opens the session; every other request is an upload that the worker cannot handle. */
  datatype Plan = Plan(clears: set<Rack>, opens: bool, uploads: set<Rack>)

  const White: Image := Raster(1, 1, [[RGB(255, 255, 255)]])

  function Request(plan: Plan, t: Rack): WorkerMessage {
    if t in plan.clears then WorkerMessage(MessageType.Clear, t, Some(HeatmapImage), Nothing, Some("A"))
    else if t == 0 && plan.opens then WorkerMessage(InitSession, t, Some(HeatmapImage), SessionShape(1, 1), Some("A"))
    else if t in plan.uploads then WorkerMessage(Data, t, Some(HeatmapImage), Upload(Some(White)), Some("A"))
    else WorkerMessage(Data, t, Some(HeatmapImage), Nothing, Some("A"))
  }

  function Caller(plan: Plan, t: Rack): Call {
    if t in plan.clears then Call.Clear else if t == 0 && plan.opens then Call.Init
    else if t in plan.uploads then SendResult else SendNoResult
  }

  function Begin(plan: Plan, t: Rack): Step {
    Start(t, Caller(plan, t), Request(plan, t), 0)
  }

  /** What a state of such a run looks like: the session bound or gone, the two locks, the channel,
      and the first requests at the given positions. */
  datatype Scene = Scene(open: bool, busy: Lock, search: Lock, c: Channel, pcs: seq<Pc>)

  ghost predicate View(env: WS.Env, plan: Plan, s: State, v: Scene) {
    && s.live == {0} && s.sessions == (if v.open then map["A" := Entry(0, Some(0))] else map[])
    && LockOf(s, Busy(0)) == v.busy && LockOf(s, Search(0)) == v.search && ChannelOf(env, s, 0) == v.c
    && (forall t: Rack :: t in s.tasks <==> t < |v.pcs|)
    && (forall t: Rack :: t < |v.pcs| ==> s.tasks[t] == Task(Caller(plan, t), Request(plan, t), v.pcs[t]))
  }

  /** Request t is at the given position. */
  predicate Stands(v: Scene, t: Rack, pc: Pc) {
    t < |v.pcs| && v.pcs[t] == pc
  }

  function Moves(v: Scene, t: Rack, pc: Pc): Scene
    requires t < |v.pcs|
  {
    v.(pcs := v.pcs[t := pc])
  }

  function Arrives(v: Scene, pc: Pc): Scene {
    v.(pcs := v.pcs + [pc])
  }

  function Empty(env: WS.Env): Channel {
    Channel([], 0, [], [], 0, seq(env.size, _ => 0))
  }

  /** A step that is possible and leads to the given scene. */
  ghost predicate Leads(env: WS.Env, plan: Plan, s: State, step: Step, v: Scene) {
    Enabled(env, s, step) && View(env, plan, Apply(env, s, step), v)
  }

  // ---- the first request ------------------------------------------------------------------

  /** The state in which request 0 has the search lock and its session is bound. */
  function Bound0(plan: Plan, s: State): State {
    var s0 := Spawn(s, 0, Caller(plan, 0), Request(plan, 0));
    Chosen(Take(NewEntry(s0, "A"), 0, Search(0), Running(Some(0))), "A", 0, 0)
  }

  lemma FirstBinds(env: WS.Env, plan: Plan, s: State)
    requires Initial(1, s) && 0 !in plan.clears
    ensures Enabled(env, s, Begin(plan, 0))
    ensures Apply(env, s, Begin(plan, 0)) == TryBusy(env, Bound0(plan, s), 0, 0, Some(0))
  {
    var s0 := Spawn(s, 0, Caller(plan, 0), Request(plan, 0));
    var s1 := Take(NewEntry(s0, "A"), 0, Search(0), Running(Some(0)));
    assert Enter(s, 0, Caller(plan, 0), Request(plan, 0)) == s1;
    hide TryBusy, Chosen;
    assert s.live == {0};
    assert LeastLoaded(s1.sessions, s1.live, 0);
  }

  lemma Bound0Is(plan: Plan, s: State)
    requires Initial(1, s)
    ensures var s2 := Bound0(plan, s);
            && s2.live == {0} && s2.sessions == map["A" := Entry(0, Some(0))] && s2.channels == map[]
            && s2.locks == map[Search(0) := Lock(Some(0), [])]
            && s2.tasks == map[0 := Task(Caller(plan, 0), Request(plan, 0), Running(Some(0)))]
  {
    assert s.live == {0};
  }

  function FirstScene(env: WS.Env, plan: Plan): Scene {
    Scene(true, Lock(Some(0), []), Lock(None, []), Empty(env).(sent := [Request(plan, 0)]), [AwaitAnswer(0, 0)])
  }

  lemma FirstSends(env: WS.Env, plan: Plan, s: State)
    requires s.live == {0} && s.sessions == map["A" := Entry(0, Some(0))] && s.channels == map[]
    requires s.locks == map[Search(0) := Lock(Some(0), [])]
    requires s.tasks == map[0 := Task(Caller(plan, 0), Request(plan, 0), Running(Some(0)))]
    ensures View(env, plan, TryBusy(env, s, 0, 0, Some(0)), FirstScene(env, plan))
  {
    assert Available(s, Busy(0));
    assert TryBusy(env, s, 0, 0, Some(0)) == Obtained(env, s, 0, 0, Some(0));
  }

  lemma First(env: WS.Env, plan: Plan, s: State)
    requires Initial(1, s) && 0 !in plan.clears
    ensures Leads(env, plan, s, Begin(plan, 0), FirstScene(env, plan))
  {
    hide Bound0, View, TryBusy, Initial, Apply, Enabled;
    FirstBinds(env, plan, s);
    Bound0Is(plan, s);
    FirstSends(env, plan, Bound0(plan, s));
  }

  // ---- pieces -----------------------------------------------------------------------------

  lemma Facts(env: WS.Env, plan: Plan, s: State, v: Scene)
    requires View(env, plan, s, v)
    ensures s.live == {0} && LockOf(s, Busy(0)) == v.busy && LockOf(s, Search(0)) == v.search
    ensures ChannelOf(env, s, 0) == v.c
    ensures if v.open then s.sessions == map["A" := Entry(0, Some(0))] else s.sessions == map[]
    ensures |v.pcs| !in s.tasks
  {
  }

  lemma Position(env: WS.Env, plan: Plan, s: State, v: Scene, t: Rack)
    requires View(env, plan, s, v) && t < |v.pcs|
    ensures t in s.tasks && s.tasks[t] == Task(Caller(plan, t), Request(plan, t), v.pcs[t])
  {
  }

  function LockSet(v: Scene, x: LockName, l: Lock): Scene {
    if x.Busy? then v.(busy := l) else v.(search := l)
  }

  /** Task t moves, and one of the two locks changes. */
  lemma LockMoves(env: WS.Env, plan: Plan, s: State, v: Scene, t: Rack, x: LockName, l: Lock, pc: Pc)
    requires View(env, plan, s, v) && t < |v.pcs| && x in {Busy(0), Search(0)}
    ensures t in s.tasks && View(env, plan, SetPc(WithLock(s, x, l), t, pc), Moves(LockSet(v, x, l), t, pc))
  {
  }

  lemma OnlyMoves(env: WS.Env, plan: Plan, s: State, v: Scene, t: Rack, pc: Pc)
    requires View(env, plan, s, v) && t < |v.pcs|
    ensures t in s.tasks && View(env, plan, SetPc(s, t, pc), Moves(v, t, pc))
  {
  }

  lemma Spawned(env: WS.Env, plan: Plan, s: State, v: Scene)
    requires View(env, plan, s, v)
    ensures View(env, plan, Spawn(s, |v.pcs|, Caller(plan, |v.pcs|), Request(plan, |v.pcs|)), Arrives(v, Running(None)))
  {
  }

  lemma ChannelSet(env: WS.Env, plan: Plan, s: State, v: Scene, c: Channel)
    requires View(env, plan, s, v)
    ensures View(env, plan, s.(channels := s.channels[0 := c]), v.(c := c))
  {
  }

  lemma MovesTwice(v: Scene, t: Rack, a: Pc, b: Pc)
    requires t < |v.pcs|
    ensures v.pcs[t := a][t := b] == v.pcs[t := b]
  {
  }

  lemma ArrivesMoves(v: Scene, a: Pc, b: Pc)
    ensures (v.pcs + [a])[|v.pcs| := b] == v.pcs + [b]
  {
  }

  // ---- requests look for the process ------------------------------------------------------

  /** The next request gets the search lock and waits for the busy lock. */
  lemma StartFirstWaiter(env: WS.Env, plan: Plan, s: State, v: Scene)
    requires View(env, plan, s, v) && v.open && |v.pcs| > 0 && v.busy.holder.Some? && v.search == Lock(None, [])
    ensures var t := |v.pcs|;
            var busy := v.busy.(queue := v.busy.queue + [t]);
            Leads(env, plan, s, Begin(plan, t),
                Arrives(v.(busy := busy, search := Lock(Some(t), [])), WaitBusy(0, Some(0))))
  {
    hide View;
    var t := |v.pcs|;
    Facts(env, plan, s, v);
    Spawned(env, plan, s, v);
    var s0, v0 := Spawn(s, t, Caller(plan, t), Request(plan, t)), Arrives(v, Running(None));
    Facts(env, plan, s0, v0);
    LockMoves(env, plan, s0, v0, t, Search(0), Lock(Some(t), []), Running(Some(0)));
    var s1, v1 := Take(s0, t, Search(0), Running(Some(0))),
        Moves(v0.(search := Lock(Some(t), [])), t, Running(Some(0)));
    assert Enter(s, t, Caller(plan, t), Request(plan, t)) == s1;
    Facts(env, plan, s1, v1);
    Position(env, plan, s1, v1, t);
    QueuesForBusy(env, plan, s1, t, v1);
    ArrivesMoves(v, Running(None), Running(Some(0)));
    ArrivesMoves(v, Running(Some(0)), WaitBusy(0, Some(0)));
    hide AfterSearch, Enter;
    assert Continue(env, s1, t, 0) == AfterSearch(env, s1, t, 0, 0);
  }

  /** The next request queues up for the search lock. */
  lemma StartQueued(env: WS.Env, plan: Plan, s: State, v: Scene)
    requires View(env, plan, s, v) && v.open && |v.pcs| > 0 && v.search.holder.Some?
    ensures var t := |v.pcs|;
            var search := v.search.(queue := v.search.queue + [t]);
            Leads(env, plan, s, Begin(plan, t), Arrives(v.(search := search), WaitSearch(0)))
  {
    hide View;
    var t := |v.pcs|;
    Facts(env, plan, s, v);
    Spawned(env, plan, s, v);
    var s0, v0 := Spawn(s, t, Caller(plan, t), Request(plan, t)), Arrives(v, Running(None));
    Facts(env, plan, s0, v0);
    LockMoves(env, plan, s0, v0, t, Search(0), v.search.(queue := v.search.queue + [t]), WaitSearch(0));
    ArrivesMoves(v, Running(None), WaitSearch(0));
    assert Enter(s, t, Caller(plan, t), Request(plan, t)) == Enqueue(s0, t, Search(0), WaitSearch(0));
  }

  /** The scene after request t, alone in the queue, got the busy lock and sent its message. */
  function HasBusy(plan: Plan, v: Scene, t: Rack): Scene
    requires t < |v.pcs|
  {
    Moves(v.(busy := Lock(Some(t), []), search := v.search.(holder := None),
             c := v.c.(sent := v.c.sent + [Request(plan, t)], taken := |v.c.out|)), t, AwaitAnswer(0, 0))
  }

  lemma GetBusy(env: WS.Env, plan: Plan, s: State, t: Rack, v: Scene)
    requires View(env, plan, s, v) && Stands(v, t, WaitBusy(0, Some(0))) && v.busy == Lock(None, [t])
    requires v.search.holder == Some(t)
    ensures Leads(env, plan, s, WakeBusy(t), HasBusy(plan, v, t))
  {
    hide View;
    Facts(env, plan, s, v);
    Position(env, plan, s, v, t);
    assert Without([t], t) == [];
    var s1, v1 := Dequeue(s, t, Busy(0), Running(Some(0))), Moves(v.(busy := Lock(None, [])), t, Running(Some(0)));
    LockMoves(env, plan, s, v, t, Busy(0), Lock(None, []), Running(Some(0)));
    hide Dequeue;
    ObtainsBusy(env, plan, s1, t, v1);
    MovesTwice(v, t, Running(Some(0)), AwaitAnswer(0, 0));
  }

  lemma ObtainsBusy(env: WS.Env, plan: Plan, s: State, t: Rack, v: Scene)
    requires View(env, plan, s, v) && Stands(v, t, Running(Some(0))) && v.busy == Lock(None, [])
    requires v.search.holder == Some(t)
    ensures t in s.tasks && View(env, plan, Obtained(env, s, t, 0, Some(0)), HasBusy(plan, v, t))
  {
    hide View;
    Facts(env, plan, s, v);
    LockMoves(env, plan, s, v, t, Search(0), v.search.(holder := None), Running(None));
    var s1, v1 := Release(s, t, Search(0), Running(None)),
        Moves(v.(search := v.search.(holder := None)), t, Running(None));
    Facts(env, plan, s1, v1);
    LockMoves(env, plan, s1, v1, t, Busy(0), Lock(Some(t), []), AwaitAnswer(0, 0));
    var s2, v2 := Take(s1, t, Busy(0), AwaitAnswer(0, 0)), Moves(v1.(busy := Lock(Some(t), [])), t, AwaitAnswer(0, 0));
    Facts(env, plan, s2, v2);
    Position(env, plan, s2, v2, t);
    hide Take, Release;
    ChannelSet(env, plan, s2, v2, v.c.(sent := v.c.sent + [Request(plan, t)], taken := |v.c.out|));
    MovesTwice(v, t, Running(None), AwaitAnswer(0, 0));
  }

  /** Task t, at the head of the queue, takes the search lock. */
  function WithSearch(s: State, t: Rack): State
    requires t in s.tasks
  {
    Take(Dequeue(s, t, Search(0), Running(None)), t, Search(0), Running(Some(0)))
  }

  predicate HeadOfSearch(v: Scene, t: Rack) {
    Stands(v, t, WaitSearch(0)) && v.search.holder.None? && v.search.queue != [] && v.search.queue[0] == t
  }

  function HasSearch(v: Scene, t: Rack): Scene
    requires t < |v.pcs|
  {
    Moves(v.(search := Lock(Some(t), Without(v.search.queue, t))), t, Running(Some(0)))
  }

  lemma TakesSearch(env: WS.Env, plan: Plan, s: State, t: Rack, v: Scene)
    requires View(env, plan, s, v) && HeadOfSearch(v, t)
    ensures t in s.tasks && Enabled(env, s, WakeSearch(t, 0))
    ensures t in WithSearch(s, t).tasks && WithSearch(s, t).tasks[t].msg.session.Some?
    ensures Apply(env, s, WakeSearch(t, 0)) == AfterSearch(env, WithSearch(s, t), t, 0, 0)
    ensures View(env, plan, WithSearch(s, t), HasSearch(v, t))
  {
    hide AfterSearch, View, Without;
    Facts(env, plan, s, v);
    Position(env, plan, s, v, t);
    var free := Lock(None, Without(v.search.queue, t));
    LockMoves(env, plan, s, v, t, Search(0), free, Running(None));
    var s1, v1 := Dequeue(s, t, Search(0), Running(None)), Moves(v.(search := free), t, Running(None));
    Facts(env, plan, s1, v1);
    LockMoves(env, plan, s1, v1, t, Search(0), free.(holder := Some(t)), Running(Some(0)));
    MovesTwice(v, t, Running(None), Running(Some(0)));
  }

  lemma QueuesForBusy(env: WS.Env, plan: Plan, s: State, t: Rack, v: Scene)
    requires View(env, plan, s, v) && v.open && Stands(v, t, Running(Some(0))) && v.busy.holder.Some?
    ensures t in s.tasks && s.tasks[t].msg.session.Some?
    ensures View(env, plan, AfterSearch(env, s, t, 0, 0),
                 Moves(v.(busy := v.busy.(queue := v.busy.queue + [t])), t, WaitBusy(0, Some(0))))
  {
    hide View;
    Facts(env, plan, s, v);
    Position(env, plan, s, v, t);
    LockMoves(env, plan, s, v, t, Busy(0), v.busy.(queue := v.busy.queue + [t]), WaitBusy(0, Some(0)));
    assert AfterSearch(env, s, t, 0, 0) == Enqueue(s, t, Busy(0), WaitBusy(0, Some(0)));
  }

  lemma GetSearch(env: WS.Env, plan: Plan, s: State, t: Rack, v: Scene)
    requires View(env, plan, s, v) && HeadOfSearch(v, t) && v.open && v.busy.holder.Some?
    ensures Leads(env, plan, s, WakeSearch(t, 0),
                  Moves(v.(busy := v.busy.(queue := v.busy.queue + [t]),
                      search := Lock(Some(t), Without(v.search.queue, t))),
                        t, WaitBusy(0, Some(0))))
  {
    hide View, Enabled, Apply, AfterSearch, WithSearch, Without;
    TakesSearch(env, plan, s, t, v);
    QueuesForBusy(env, plan, WithSearch(s, t), t, HasSearch(v, t));
    assert v.pcs[t := Running(Some(0))][t := WaitBusy(0, Some(0))] == v.pcs[t := WaitBusy(0, Some(0))];
  }

  lemma EndsWithoutEntry(env: WS.Env, plan: Plan, s: State, t: Rack, v: Scene)
    requires View(env, plan, s, v) && !v.open && Stands(v, t, Running(Some(0))) && t !in plan.clears
    ensures t in s.tasks && s.tasks[t].msg.session.Some?
    ensures View(env, plan, AfterSearch(env, s, t, 0, 0), Moves(v, t, Done(Failed(NoEntry))))
  {
    hide View;
    Facts(env, plan, s, v);
    Position(env, plan, s, v, t);
    OnlyMoves(env, plan, s, v, t, Done(Failed(NoEntry)));
    assert AfterSearch(env, s, t, 0, 0) == SetPc(s, t, Done(Failed(NoEntry)));
  }

  lemma FindsNothing(env: WS.Env, plan: Plan, s: State, t: Rack, v: Scene)
    requires View(env, plan, s, v) && HeadOfSearch(v, t) && !v.open && t !in plan.clears
    ensures Leads(env, plan, s, WakeSearch(t, 0),
                  Moves(v.(search := Lock(Some(t), Without(v.search.queue, t))), t, Done(Failed(NoEntry))))
  {
    hide View, Enabled, Apply, AfterSearch, WithSearch, Without;
    TakesSearch(env, plan, s, t, v);
    EndsWithoutEntry(env, plan, WithSearch(s, t), t, HasSearch(v, t));
    assert v.pcs[t := Running(Some(0))][t := Done(Failed(NoEntry))] == v.pcs[t := Done(Failed(NoEntry))];
  }

  lemma {:induction false} WithoutNobody(queue: seq<Rack>, t: Rack)
    requires t !in queue
    ensures Without(queue, t) == queue
  {
    if queue != [] {
      WithoutNobody(queue[1..], t);
    }
  }

  lemma WithoutHead(t: Rack, rest: seq<Rack>)
    requires t !in rest
    ensures Without([t] + rest, t) == rest
  {
    assert ([t] + rest)[1..] == rest;
    WithoutNobody(rest, t);
  }

  // ---- the worker and the answers ---------------------------------------------------------

  predicate NobodyParked(v: Scene) {
    forall t :: 0 <= t < |v.pcs| ==> !v.pcs[t].WaitEvent?
  }

  /** How a request with this outcome ends: a clear drops the session, or fails without it. */
  function Ending(plan: Plan, t: Rack, outcome: Outcome, open: bool): Outcome {
    if t in plan.clears && !open then Failed(EntryGone) else outcome
  }

  function HasEnded(plan: Plan, v: Scene, t: Rack, outcome: Outcome): Scene
    requires t < |v.pcs|
  {
    Moves(v.(open := v.open && t !in plan.clears, busy := v.busy.(holder := None)), t,
        Done(Ending(plan, t, outcome, v.open)))
  }

  lemma Notified(env: WS.Env, plan: Plan, s: State, v: Scene)
    requires View(env, plan, s, v) && NobodyParked(v)
    ensures View(env, plan, Notify(s), v)
  {
  }

  lemma Closes(env: WS.Env, plan: Plan, s: State, v: Scene, t: Rack, outcome: Outcome)
    requires View(env, plan, s, v) && Stands(v, t, Done(outcome))
    ensures t in s.tasks
    ensures View(env, plan, Closed(s, t),
            Moves(v.(open := v.open && t !in plan.clears), t, Done(Ending(plan, t, outcome, v.open))))
  {
    assert map["A" := Entry(0, Some(0))] - {"A"} == map[];
    assert v.pcs[t := Done(outcome)] == v.pcs;
  }

  lemma Finishes(env: WS.Env, plan: Plan, s: State, v: Scene, t: Rack, outcome: Outcome)
    requires View(env, plan, s, v) && Stands(v, t, AwaitAnswer(0, 0)) && NobodyParked(v)
    ensures t in s.tasks && View(env, plan, Finish(s, t, 0, outcome, false), HasEnded(plan, v, t, outcome))
  {
    hide View, Notify, Closed;
    Facts(env, plan, s, v);
    LockMoves(env, plan, s, v, t, Busy(0), v.busy.(holder := None), Done(outcome));
    var s1, v1 := Release(s, t, Busy(0), Done(outcome)), Moves(v.(busy := v.busy.(holder := None)), t, Done(outcome));
    Notified(env, plan, s1, v1);
    Closes(env, plan, Notify(s1), v1, t, outcome);
    MovesTwice(v, t, Done(outcome), Done(Ending(plan, t, outcome, v.open)));
  }

  /** Request 0 is cancelled while it awaits its answer. */
  lemma Cancelled(env: WS.Env, plan: Plan, s: State, v: Scene)
    requires View(env, plan, s, v) && Stands(v, 0, AwaitAnswer(0, 0)) && NobodyParked(v)
    ensures Leads(env, plan, s, Interrupt(0, false), HasEnded(plan, v, 0, Failed(AnswerInterrupted)))
  {
    hide View, Finish;
    Position(env, plan, s, v, 0);
    Finishes(env, plan, s, v, 0, Failed(AnswerInterrupted));
  }

  /** The worker takes the next message, and with it what it will do. */
  lemma WorkerTakes(env: WS.Env, plan: Plan, s: State, v: Scene, acts: seq<WS.Action>)
    requires View(env, plan, s, v) && v.c.todo == [] && v.c.handled < |v.c.sent|
    requires WS.Acts(env, v.c.sent[..v.c.handled], v.c.sent[v.c.handled]) == acts
    ensures Leads(env, plan, s, WorkerTake(0), v.(c := v.c.(handled := v.c.handled + 1, todo := acts)))
  {
    hide WS.Acts;
  }

  /** The worker puts data into the memory. */
  lemma WorkerWrites(env: WS.Env, plan: Plan, s: State, v: Scene, data: seq<Byte>, reply: Reply)
    requires View(env, plan, s, v) && v.c.todo == [WS.Write(data), WS.Send(reply)]
    requires SharedMemory.Fits(|v.c.memory|, |data|)
    ensures Leads(env, plan, s, WorkerAct(0),
                  v.(c := v.c.(todo := [WS.Send(reply)], memory := SharedMemory.Written(v.c.memory, data))))
  {
    hide SharedMemory.Written;
    assert [WS.Write(data), WS.Send(reply)][1..] == [WS.Send(reply)];
  }

  lemma WorkerSends(env: WS.Env, plan: Plan, s: State, v: Scene, reply: Reply)
    requires View(env, plan, s, v) && v.c.todo == [WS.Send(reply)]
    ensures Leads(env, plan, s, WorkerAct(0), v.(c := v.c.(todo := [], out := v.c.out + [reply])))
  {
  }

  lemma Receives(env: WS.Env, plan: Plan, s: State, t: Rack, v: Scene, outcome: Outcome)
    requires View(env, plan, s, v) && Stands(v, t, AwaitAnswer(0, 0)) && NobodyParked(v) && v.c.taken < |v.c.out|
    requires Judge(Caller(plan, t), Request(plan, t), v.c.out[v.c.taken], 1, v.c.memory) == End(outcome, false)
    ensures Leads(env, plan, s, Receive(t), HasEnded(plan, v.(c := v.c.(taken := v.c.taken + 1)), t, outcome))
  {
    hide Judge, View, Finish;
    Facts(env, plan, s, v);
    Position(env, plan, s, v, t);
    assert VerdictFor(env, s, t) == End(outcome, false);
    var c := v.c.(taken := v.c.taken + 1);
    ChannelSet(env, plan, s, v, c);
    Finishes(env, plan, Popped(env, s, 0), v.(c := c), t, outcome);
  }

  // ---- runs -------------------------------------------------------------------------------

  function Last(run: Run): State
    requires run.states != []
  {
    run.states[|run.states| - 1]
  }

  /** A run with one process in which nobody gave up looking for a process and none was replaced. */
  ghost predicate Gentle(env: WS.Env, run: Run) {
    && IsRun(env, 1, run)
    && (forall i :: 0 <= i < |run.steps| ==> !run.steps[i].Abandon?)
    && (forall i :: 0 <= i < |run.states| ==> run.states[i].live == {0})
  }

  lemma Longer(env: WS.Env, run: Run, step: Step) returns (run': Run)
    requires IsRun(env, 1, run) && run.states != [] && Enabled(env, Last(run), step)
    ensures run' == Run(run.states + [Apply(env, Last(run), step)], run.steps + [step])
    ensures IsRun(env, 1, run') && run'.states != [] && Last(run') == Apply(env, Last(run), step)
  {
    hide Enabled, Apply, Initial;
    run' := Run(run.states + [Apply(env, Last(run), step)], run.steps + [step]);
    forall i {:trigger run'.steps[i]} | 0 <= i < |run'.steps|
      ensures Enabled(env, run'.states[i], run'.steps[i])
      ensures run'.states[i + 1] == Apply(env, run'.states[i], run'.steps[i])
    {
      if i < |run.steps| {
        assert run'.steps[i] == run.steps[i] && run'.states[i] == run.states[i]
            && run'.states[i + 1] == run.states[i + 1];
      }
    }
  }

  /** The next scene of a gentle run. */
  lemma Next(env: WS.Env, plan: Plan, run: Run, step: Step, v: Scene) returns (run': Run)
    requires Gentle(env, run) && run.states != [] && Leads(env, plan, Last(run), step, v) && !step.Abandon?
    ensures Gentle(env, run') && run'.states != [] && View(env, plan, Last(run'), v)
  {
    hide Enabled, Apply, IsRun;
    run' := Longer(env, run, step);
  }

  lemma NoSteps(env: WS.Env) returns (run: Run)
    ensures Gentle(env, run) && run.states != [] && Initial(1, Last(run))
  {
    run := Run([State(FirstPids(1), map[], map[], map[], false, map[], 1, 0, 0)], []);
    assert Last(run).live == {0};
  }

  lemma Begun(env: WS.Env, plan: Plan) returns (run: Run)
    requires 0 !in plan.clears
    ensures Gentle(env, run) && run.states != [] && View(env, plan, Last(run), FirstScene(env, plan))
  {
    hide View, Leads, FirstScene, IsRun;
    run := NoSteps(env);
    First(env, plan, Last(run));
    run := Next(env, plan, run, Begin(plan, 0), FirstScene(env, plan));
  }
}
