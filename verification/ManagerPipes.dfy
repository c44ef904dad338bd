/** What is in the pipes and the transfer memories, and why a result belongs to its request. */
module ManagerPipes {
  import opened Wrappers
  import opened Pictures
  import opened Messages
  import opened SessionTable
  import opened ManagerMachine
  import SharedMemory
  import WS = WorkerSpec

  // ---- one channel ------------------------------------------------------------------------

  /** What the worker does for the message it took last. */
  function LastActs(env: WS.Env, c: Channel): seq<WS.Action>
    requires 0 < c.handled <= |c.sent|
  {
    WS.Acts(env, c.sent[..c.handled - 1], c.sent[c.handled - 1])
  }

  /** The data, if any, that a reaction put into the memory before announcing it. */
  function Payload(acts: seq<WS.Action>): Option<seq<Byte>> {
    if |acts| == 2 && acts[0].Write? then Some(acts[0].data) else None
  }

  /** The data announced by a reaction is in the memory once its first k actions are done. */
  predicate DataIn(acts: seq<WS.Action>, k: nat, memory: seq<Byte>) {
    Payload(acts).Some? && k > 0 ==>
      memory != [] && SharedMemory.ReadBytes(memory, |Payload(acts).value|) == Payload(acts).value
  }

  /** The pipe is first in, first out: what came out of the worker, with what it is about to send,
      are the answers to the messages it took, in order. Data announced is in the memory until the
      worker takes another message. */
  ghost predicate ChannelOk(env: WS.Env, c: Channel) {
    && c.handled <= |c.sent| && c.taken <= |c.out| && |c.memory| == env.size
    && (forall i, j :: 0 <= i < j < |c.sent| ==> c.sent[i].rack != c.sent[j].rack)
    && c.out + WS.Sends(c.todo) == WS.Answers(env, c.sent[..c.handled])
    && (c.handled == 0 ==> c.todo == [])
    && (c.handled > 0 ==>
          var acts := LastActs(env, c);
          && |c.todo| <= |acts| && c.todo == acts[|acts| - |c.todo|..]
          && DataIn(acts, |acts| - |c.todo|, c.memory))
  }

  lemma ReactionShape(env: WS.Env, before: seq<WorkerMessage>, m: WorkerMessage)
    ensures var acts := WS.Acts(env, before, m);
            && |acts| <= 2 && (acts != [] ==> acts[|acts| - 1].Send? && (|acts| == 2 ==> !acts[0].Send?))
            && WS.Sends(acts) == (if acts == [] then [] else [acts[|acts| - 1].reply])
            && (acts != [] && acts[|acts| - 1].reply.Message? ==> acts[|acts| - 1].reply.message.rack == m.rack)
            && (Payload(acts).Some? ==>
                  var data := Payload(acts).value;
                  && SharedMemory.Fits(env.size, |data|) && acts[1].reply.Message?
                  && acts[1].reply.message.content == Length(|data|))
            && (acts != [] && acts[|acts| - 1].reply.Message?
                  && acts[|acts| - 1].reply.message.kind.CheckSharedMemory? ==>
                  Payload(acts).Some?)
            && (acts != [] && acts[|acts| - 1].reply.Message? ==>
                  var kind := acts[|acts| - 1].reply.message.kind;
                  kind == CheckSharedMemory || (kind == Ok && |acts| == 1))
  {
    WS.ActionsShape(env, WS.Replay(env, before), m);
    WS.OneAnswer(env, WS.Replay(env, before), m);
  }

  lemma SendsTail(acts: seq<WS.Action>, k: nat)
    requires k < |acts|
    ensures WS.Sends(acts[k..]) == (if acts[k].Send? then [acts[k].reply] else []) + WS.Sends(acts[k + 1..])
  {
    assert acts[k..][1..] == acts[k + 1..];
  }

  lemma TakenOk(env: WS.Env, c: Channel)
    requires ChannelOk(env, c) && c.todo == [] && c.handled < |c.sent|
    ensures ChannelOk(env, Taken(env, c))
  {
    hide WS.Acts;
    var trace := c.sent[..c.handled + 1];
    assert trace[..|trace| - 1] == c.sent[..c.handled];
    var acts := LastActs(env, Taken(env, c));
    assert acts[|acts| - |acts|..] == acts;
  }

  lemma MemoryAfter(acts: seq<WS.Action>, k: nat, memory: seq<Byte>)
    requires k < |acts| <= 2 && acts[|acts| - 1].Send? && DataIn(acts, k, memory)
    requires Payload(acts).Some? ==> SharedMemory.Fits(|memory|, |Payload(acts).value|)
    ensures var after := WS.Perform(memory, acts[k]);
            |after| == |memory| && DataIn(acts, k + 1, after)
  {
    if acts[k].Write? && SharedMemory.Fits(|memory|, |acts[k].data|) {
      SharedMemory.ReadBack(memory, acts[k].data);
    }
  }

  lemma ActedOk(env: WS.Env, c: Channel)
    requires ChannelOk(env, c) && c.todo != []
    ensures ChannelOk(env, Acted(c))
  {
    hide WS.Acts, WS.Answers, WS.Perform, WS.Sends, DataIn;
    var acts := LastActs(env, c);
    var k := |acts| - |c.todo|;
    ReactionShape(env, c.sent[..c.handled - 1], c.sent[c.handled - 1]);
    assert LastActs(env, Acted(c)) == acts;
    hide LastActs;
    SendsTail(acts, k);
    assert c.todo[1..] == acts[k + 1..] && acts[k] == c.todo[0];
    MemoryAfter(acts, k, c.memory);
    hide Payload;
  }

  lemma SentOk(env: WS.Env, c: Channel, m: WorkerMessage)
    requires ChannelOk(env, c) && forall i :: 0 <= i < |c.sent| ==> c.sent[i].rack != m.rack
    ensures ChannelOk(env, c.(sent := c.sent + [m], taken := |c.out|))
  {
    hide WS.Acts, WS.Answers, WS.Sends, DataIn;
    assert (c.sent + [m])[..c.handled] == c.sent[..c.handled];
    if c.handled > 0 {
      assert (c.sent + [m])[..c.handled - 1] == c.sent[..c.handled - 1];
    }
  }

  /** An answer carries the rack of one of the messages answered. */
  lemma {:induction false} RackOfAnswer(env: WS.Env, trace: seq<WorkerMessage>, k: nat)
    requires k < |WS.Answers(env, trace)| && WS.Answers(env, trace)[k].Message?
    ensures exists i :: 0 <= i < |trace| && trace[i].rack == WS.Answers(env, trace)[k].message.rack
  {
    hide WS.Acts;
    if trace != [] {
      var before, m := trace[..|trace| - 1], trace[|trace| - 1];
      if k < |WS.Answers(env, before)| {
        RackOfAnswer(env, before, k);
        var i :| 0 <= i < |before| && before[i].rack == WS.Answers(env, before)[k].message.rack;
        assert trace[i] == before[i];
      } else {
        ReactionShape(env, before, m);
      }
    }
  }

  lemma OwnIsLast(env: WS.Env, c: Channel, t: Rack)
    requires ChannelOk(env, c) && c.taken < |c.out| && c.out[c.taken].Message? && c.out[c.taken].message.rack == t
    requires c.sent != [] && c.sent[|c.sent| - 1].rack == t
    ensures c.handled == |c.sent|
  {
    var trace := c.sent[..c.handled];
    assert WS.Answers(env, trace)[c.taken] == c.out[c.taken];
    RackOfAnswer(env, trace, c.taken);
    var i :| 0 <= i < |trace| && trace[i].rack == t;
    assert c.sent[i].rack == c.sent[|c.sent| - 1].rack;
  }

  /** If the next object in the pipe carries the rack of the last message sent, the worker has taken
      every message, has nothing left to do, and the object ends its reaction to that message. */
  lemma OwnReaction(env: WS.Env, c: Channel, t: Rack)
    requires ChannelOk(env, c) && c.taken < |c.out| && c.out[c.taken].Message? && c.out[c.taken].message.rack == t
    requires c.sent != [] && c.sent[|c.sent| - 1].rack == t
    ensures c.handled == |c.sent| && c.todo == []
    ensures LastActs(env, c) != [] && LastActs(env, c)[|LastActs(env, c)| - 1] == WS.Send(c.out[c.taken])
  {
    hide WS.Acts, DataIn, Payload, WS.Answers, WS.Sends;
    OwnIsLast(env, c, t);
    AnswersLast(env, c.sent, c.handled);
    var before, acts := c.sent[..c.handled - 1], LastActs(env, c);
    ReactionShape(env, before, c.sent[c.handled - 1]);
    NotEarlier(env, c, t);
    if c.todo != [] {
      SendsSuffix(acts, |acts| - |c.todo|);
    }
    assert (c.out + WS.Sends(c.todo))[c.taken] == c.out[c.taken];
    assert acts != [] ==> WS.Sends(acts) == [acts[|acts| - 1].reply];
  }

  lemma AnswersLast(env: WS.Env, sent: seq<WorkerMessage>, k: nat)
    requires 0 < k <= |sent|
    ensures WS.Answers(env, sent[..k])
            == WS.Answers(env, sent[..k - 1]) + WS.Sends(WS.Acts(env, sent[..k - 1], sent[k - 1]))
  {
    hide WS.Acts, WS.Sends;
    assert sent[..k][..k - 1] == sent[..k - 1] && sent[..k][k - 1] == sent[k - 1];
  }

  /** Answers to earlier messages carry other racks. */
  lemma NotEarlier(env: WS.Env, c: Channel, t: Rack)
    requires ChannelOk(env, c) && c.taken < |c.out| && c.out[c.taken].Message? && c.out[c.taken].message.rack == t
    requires c.sent != [] && c.handled == |c.sent| && c.sent[|c.sent| - 1].rack == t
    ensures c.taken >= |WS.Answers(env, c.sent[..c.handled - 1])|
  {
    hide WS.Acts, WS.Answers, WS.Sends, DataIn;
    var before := c.sent[..c.handled - 1];
    assert c.sent[..c.handled] == c.sent;
    AnswersLast(env, c.sent, c.handled);
    if c.taken < |WS.Answers(env, before)| {
      assert WS.Answers(env, c.sent[..c.handled])[c.taken] == (c.out + WS.Sends(c.todo))[c.taken] == c.out[c.taken];
      RackOfAnswer(env, before, c.taken);
    }
  }

  lemma {:induction false} SendsSuffix(acts: seq<WS.Action>, k: nat)
    requires k < |acts| && acts[|acts| - 1].Send?
    ensures WS.Sends(acts[k..]) != []
    decreases |acts| - k
  {
    SendsTail(acts, k);
    if k + 1 < |acts| {
      SendsSuffix(acts, k + 1);
    }
  }

  /** The heart of own-answer delivery: and what was announced is exactly what the worker put into the
      memory for that message. */
  lemma OwnAnswer(env: WS.Env, c: Channel, t: Rack)
    requires ChannelOk(env, c) && c.taken < |c.out| && c.out[c.taken].Message? && c.out[c.taken].message.rack == t
    requires c.sent != [] && c.sent[|c.sent| - 1].rack == t
    ensures c.handled == |c.sent| && c.todo == []
    ensures var acts := LastActs(env, c);
            && acts != [] && acts[|acts| - 1] == WS.Send(c.out[c.taken])
            && (c.out[c.taken].message.kind.Ok? ==> |acts| == 1)
            && (c.out[c.taken].message.kind.CheckSharedMemory? ==>
                  && c.memory != [] && Payload(acts).Some?
                  && c.out[c.taken].message.content == Length(|Payload(acts).value|)
                  && SharedMemory.ReadBytes(c.memory, |Payload(acts).value|) == Payload(acts).value)
  {
    hide WS.Acts, WS.Answers, WS.Sends, SharedMemory.ReadBytes;
    OwnReaction(env, c, t);
    ReactionShape(env, c.sent[..c.handled - 1], c.sent[c.handled - 1]);
    assert DataIn(LastActs(env, c), |LastActs(env, c)|, c.memory);
  }

  // ---- all channels and tasks -------------------------------------------------------------

  /** Where a task can be once its message went to process p. */
  predicate Sender(pc: Pc, p: Pid) {
    (pc.AwaitAnswer? && pc.pid == p) || pc.Done?
  }

  /** The reaction that a returned value stands for: the data handed over, or the plain ok. */
  predicate Delivers(acts: seq<WS.Action>, bytes: Option<seq<Byte>>) {
    match bytes
    case Some(_) => Payload(acts) == bytes
    case None => |acts| == 1 && acts[0].Send? && acts[0].reply.Message? && acts[0].reply.message.kind.Ok?
  }

  /** The i-th message of a channel was m, and the worker's reaction to it delivers the value. */
  predicate ServedAt(env: WS.Env, c: Channel, i: nat, m: WorkerMessage, b: Option<seq<Byte>>) {
    i < c.handled <= |c.sent| && c.sent[i] == m && Delivers(WS.Acts(env, c.sent[..i], m), b)
  }

  ghost predicate Served(env: WS.Env, s: State, m: WorkerMessage, b: Option<seq<Byte>>) {
    exists p, i :: ServedAt(env, ChannelOf(env, s, p), i, m, b)
  }

  /** A call that returned a result, or that returns only once the worker has said ok. (A clear may
      return nothing because there was nothing to clear.) */
  predicate Claims(task: Task) {
    task.pc.Done? && task.pc.outcome.Returned?
        && (task.pc.outcome.bytes.Some? || task.call.Init? || task.call.SendNoResult?)
  }

  ghost predicate AllChannelsOk(env: WS.Env, s: State) {
    forall p :: ChannelOk(env, ChannelOf(env, s, p))
  }

  /** Every message in a channel was sent there by its own task. */
  ghost predicate SentByTasks(env: WS.Env, s: State) {
    forall p, i :: 0 <= i < |ChannelOf(env, s, p).sent| ==>
      var m := ChannelOf(env, s, p).sent[i];
      m.rack in s.tasks && s.tasks[m.rack].msg == m && Sender(s.tasks[m.rack].pc, p)
  }

  /** A task awaits the answer to the last message of the channel. */
  ghost predicate AwaitsLast(env: WS.Env, s: State) {
    forall u :: u in s.tasks && s.tasks[u].pc.AwaitAnswer? ==>
      var sent := ChannelOf(env, s, s.tasks[u].pc.pid).sent;
      sent != [] && sent[|sent| - 1] == s.tasks[u].msg
  }

  ghost predicate ResultsServed(env: WS.Env, s: State) {
    forall u :: u in s.tasks && Claims(s.tasks[u]) ==> Served(env, s, s.tasks[u].msg, s.tasks[u].pc.outcome.bytes)
  }

  ghost predicate PipesOk(env: WS.Env, s: State) {
    AllChannelsOk(env, s) && SentByTasks(env, s) && AwaitsLast(env, s) && ResultsServed(env, s)
  }

  lemma ServedMoves(env: WS.Env, c: Channel, c': Channel, i: nat, m: WorkerMessage, b: Option<seq<Byte>>)
    requires ServedAt(env, c, i, m, b) && c.handled <= c'.handled <= |c'.sent| && c.sent <= c'.sent
    ensures ServedAt(env, c', i, m, b)
  {
    assert c'.sent[..i] == c.sent[..i];
  }

  lemma ServedStays(env: WS.Env, s: State, p: Pid, c: Channel, s': State, m: WorkerMessage, b: Option<seq<Byte>>)
    requires Served(env, s, m, b) && s'.channels == s.channels[p := c]
    requires ChannelOf(env, s, p).handled <= c.handled <= |c.sent| && ChannelOf(env, s, p).sent <= c.sent
    ensures Served(env, s', m, b)
  {
    hide ServedAt;
    var q, i :| ServedAt(env, ChannelOf(env, s, q), i, m, b);
    if q == p {
      ServedMoves(env, ChannelOf(env, s, p), c, i, m, b);
      assert ServedAt(env, ChannelOf(env, s', p), i, m, b);
    } else {
      assert ServedAt(env, ChannelOf(env, s', q), i, m, b);
    }
  }

  lemma ChannelsStay(env: WS.Env, s: State, p: Pid, c: Channel, s': State)
    requires AllChannelsOk(env, s) && ChannelOk(env, c) && s'.channels == s.channels[p := c]
    ensures AllChannelsOk(env, s')
  {
    hide ChannelOk;
    forall q ensures ChannelOk(env, ChannelOf(env, s', q)) {
      assert q != p ==> ChannelOf(env, s', q) == ChannelOf(env, s, q);
    }
  }

  lemma SentStays(env: WS.Env, s: State, s': State)
    requires SentByTasks(env, s) && AwaitsLast(env, s) && s'.tasks == s.tasks
    requires forall q :: ChannelOf(env, s', q).sent == ChannelOf(env, s, q).sent
    ensures SentByTasks(env, s') && AwaitsLast(env, s')
  {
    hide ChannelOf;
    forall q, i | 0 <= i < |ChannelOf(env, s', q).sent|
      ensures var m := ChannelOf(env, s', q).sent[i];
              m.rack in s'.tasks && s'.tasks[m.rack].msg == m && Sender(s'.tasks[m.rack].pc, q)
    {
      assert ChannelOf(env, s, q).sent[i] == ChannelOf(env, s', q).sent[i];
    }
  }

  lemma ResultsStay(env: WS.Env, s: State, p: Pid, c: Channel, s': State)
    requires ResultsServed(env, s) && s'.channels == s.channels[p := c]
    requires ChannelOf(env, s, p).handled <= c.handled <= |c.sent| && ChannelOf(env, s, p).sent <= c.sent
    requires forall u :: u in s'.tasks && Claims(s'.tasks[u]) ==> u in s.tasks && s.tasks[u] == s'.tasks[u]
    ensures ResultsServed(env, s')
  {
    hide Served, ChannelOf;
    forall u | u in s'.tasks && Claims(s'.tasks[u])
      ensures Served(env, s', s'.tasks[u].msg, s'.tasks[u].pc.outcome.bytes)
    {
      ServedStays(env, s, p, c, s', s'.tasks[u].msg, s'.tasks[u].pc.outcome.bytes);
    }
  }

  lemma HandledWithin(env: WS.Env, c: Channel)
    requires ChannelOk(env, c)
    ensures c.handled <= |c.sent|
  {
  }

  /** One channel goes on, keeping what was sent; no task moves. */
  lemma ChannelMoves(env: WS.Env, s: State, p: Pid, c: Channel, s': State)
    requires PipesOk(env, s) && ChannelOk(env, c)
    requires c.sent == ChannelOf(env, s, p).sent && c.handled >= ChannelOf(env, s, p).handled
    requires s'.channels == s.channels[p := c] && s'.tasks == s.tasks
    ensures PipesOk(env, s')
  {
    hide AllChannelsOk, SentByTasks, AwaitsLast, ResultsServed, ChannelOk, Claims;
    HandledWithin(env, c);
    ChannelsStay(env, s, p, c, s');
    SentStays(env, s, s');
    ResultsStay(env, s, p, c, s');
  }

  /** Tasks move without sending: none begins to await an answer, none takes back that it ended, and
      results are those of served messages. */
  ghost predicate Advances(env: WS.Env, s: State, s': State) {
    && (forall u :: u in s.tasks ==>
          && u in s'.tasks && s'.tasks[u].msg == s.tasks[u].msg
          && (s.tasks[u].pc.Done? ==> s'.tasks[u].pc == s.tasks[u].pc)
          && (s.tasks[u].pc.AwaitAnswer? ==>
                s'.tasks[u].pc.Done? || (s'.tasks[u].pc.AwaitAnswer? && s'.tasks[u].pc.pid == s.tasks[u].pc.pid)))
    && (forall u :: u in s'.tasks && s'.tasks[u].pc.AwaitAnswer? ==> u in s.tasks && s.tasks[u].pc.AwaitAnswer?)
    && (forall u :: u in s'.tasks && Claims(s'.tasks[u]) ==>
          Served(env, s, s'.tasks[u].msg, s'.tasks[u].pc.outcome.bytes))
  }

  lemma SentAdvances(env: WS.Env, s: State, s': State)
    requires SentByTasks(env, s) && AwaitsLast(env, s) && Advances(env, s, s')
    requires forall q :: ChannelOf(env, s', q) == ChannelOf(env, s, q)
    ensures SentByTasks(env, s') && AwaitsLast(env, s')
  {
    hide ChannelOf, Claims, Served;
    forall q, i | 0 <= i < |ChannelOf(env, s', q).sent|
      ensures var m := ChannelOf(env, s', q).sent[i];
              m.rack in s'.tasks && s'.tasks[m.rack].msg == m && Sender(s'.tasks[m.rack].pc, q)
    {
      assert Sender(s.tasks[ChannelOf(env, s, q).sent[i].rack].pc, q);
    }
  }

  lemma ServedSame(env: WS.Env, s: State, s': State, m: WorkerMessage, b: Option<seq<Byte>>)
    requires Served(env, s, m, b) && forall q :: ChannelOf(env, s', q) == ChannelOf(env, s, q)
    ensures Served(env, s', m, b)
  {
    hide ServedAt, ChannelOf;
    var q, i :| ServedAt(env, ChannelOf(env, s, q), i, m, b);
    assert ServedAt(env, ChannelOf(env, s', q), i, m, b);
  }

  lemma ResultsAdvance(env: WS.Env, s: State, s': State)
    requires Advances(env, s, s') && forall q :: ChannelOf(env, s', q) == ChannelOf(env, s, q)
    ensures ResultsServed(env, s')
  {
    hide Served, ChannelOf;
    forall u | u in s'.tasks && Claims(s'.tasks[u])
      ensures Served(env, s', s'.tasks[u].msg, s'.tasks[u].pc.outcome.bytes)
    {
      ServedSame(env, s, s', s'.tasks[u].msg, s'.tasks[u].pc.outcome.bytes);
    }
  }

  lemma SameChannelsOk(env: WS.Env, s: State, s': State)
    requires AllChannelsOk(env, s) && forall q :: ChannelOf(env, s', q) == ChannelOf(env, s, q)
    ensures AllChannelsOk(env, s')
  {
    hide ChannelOk, ChannelOf;
  }

  lemma TasksAdvance(env: WS.Env, s: State, s': State)
    requires PipesOk(env, s) && Advances(env, s, s') && s'.channels == s.channels
    ensures PipesOk(env, s')
  {
    assert forall q :: ChannelOf(env, s', q) == ChannelOf(env, s, q);
    hide AllChannelsOk, SentByTasks, AwaitsLast, ResultsServed, Advances;
    SameChannelsOk(env, s, s');
    SentAdvances(env, s, s');
    ResultsAdvance(env, s, s');
  }

  /** Task t sends its message to process p. */
  ghost predicate Posts(env: WS.Env, s: State, t: Rack, p: Pid, s': State) {
    var c := ChannelOf(env, s, p);
    && t in s'.tasks && s'.tasks[t].pc == AwaitAnswer(p, 0) && s'.tasks[t].msg.rack == t
    && s'.channels == s.channels[p := c.(sent := c.sent + [s'.tasks[t].msg], taken := |c.out|)]
  }

  ghost predicate OthersStay(s: State, t: Rack, s': State) {
    forall u :: u != t ==> (u in s'.tasks <==> u in s.tasks) && (u in s.tasks ==> s'.tasks[u] == s.tasks[u])
  }

  /** Task t has not sent anything and has no result. */
  predicate Unsent(s: State, t: Rack) {
    t in s.tasks ==> !s.tasks[t].pc.AwaitAnswer? && !s.tasks[t].pc.Done?
  }

  lemma PostedClaims(s: State, t: Rack, s': State)
    requires OthersStay(s, t, s') && t in s'.tasks && !s'.tasks[t].pc.Done?
    ensures forall u :: u in s'.tasks && Claims(s'.tasks[u]) ==> u in s.tasks && s.tasks[u] == s'.tasks[u]
  {
  }

  lemma PostKeeps(env: WS.Env, s: State, t: Rack, p: Pid, s': State)
    requires PipesOk(env, s) && Posts(env, s, t, p, s') && OthersStay(s, t, s') && Unsent(s, t)
    requires forall u :: u in s.tasks && s.tasks[u].pc.AwaitAnswer? ==> s.tasks[u].pc.pid != p
    ensures PipesOk(env, s')
  {
    hide AllChannelsOk, SentByTasks, AwaitsLast, ResultsServed, ChannelOk, Claims, OthersStay, Unsent;
    var c' := ChannelOf(env, s', p);
    PostedChannel(env, s, t, p, s');
    HandledWithin(env, c');
    ChannelsStay(env, s, p, c', s');
    PostedSent(env, s, t, p, s');
    PostedClaims(s, t, s');
    ResultsStay(env, s, p, c', s');
  }

  lemma PostedChannel(env: WS.Env, s: State, t: Rack, p: Pid, s': State)
    requires AllChannelsOk(env, s) && SentByTasks(env, s) && Posts(env, s, t, p, s') && Unsent(s, t)
    ensures ChannelOk(env, ChannelOf(env, s', p))
  {
    var c := ChannelOf(env, s, p);
    forall i | 0 <= i < |c.sent| ensures c.sent[i].rack != t {
      assert Sender(s.tasks[c.sent[i].rack].pc, p);
    }
    SentOk(env, c, s'.tasks[t].msg);
  }

  lemma PostedSent(env: WS.Env, s: State, t: Rack, p: Pid, s': State)
    requires SentByTasks(env, s) && AwaitsLast(env, s) && Posts(env, s, t, p, s') && OthersStay(s, t, s')
    requires Unsent(s, t)
    requires forall u :: u in s.tasks && s.tasks[u].pc.AwaitAnswer? ==> s.tasks[u].pc.pid != p
    ensures SentByTasks(env, s') && AwaitsLast(env, s')
  {
    forall q, i | 0 <= i < |ChannelOf(env, s', q).sent|
      ensures var m := ChannelOf(env, s', q).sent[i];
              m.rack in s'.tasks && s'.tasks[m.rack].msg == m && Sender(s'.tasks[m.rack].pc, q)
    {
      var sent := ChannelOf(env, s, q).sent;
      if i < |sent| {
        assert ChannelOf(env, s', q).sent[i] == sent[i];
        assert Sender(s.tasks[sent[i].rack].pc, q);
      }
    }
  }
}
