/** The worker process as the program has it: one message loop over a dictionary of session contexts
    that all processors share, whose buffers are updated in place. */
module WorkerProcess {
  import opened Wrappers
  import opened Pictures
  import opened Messages
  import opened WorkerSpec
  import HI = HeatmapImage
  import SI = SummaryImage
  import SharedMemory

  /** A dictionary value: the context object of one of the two session processors. */
  datatype Context = OfSummary(summary: SI.SIContext) | OfHeatmap(heat: HI.HIContext) {
    ghost function Objects(): set<object> {
      match this
      case OfSummary(c) => {c, c.buffer}
      case OfHeatmap(c) => {c, c.buffer}
    }

    ghost predicate Valid()
      reads Objects()
    {
      match this
      case OfSummary(c) => c.Valid()
      case OfHeatmap(c) => c.Valid()
    }

    ghost function Value(): Session
      reads Objects()
    {
      match this
      case OfSummary(c) => Summary(c.width, c.height, c.images)
      case OfHeatmap(c) => Heatmap(c.width, c.height, c.images)
    }
  }

  class Worker {
    const env: Env
    const memory: SharedMemory.SharedMemoryWrap
    var sessions: map<Option<SessionId>, Context>
    var pipe: seq<Reply>     // everything sent to the manager so far

    ghost var repr: set<object>   // the contexts and their buffers

    /** Every context is part of this worker's memory, and no two share an object. */
    ghost predicate Separate()
      reads this
    {
      && this !in repr && memory !in repr && memory.buf !in repr
      && (forall k :: k in sessions ==> sessions[k].Objects() <= repr)
      && (forall k, k' :: k in sessions && k' in sessions && k != k' ==>
            sessions[k].Objects() !! sessions[k'].Objects())
    }

    ghost predicate Valid()
      reads this, repr, memory, memory.buf
    {
      && Separate() && memory.Valid() && memory.buf.Length == env.size
      && (forall k :: k in sessions ==> sessions[k].Valid())
    }

    /** The dictionary as a value. */
    ghost function Abstract(): Sessions
      requires Separate()
      reads this, repr
    {
      map k | k in sessions :: sessions[k].Value()
    }

    constructor (env: Env, memory: SharedMemory.SharedMemoryWrap)
      requires memory.Valid() && memory.buf.Length == env.size
      ensures Valid() && Abstract() == map[] && pipe == []
      ensures this.env == env && this.memory == memory
    {
      this.env, this.memory, sessions, pipe, repr := env, memory, map[], [], {};
    }

    method Put(reply: Reply)
      requires Valid()
      modifies this`pipe
      ensures Valid() && Abstract() == old(Abstract()) && pipe == old(pipe) + [reply]
    {
      hide SI.SIContext.Valid, HI.HIContext.Valid;
      pipe := pipe + [reply];
    }

    method SendThroughMemory(m: WorkerMessage) returns (raised: Option<Error>)
      requires Valid()
      modifies this`pipe, memory.buf
      ensures Valid() && Abstract() == old(Abstract())
      ensures pipe + Raise(raised) == old(pipe) + Sends(Transmit(env, m))
      ensures memory.buf[..] == PerformAll(old(memory.buf[..]), Transmit(env, m))
    {
      hide SI.SIContext.Valid, HI.HIContext.Valid;
      var sent;
      sent, raised := TransmitMessage(env, memory, m);
      pipe := pipe + sent;
    }

    // ---- the processors' three operations -------------------------------------------------

    method Insert(key: Option<SessionId>, context: Context)
      requires Valid() && key !in sessions
      requires context.Valid() && context.Objects() !! repr + {this, memory, memory.buf}
      modifies this`sessions, this`repr
      ensures Valid() && Abstract() == old(Abstract())[key := context.Value()]
      ensures repr == old(repr) + context.Objects()
    {
      hide SI.SIContext.Valid, HI.HIContext.Valid;
      sessions := sessions[key := context];
      repr := repr + context.Objects();
    }

    /** A new context with a buffer of zeros. */
    method OpenSession(key: Option<SessionId>, command: Command, width: nat, height: nat)
      requires Valid() && key !in sessions
      modifies this`sessions, this`repr
      ensures Valid() && fresh(repr - old(repr))
      ensures Abstract() == old(Abstract())[key := if command == SummaryImage then Summary(width, height, [])
                                                   else Heatmap(width, height, [])]
    {
      hide SI.SIContext.Valid, HI.HIContext.Valid;
      var context := NewContext(command, width, height);
      Insert(key, context);
    }

    method InitSession(command: Command, m: WorkerMessage) returns (raised: Option<Error>)
      requires Valid()
      modifies this
      ensures Valid()
      ensures Became(old(Abstract()), old(pipe), old(memory.buf[..]), raised,
              WorkerSpec.InitSession(old(Abstract()), command, m))
      ensures fresh(repr - old(repr))
    {
      hide SI.SIContext.Valid, HI.HIContext.Valid;
      hide PerformAll, Sends, Transmit, Context.Value, Context.Valid;
      OneReply(WorkerSpec.InitSession(Abstract(), command, m).actions);
      if command == GrayscaleImage || !m.content.SessionShape? || m.session in sessions {
        return Some(Other);
      }
      var width, height := m.content.width, m.content.height;
      if width < 0 || height < 0 {
        return Some(Other);
      }
      OpenSession(m.session, command, width, height);
      Put(Message(WorkerMessage(Ok, m.rack, None, Nothing, m.session)));
      return None;
    }

    /** Add a picture to the buffer of one session; every other session's buffer is another object. */
    method AddPicture(key: Option<SessionId>, image: Image)
      requires Valid() && key in sessions
      modifies sessions[key].Objects()
      ensures Valid()
      ensures var session := old(Abstract())[key];
              Abstract() == old(Abstract())[key := session.(images := session.images + [image])]
    {
      hide PerformAll, Sends, Transmit;
      hide SI.SIContext.Valid, HI.HIContext.Valid;
      ghost var touched := sessions[key].Objects();
      match sessions[key]
      case OfSummary(c) => c.Accumulate(image);
      case OfHeatmap(c) => c.Accumulate(image);
      forall k | k in sessions && k != key
        ensures sessions[k].Valid() && sessions[k].Value() == old(sessions[k].Value())
      {
        assert sessions[k].Objects() !! touched;
      }
    }

    method ProcessGrayscale(m: WorkerMessage) returns (raised: Option<Error>)
      requires Valid()
      modifies this`pipe, memory.buf
      ensures Valid()
      ensures Became(old(Abstract()), old(pipe), old(memory.buf[..]), raised,
                     WorkerSpec.ProcessMessage(env, old(Abstract()), GrayscaleImage, m))
    {
      OneReply(WorkerSpec.ProcessMessage(env, Abstract(), GrayscaleImage, m).actions);
      if m.content.Nothing? || m.content == Upload(None) {
        return Some(Restarting);
      }
      if !m.content.Upload? {
        return Some(Other);
      }
      raised := SendThroughMemory(WorkerMessage(Data, m.rack, None, GrayPicture(m.content.decoded.value), None));
    }

    method ProcessSummary(m: WorkerMessage) returns (raised: Option<Error>)
      requires Valid()
      modifies this`pipe, repr
      ensures Valid()
      ensures Became(old(Abstract()), old(pipe), old(memory.buf[..]), raised,
                     WorkerSpec.ProcessMessage(env, old(Abstract()), SummaryImage, m))
    {
      hide SI.SIContext.Valid, HI.HIContext.Valid;
      OneReply(WorkerSpec.ProcessMessage(env, Abstract(), SummaryImage, m).actions);
      if m.session.None? || m.session !in sessions || !sessions[m.session].OfSummary? {
        return Some(Other);
      }
      if m.content.Nothing? || m.content == Upload(None) {
        return Some(Restarting);
      }
      if !m.content.Upload? {
        return Some(Other);
      }
      AddPicture(m.session, m.content.decoded.value);
      Put(Message(WorkerMessage(Ok, m.rack, None, Nothing, m.session)));
      return None;
    }

    method AnswerHeatmap(m: WorkerMessage) returns (raised: Option<Error>)
      requires Valid() && m.session in sessions && sessions[m.session].OfHeatmap?
      modifies this`pipe, memory.buf
      ensures Valid()
      ensures Became(old(Abstract()), old(pipe), old(memory.buf[..]), raised,
                     Effect(old(Abstract()), ShowHeatmap(env, old(Abstract())[m.session], m)))
    {
      hide SI.SIContext.Valid, HI.HIContext.Valid;
      OneReply(ShowHeatmap(env, Abstract()[m.session], m));
      var grid := sessions[m.session].heat.Snapshot();
      var heatmap := HI.GetHeatmap(grid);
      if heatmap.None? {
        return Some(Other);
      }
      raised := SendThroughMemory(WorkerMessage(Data, m.rack, None, HeatPicture(heatmap.value), m.session));
    }

    method ProcessHeatmap(m: WorkerMessage) returns (raised: Option<Error>)
      requires Valid()
      modifies this`pipe, repr, memory.buf
      ensures Valid()
      ensures Became(old(Abstract()), old(pipe), old(memory.buf[..]), raised,
                     WorkerSpec.ProcessMessage(env, old(Abstract()), HeatmapImage, m))
    {
      hide SI.SIContext.Valid, HI.HIContext.Valid;
      ghost var effect := WorkerSpec.ProcessMessage(env, Abstract(), HeatmapImage, m);
      OneReply(effect.actions);
      if m.session.None? || m.session !in sessions || !sessions[m.session].OfHeatmap? {
        return Some(Other);
      }
      if m.content.Nothing? || m.content == Upload(None) {
        return Some(Restarting);
      }
      if !m.content.Upload? {
        return Some(Other);
      }
      AddPicture(m.session, m.content.decoded.value);
      raised := AnswerHeatmap(m);
    }

    method Forget(key: Option<SessionId>)
      requires Valid()
      modifies this`sessions
      ensures Valid() && Abstract() == old(Abstract()) - {key}
    {
      hide SI.SIContext.Valid, HI.HIContext.Valid;
      sessions := sessions - {key};
    }

    /** `clear_session` of the command's processor. A summary whose picture cannot be sent is
        forgotten all the same. */
    method ClearSession(command: Command, m: WorkerMessage) returns (raised: Option<Error>)
      requires Valid()
      modifies this`pipe, this`sessions, memory.buf
      ensures Valid()
      ensures Became(old(Abstract()), old(pipe), old(memory.buf[..]), raised,
                     WorkerSpec.ClearSession(env, old(Abstract()), command, m))
    {
      hide SI.SIContext.Valid, HI.HIContext.Valid;
      OneReply(WorkerSpec.ClearSession(env, Abstract(), command, m).actions);
      match command
      case SummaryImage =>
        if m.session !in sessions || !sessions[m.session].OfSummary? {
          return Some(Other);
        }
        var context := sessions[m.session].summary;
        var sums := context.Snapshot();
        Forget(m.session);
        raised := SendThroughMemory(WorkerMessage(Data, m.rack, None, SummaryPicture(sums), m.session));
      case HeatmapImage =>
        Forget(m.session);
        Put(Message(WorkerMessage(Ok, m.rack, None, Nothing, m.session)));
        return None;
      case GrayscaleImage =>
        return None;
    }

    /** One turn of the message loop: find the processor, dispatch on the message type, and put
        whatever was raised into the pipe. */
    method Turn(m: WorkerMessage)
      requires Valid()
      modifies this, repr, memory.buf
      ensures Valid() && fresh(repr - old(repr))
      ensures Became(old(Abstract()), old(pipe), old(memory.buf[..]), None, Handle(env, old(Abstract()), m))
    {
      OneReply(Handle(env, Abstract(), m).actions);
      var raised := Some(Other);
      if m.command.Some? {
        var command := m.command.value;
        if m.kind == Clear {
          raised := ClearSession(command, m);
        } else if m.kind == MessageType.InitSession {
          raised := InitSession(command, m);
        } else if m.kind == Data {
          if command == SummaryImage {
            raised := ProcessSummary(m);
          } else if command == HeatmapImage {
            raised := ProcessHeatmap(m);
          } else {
            raised := ProcessGrayscale(m);
          }
        }
      }
      if raised.Some? {
        Put(Raised(raised.value));
      }
    }

    /** The message loop over all messages it ever receives: the dictionary of in-place buffers is
        at every moment the replay of the messages so far, and the pipe holds their answers. */
    method Run(inbox: seq<WorkerMessage>)
      requires Valid() && Abstract() == map[] && pipe == []
      modifies this, repr, memory.buf
      ensures Valid() && Abstract() == Replay(env, inbox) && pipe == Answers(env, inbox)
    {
      var handled := 0;
      assert inbox[..0] == [];
      while handled < |inbox|
        invariant handled <= |inbox| && Valid() && fresh(repr - old(repr))
        invariant Abstract() == Replay(env, inbox[..handled]) && pipe == Answers(env, inbox[..handled])
      {
        assert inbox[..handled + 1][..handled] == inbox[..handled];
        Turn(inbox[handled]);
        handled := handled + 1;
      }
      assert inbox[..handled] == inbox;
    }

    /** State, pipe and memory after an operation that has the given effect and may have raised. */
    ghost predicate Became(st: Sessions, sent: seq<Reply>, bytes: seq<Byte>, raised: Option<Error>, effect: Effect)
      requires Separate()
      reads this, repr, memory.buf
    {
      && Abstract() == effect.sessions
      && pipe + Raise(raised) == sent + Sends(effect.actions)
      && memory.buf[..] == PerformAll(bytes, effect.actions)
    }
  }

  method NewContext(command: Command, width: nat, height: nat) returns (context: Context)
    ensures context.Valid() && fresh(context.Objects())
    ensures context.Value() == if command == SummaryImage then Summary(width, height, [])
            else Heatmap(width, height, [])
  {
    if command == SummaryImage {
      var c := new SI.SIContext(width, height);
      context := OfSummary(c);
    } else {
      var c := new HI.HIContext(width, height);
      context := OfHeatmap(c);
    }
  }

  /** Hand a message over through the transfer memory. The chunk length and the chunk reader are
      the program's own, so only the single shot ever succeeds. */
  method TransmitMessage(env: Env, memory: SharedMemory.SharedMemoryWrap, m: WorkerMessage)
    returns (sent: seq<Reply>, raised: Option<Error>)
    requires memory.Valid() && memory.buf.Length == env.size
    modifies memory.buf
    ensures sent + Raise(raised) == Sends(Transmit(env, m))
    ensures memory.buf[..] == PerformAll(old(memory.buf[..]), Transmit(env, m))
  {
    ghost var acts := Transmit(env, m);
    SendsOf(acts[..|acts| - 1], acts[|acts| - 1]);
    assert acts == acts[..|acts| - 1] + [acts[|acts| - 1]];
    PerformThenSend(memory.buf[..], acts);
    var data := env.dumps(m);
    var outcome, signals, chunks := SharedMemory.SendToSharedMemory(memory, data, memory.buf.Length, false, []);
    if outcome == SharedMemory.Sent {
      sent, raised := [Message(WorkerMessage(CheckSharedMemory, m.rack, None, Length(|data|), m.session))], None;
    } else {
      sent, raised := [], Some(Other);
    }
  }

  lemma OneReply(acts: seq<Action>)
    ensures |acts| == 1 && acts[0].Send? ==>
              Sends(acts) == [acts[0].reply] && forall bytes :: PerformAll(bytes, acts) == bytes
  {
    if |acts| == 1 && acts[0].Send? {
      SendsOf([], acts[0]);
      assert [] + acts == acts && acts == [] + [acts[0]];
      forall bytes ensures PerformAll(bytes, acts) == bytes {
        PerformThenSend(bytes, acts);
      }
    }
  }

  /** What the message loop puts into the pipe when a processor raises. */
  function Raise(raised: Option<Error>): seq<Reply> {
    if raised.None? then [] else [Raised(raised.value)]
  }
}
