/** The loop in which a request waits for its answer: at most five objects are looked at, and each
    wait for an object survives at most nineteen false alarms in a row. */
module AnswerLoop {
  import opened Wrappers
  import opened Messages
  import opened Pictures
  import ManagerMachine

  const MAX_MESSAGES: nat := 5
  const MAX_FALSE_ALARMS: nat := 20

  /** What can come out of the pipe: what a worker sends, something that is neither a message nor an
      exception, or bytes that cannot be received, which ends as an OSError. */
  datatype Object = Whole(reply: Reply) | Junk | Unreadable

  datatype Ending =
    | Accepted(answer: WorkerMessage)
    | FromWorker(error: Error)  // the exception received
    | NotAMessage               // Exception
    | PipeBroke                 // OSError of the receive
    | TooManyForeign            // OSError
    | TooManyFalseAlarms        // Exception
    | Expired                   // PipeMessageReceiveTimeout

  /** A message that answers another request. */
  predicate Foreign(msg: WorkerMessage, o: Object) {
    o.Whole? && o.reply.Message? && (o.reply.message.session != msg.session || o.reply.message.rack != msg.rack)
  }

  /** How the loop ends at an object that it does not skip. */
  function EndingAt(msg: WorkerMessage, o: Object): Ending {
    match o
    case Junk => NotAMessage
    case Unreadable => PipeBroke
    case Whole(Raised(error)) => FromWorker(error)
    case Whole(Message(m)) => if Foreign(msg, o) then TooManyForeign else Accepted(m)
  }

  /** `wakes[k]` is what has arrived when the k-th wait of the loop is woken: nothing, if it was a
      false alarm. A wait beyond the last wake expires. */
  type Wakes = seq<seq<Object>>

  function Flatten(wakes: Wakes): seq<Object> {
    if wakes == [] then [] else Flatten(wakes[..|wakes| - 1]) + wakes[|wakes| - 1]
  }

  /** All objects that have arrived by the w-th wake. */
  function Arrived(pipe: seq<Object>, wakes: Wakes, w: nat): seq<Object>
    requires w <= |wakes|
  {
    pipe + Flatten(wakes[..w])
  }

  /** Twenty false alarms in a row among the first w wakes. */
  predicate GapBefore(wakes: Wakes, w: nat)
    requires w <= |wakes|
  {
    exists i :: 0 <= i <= w - MAX_FALSE_ALARMS && AllFalse(wakes, i)
  }

  predicate AllFalse(wakes: Wakes, i: nat)
    requires i + MAX_FALSE_ALARMS <= |wakes|
  {
    forall j :: i <= j < i + MAX_FALSE_ALARMS ==> wakes[j] == []
  }

  /** The k-th object is where the loop ends: everything before it is foreign, at most four objects
      are before it, and it is not foreign itself or it is the fifth. */
  predicate Decisive(msg: WorkerMessage, objects: seq<Object>, k: nat) {
    && k < |objects| && k < MAX_MESSAGES
    && (forall j :: 0 <= j < k ==> Foreign(msg, objects[j]))
    && (Foreign(msg, objects[k]) ==> k == MAX_MESSAGES - 1)
  }

  /** The loop gets to see its decisive object, by the w-th wake. */
  predicate Decides(msg: WorkerMessage, pipe: seq<Object>, wakes: Wakes, w: nat, k: nat) {
    w <= |wakes| && !GapBefore(wakes, w) && Decisive(msg, Arrived(pipe, wakes, w), k)
  }

  lemma {:induction false} ArrivedGrows(pipe: seq<Object>, wakes: Wakes, v: nat, w: nat)
    requires v <= w <= |wakes|
    ensures Arrived(pipe, wakes, v) <= Arrived(pipe, wakes, w)
  {
    if v < w {
      ArrivedGrows(pipe, wakes, v, w - 1);
      assert wakes[..w][..w - 1] == wakes[..w - 1];
    }
  }

  lemma OneMore(pipe: seq<Object>, wakes: Wakes, w: nat)
    requires w < |wakes|
    ensures Arrived(pipe, wakes, w + 1) == Arrived(pipe, wakes, w) + wakes[w]
  {
    assert wakes[..w + 1][..w] == wakes[..w];
  }

  /** Too few objects have arrived to decide anything, and no more come in time. */
  lemma Undecided(msg: WorkerMessage, pipe: seq<Object>, wakes: Wakes, w: nat)
    requires w <= |wakes| && |Arrived(pipe, wakes, w)| < MAX_MESSAGES
    requires forall j :: 0 <= j < |Arrived(pipe, wakes, w)| ==> Foreign(msg, Arrived(pipe, wakes, w)[j])
    requires w == |wakes| || GapBefore(wakes, w)
    ensures forall v: nat, k: nat :: !Decides(msg, pipe, wakes, v, k)
  {
    forall v: nat, k: nat ensures !Decides(msg, pipe, wakes, v, k) {
      if v <= w {
        ArrivedGrows(pipe, wakes, v, w);
      }
    }
  }

  /** There is only one decisive object. */
  lemma Decided(msg: WorkerMessage, pipe: seq<Object>, wakes: Wakes, w: nat, k: nat)
    requires Decides(msg, pipe, wakes, w, k)
    ensures forall v: nat, l: nat :: Decides(msg, pipe, wakes, v, l) ==>
            l == k && Arrived(pipe, wakes, v)[l] == Arrived(pipe, wakes, w)[k]
  {
    forall v: nat, l: nat | Decides(msg, pipe, wakes, v, l)
      ensures l == k && Arrived(pipe, wakes, v)[l] == Arrived(pipe, wakes, w)[k]
    {
      if v <= w {
        ArrivedGrows(pipe, wakes, v, w);
      } else {
        ArrivedGrows(pipe, wakes, w, v);
      }
    }
  }

  /** One wait: false alarms are skipped, up to twenty of them. */
  method WaitForData(wakes: Wakes, w0: nat) returns (failure: Option<Ending>, w: nat)
    requires w0 <= |wakes| && !GapBefore(wakes, w0) && (w0 > 0 ==> wakes[w0 - 1] != [])
    ensures w0 <= w <= |wakes|
    ensures failure.None? ==>
            w0 < w && (forall j :: w0 <= j < w - 1 ==> wakes[j] == []) && wakes[w - 1] != [] && !GapBefore(wakes, w)
    ensures failure.Some? ==> forall j :: w0 <= j < w ==> wakes[j] == []
    ensures failure.Some? ==> (failure == Some(TooManyFalseAlarms) && GapBefore(wakes, w))
                              || (failure == Some(Expired) && w == |wakes| && !GapBefore(wakes, w))
  {
    var retryCount := 0;
    w := w0;
    while true
      invariant 0 <= retryCount <= MAX_FALSE_ALARMS && w == w0 + retryCount <= |wakes|
      invariant forall j :: w0 <= j < w ==> wakes[j] == []
      invariant GapBefore(wakes, w) <==> retryCount == MAX_FALSE_ALARMS
      decreases MAX_FALSE_ALARMS - retryCount
    {
      if retryCount >= MAX_FALSE_ALARMS {
        return Some(TooManyFalseAlarms), w;
      }
      if w == |wakes| {
        return Some(Expired), w;
      }
      NextGap(wakes, w0, w);
      w := w + 1;
      if wakes[w - 1] != [] {
        return None, w;
      }
      retryCount := retryCount + 1;
    }
  }

  lemma NextGap(wakes: Wakes, w0: nat, w: nat)
    requires w0 <= w < |wakes| && w < w0 + MAX_FALSE_ALARMS && !GapBefore(wakes, w)
    requires (w0 > 0 ==> wakes[w0 - 1] != []) && forall j :: w0 <= j < w ==> wakes[j] == []
    ensures GapBefore(wakes, w + 1) <==> wakes[w] == [] && w + 1 == w0 + MAX_FALSE_ALARMS
  {
    if wakes[w] == [] && w + 1 == w0 + MAX_FALSE_ALARMS {
      assert AllFalse(wakes, w0);
    }
    if GapBefore(wakes, w + 1) {
      var i :| 0 <= i <= w + 1 - MAX_FALSE_ALARMS && AllFalse(wakes, i);
      assert i == w + 1 - MAX_FALSE_ALARMS;
      assert wakes[i] == [] && wakes[w] == [];
    }
  }

  lemma {:induction false} OnlyFalseAlarms(pipe: seq<Object>, wakes: Wakes, v: nat, w: nat)
    requires v <= w <= |wakes| && forall j :: v <= j < w ==> wakes[j] == []
    ensures Arrived(pipe, wakes, w) == Arrived(pipe, wakes, v)
  {
    if v < w {
      OnlyFalseAlarms(pipe, wakes, v, w - 1);
      OneMore(pipe, wakes, w - 1);
    }
  }

  /** The loop ends at its decisive object if it gets to see one in time, and otherwise by a
      false-alarm or timeout error. */
  ghost predicate Specified(msg: WorkerMessage, pipe: seq<Object>, wakes: Wakes, ending: Ending) {
    && (forall w: nat, k: nat :: Decides(msg, pipe, wakes, w, k) ==>
          ending == EndingAt(msg, Arrived(pipe, wakes, w)[k]))
    && ((forall w: nat, k: nat :: !Decides(msg, pipe, wakes, w, k)) ==>
          ending == if GapBefore(wakes, |wakes|) then TooManyFalseAlarms else Expired)
  }

  lemma EndsHere(msg: WorkerMessage, pipe: seq<Object>, wakes: Wakes, w: nat, k: nat)
    requires Decides(msg, pipe, wakes, w, k)
    ensures Specified(msg, pipe, wakes, EndingAt(msg, Arrived(pipe, wakes, w)[k]))
  {
    Decided(msg, pipe, wakes, w, k);
    hide EndingAt;
  }

  lemma NothingComes(msg: WorkerMessage, pipe: seq<Object>, wakes: Wakes, w: nat, ending: Ending)
    requires w <= |wakes| && |Arrived(pipe, wakes, w)| < MAX_MESSAGES
    requires forall j :: 0 <= j < |Arrived(pipe, wakes, w)| ==> Foreign(msg, Arrived(pipe, wakes, w)[j])
    requires (ending == TooManyFalseAlarms && GapBefore(wakes, w))
             || (ending == Expired && w == |wakes| && !GapBefore(wakes, w))
    ensures Specified(msg, pipe, wakes, ending)
  {
    Undecided(msg, pipe, wakes, w);
  }

  /** The whole loop, for any objects in the pipe and any wakes to come. */
  method AwaitAnswer(msg: WorkerMessage, pipe: seq<Object>, wakes: Wakes) returns (ending: Ending)
    ensures Specified(msg, pipe, wakes, ending)
  {
    assert Arrived(pipe, wakes, 0) == pipe;
    hide Specified, Flatten;
    var getMessageCount := 0;
    var queue, w := pipe, 0;
    while true
      invariant 0 <= getMessageCount < MAX_MESSAGES && w <= |wakes| && !GapBefore(wakes, w)
      invariant w > 0 ==> wakes[w - 1] != []
      invariant getMessageCount <= |Arrived(pipe, wakes, w)| && queue == Arrived(pipe, wakes, w)[getMessageCount..]
      invariant forall j :: 0 <= j < getMessageCount ==> Foreign(msg, Arrived(pipe, wakes, w)[j])
      decreases MAX_MESSAGES - getMessageCount
    {
      getMessageCount := getMessageCount + 1;
      if queue == [] {
        var failure, w' := WaitForData(wakes, w);
        if failure.Some? {
          OnlyFalseAlarms(pipe, wakes, w, w');
          NothingComes(msg, pipe, wakes, w', failure.value);
          return failure.value;
        }
        OnlyFalseAlarms(pipe, wakes, w, w' - 1);
        OneMore(pipe, wakes, w' - 1);
        w, queue := w', wakes[w' - 1];
      }
      var o := queue[0];
      queue := queue[1..];
      if !Foreign(msg, o) || getMessageCount >= MAX_MESSAGES {
        assert Decides(msg, pipe, wakes, w, getMessageCount - 1);
        EndsHere(msg, pipe, wakes, w, getMessageCount - 1);
      }
      match o
      case Unreadable => return PipeBroke;
      case Junk => return NotAMessage;
      case Whole(Raised(error)) => return FromWorker(error);
      case Whole(Message(answer)) =>
        if msg.session == answer.session && msg.rack == answer.rack {
          return Accepted(answer);
        }
        if getMessageCount >= 5 {
          return TooManyForeign;
        }
    }
  }

  predicate Matches(msg: WorkerMessage, o: Object) {
    o.Whole? && o.reply.Message? && o.reply.message.session == msg.session && o.reply.message.rack == msg.rack
  }

  /** By the w-th wake the k-th object has arrived, it is the first matching message, only foreign
      messages come before it, at most four of them, and there were no twenty false alarms in a row. */
  predicate AcceptsAt(msg: WorkerMessage, pipe: seq<Object>, wakes: Wakes, w: nat, k: nat) {
    && w <= |wakes| && !GapBefore(wakes, w)
    && var objects := Arrived(pipe, wakes, w);
       && k <= 4 && k < |objects| && Matches(msg, objects[k])
       && forall j :: 0 <= j < k ==> Foreign(msg, objects[j])
  }

  /** So the loop accepts exactly when some object can be accepted, and then it is that object; in
      every other case it raises. */
  lemma ExactlyAccepts(msg: WorkerMessage, pipe: seq<Object>, wakes: Wakes, ending: Ending)
    requires Specified(msg, pipe, wakes, ending)
    ensures ending.Accepted? <==> exists w: nat, k: nat :: AcceptsAt(msg, pipe, wakes, w, k)
    ensures forall w: nat, k: nat :: AcceptsAt(msg, pipe, wakes, w, k) ==>
              ending == Accepted(Arrived(pipe, wakes, w)[k].reply.message)
  {
    forall w: nat, k: nat
      ensures AcceptsAt(msg, pipe, wakes, w, k) <==>
              Decides(msg, pipe, wakes, w, k) && EndingAt(msg, Arrived(pipe, wakes, w)[k]).Accepted?
    {
    }
    if ending.Accepted? {
      var w: nat, k: nat :| Decides(msg, pipe, wakes, w, k);
    }
  }

  /** Nineteen false alarms in a row are survived, twenty are not. */
  lemma AlarmLimit(msg: WorkerMessage, answer: WorkerMessage, n: nat, ending: Ending)
    requires answer.session == msg.session && answer.rack == msg.rack
    requires Specified(msg, [], seq(n, _ => []) + [[Whole(Message(answer))]], ending)
    ensures ending == if n < 20 then Accepted(answer) else TooManyFalseAlarms
  {
    var o := Whole(Message(answer));
    var wakes: Wakes := seq(n, _ => []) + [[o]];
    OnlyFalseAlarms([], wakes, 0, n);
    assert Arrived([], wakes, 0) == [];
    OneMore([], wakes, n);
    assert wakes[n] == [o];
    if n < 20 {
      assert Decides(msg, [], wakes, n + 1, 0);
    } else {
      assert AllFalse(wakes, 0);
      forall w: nat, k: nat ensures !Decides(msg, [], wakes, w, k) {
        if w <= n {
          OnlyFalseAlarms([], wakes, 0, w);
        }
      }
    }
  }

  /** The machine's tasks judge an object as the loop does. */
  lemma JudgesAlike(call: ManagerMachine.Call, msg: WorkerMessage, reply: Reply, count: nat, memory: seq<Byte>)
    requires 0 < count <= MAX_MESSAGES
    ensures var verdict := ManagerMachine.Judge(call, msg, reply, count, memory);
            && (verdict.Retry? <==> Foreign(msg, Whole(reply)) && count < MAX_MESSAGES)
            && (Foreign(msg, Whole(reply)) && count == MAX_MESSAGES <==>
                  verdict == ManagerMachine.End(ManagerMachine.Failed(ManagerMachine.ForeignMessages), true))
            && (verdict.End? && verdict.restart <==>
                  reply == Raised(Restarting) || (Foreign(msg, Whole(reply)) && count == MAX_MESSAGES))
            && (reply.Raised? ==>
                  verdict.End? && verdict.outcome == ManagerMachine.Failed(ManagerMachine.FromWorker)
                  && verdict.restart == reply.error.Restarting?)
  {
  }
}
