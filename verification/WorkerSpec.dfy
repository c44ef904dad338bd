/** What a worker process does with its messages, as a function of the messages alone. The
    imperative worker of module WorkerProcess is proved against it. */
module WorkerSpec {
  import opened Wrappers
  import opened Pictures
  import opened Messages
  import HeatmapImage
  import SharedMemory
  import SummaryImage

  /** What the worker is given: the size of its transfer memory and pickle's `dumps`. */
  datatype Env = Env(size: nat, dumps: WorkerMessage -> seq<Byte>)

  /** A session context: its kind, its buffer's shape and the pictures added to the buffer. */
  datatype Session =
    | Summary(width: nat, height: nat, images: seq<Image>)
    | Heatmap(width: nat, height: nat, images: seq<Image>)

  /** The dictionary shared by all processors; a request without session uses the key None. */
  type Sessions = map<Option<SessionId>, Session>

  /** What can be seen from outside: the ready flag set, data in the memory, an object in the pipe. */
  datatype Action = SetFlag | Write(data: seq<Byte>) | Send(reply: Reply)

  datatype Effect = Effect(sessions: Sessions, actions: seq<Action>)

  /** An exception reaches the message loop, which puts it into the pipe. */
  function Fail(st: Sessions, error: Error): Effect {
    Effect(st, [Send(Raised(error))])
  }

  function Answer(m: WorkerMessage, kind: MessageType, content: Content): WorkerMessage {
    WorkerMessage(kind, m.rack, None, content, m.session)
  }

  /** `send_to_shared_memory`: data and announcement, or the ValueError of the slice assignment (see
      SharedMemory.SendToSharedMemory), which the message loop reports. */
  function Transmit(env: Env, m: WorkerMessage): seq<Action> {
    var data := env.dumps(m);
    if |data| > env.size then [SetFlag, Send(Raised(Other))]
    else if !SharedMemory.Fits(env.size, |data|) then [Send(Raised(Other))]
    else [Write(data), Send(Message(WorkerMessage(CheckSharedMemory, m.rack, None, Length(|data|), m.session)))]
  }

  /** Opening an upload: Pillow's UnidentifiedImageError is an OSError; anything but bytes or None
      is a TypeError. */
  function OpenError(content: Content): Error {
    if content.Upload? || content.Nothing? then Restarting else Other
  }

  function InitSession(st: Sessions, command: Command, m: WorkerMessage): Effect {
    if command == GrayscaleImage || !m.content.SessionShape? || m.session in st
       || m.content.width < 0 || m.content.height < 0
    then Fail(st, Other)
    else
      var w, h := m.content.width, m.content.height;
      Effect(st[m.session := if command == SummaryImage then Summary(w, h, []) else Heatmap(w, h, [])],
             [Send(Message(Answer(m, Ok, Nothing)))])
  }

  /** The answer to every upload of a heatmap session; a buffer without cells has no maximum. */
  function ShowHeatmap(env: Env, session: Session, m: WorkerMessage): seq<Action> {
    match HeatmapImage.GetHeatmap(HeatmapImage.HeatGrid(session.width, session.height, session.images))
    case None => [Send(Raised(Other))]
    case Some(heatmap) => Transmit(env, Answer(m, Data, HeatPicture(heatmap)))
  }

  function ProcessMessage(env: Env, st: Sessions, command: Command, m: WorkerMessage): Effect {
    if command == GrayscaleImage then
      if !m.content.Upload? || m.content.decoded.None? then Fail(st, OpenError(m.content))
      else Effect(st, Transmit(env, WorkerMessage(Data, m.rack, None, GrayPicture(m.content.decoded.value), None)))
    else if m.session.None? || m.session !in st || st[m.session].Summary? != command.SummaryImage? then Fail(st, Other)
    else if !m.content.Upload? || m.content.decoded.None? then Fail(st, OpenError(m.content))
    else
      var session := st[m.session].(images := st[m.session].images + [m.content.decoded.value]);
      Effect(st[m.session := session],
        if session.Summary? then [Send(Message(Answer(m, Ok, Nothing)))]
        else ShowHeatmap(env, session, m))
  }

  function ClearSession(env: Env, st: Sessions, command: Command, m: WorkerMessage): Effect {
    match command
    case SummaryImage =>
      if m.session !in st || !st[m.session].Summary? then Fail(st, Other)
      else
        var session := st[m.session];
        Effect(st - {m.session},
          Transmit(env,
              Answer(m, Data, SummaryPicture(SummaryImage.Summary(session.width, session.height, session.images)))))
    case HeatmapImage => Effect(st - {m.session}, [Send(Message(Answer(m, Ok, Nothing)))])
    case GrayscaleImage => Effect(st, [])
  }

  /** One turn of the message loop. */
  function Handle(env: Env, st: Sessions, m: WorkerMessage): Effect {
    if m.command.None? then Fail(st, Other)
    else
      match m.kind
      case Clear => ClearSession(env, st, m.command.value, m)
      case InitSession => InitSession(st, m.command.value, m)
      case Data => ProcessMessage(env, st, m.command.value, m)
      case _ => Fail(st, Other)
  }

  /** The sessions after a trace of messages, and what the last message of a trace made the worker do. */
  function Replay(env: Env, trace: seq<WorkerMessage>): Sessions {
    if trace == [] then map[]
    else Handle(env, Replay(env, trace[..|trace| - 1]), trace[|trace| - 1]).sessions
  }

  function Acts(env: Env, before: seq<WorkerMessage>, m: WorkerMessage): seq<Action> {
    Handle(env, Replay(env, before), m).actions
  }

  // ---- answers ----------------------------------------------------------------------------

  function Sends(actions: seq<Action>): seq<Reply> {
    if actions == [] then []
    else (if actions[0].Send? then [actions[0].reply] else []) + Sends(actions[1..])
  }

  /** Everything the worker puts into the pipe while it handles a trace. */
  function Answers(env: Env, trace: seq<WorkerMessage>): seq<Reply> {
    if trace == [] then []
    else Answers(env, trace[..|trace| - 1]) + Sends(Acts(env, trace[..|trace| - 1], trace[|trace| - 1]))
  }

  /** The grayscale processor answers no clear request. */
  predicate Answered(m: WorkerMessage) {
    !(m.kind.Clear? && m.command == Some(GrayscaleImage))
  }

  /** An answer fits a request if it is an exception or carries the request's rack and session. */
  predicate Fitting(m: WorkerMessage, reply: Reply) {
    reply.Raised? || (reply.message.rack == m.rack && reply.message.session == m.session)
  }

  /** A grayscale answer never names a session, so a request that does cannot match it. */
  predicate LosesSession(env: Env, m: WorkerMessage) {
    && m.kind.Data? && m.command == Some(GrayscaleImage) && m.session.Some?
    && m.content.Upload? && m.content.decoded.Some?
    && SharedMemory.Fits(env.size,
          |env.dumps(WorkerMessage(Data, m.rack, None, GrayPicture(m.content.decoded.value), None))|)
  }

  /** The shape of a reaction: nothing for a grayscale clear, else possibly one memory action and
      then one reply. */
  predicate Shape(m: WorkerMessage, acts: seq<Action>, loses: bool) {
    && |acts| <= 2 && (acts == [] <==> !Answered(m))
    && (acts != [] ==>
          && acts[|acts| - 1].Send? && (|acts| == 2 ==> !acts[0].Send?)
          && (Fitting(m, acts[|acts| - 1].reply) <==> !loses))
  }

  lemma ClearShape(env: Env, st: Sessions, c: Command, m: WorkerMessage)
    requires m.kind.Clear? && m.command == Some(c)
    ensures Shape(m, ClearSession(env, st, c, m).actions, false)
  {
  }

  lemma ProcessShape(env: Env, st: Sessions, c: Command, m: WorkerMessage)
    requires m.kind.Data? && m.command == Some(c)
    ensures Shape(m, ProcessMessage(env, st, c, m).actions, LosesSession(env, m))
  {
    if c.GrayscaleImage? {
      assert Answered(m);
    } else {
      assert !LosesSession(env, m);
    }
  }

  lemma ActionsShape(env: Env, st: Sessions, m: WorkerMessage)
    ensures Shape(m, Handle(env, st, m).actions, LosesSession(env, m))
  {
    if m.command.Some? && m.kind.Clear? {
      ClearShape(env, st, m.command.value, m);
    } else if m.command.Some? && m.kind.Data? {
      ProcessShape(env, st, m.command.value, m);
    }
  }

  lemma SendsOf(acts: seq<Action>, last: Action)
    requires acts == [] || (|acts| == 1 && !acts[0].Send?)
    ensures Sends(acts) == [] && Sends(acts + [last]) == if last.Send? then [last.reply] else []
  {
    if |acts| == 1 {
      assert acts[1..] == [] && (acts + [last])[1..] == [last] && [last][1..] == [];
    } else {
      assert acts + [last] == [last] && [last][1..] == [];
    }
  }

  /** One terminal answer per request, exactly: a request is answered once, last of all its actions,
      unless it is a grayscale clear; and the answer fits the request unless it lost the session. */
  lemma OneAnswer(env: Env, st: Sessions, m: WorkerMessage)
    ensures var acts := Handle(env, st, m).actions;
            && (Answered(m) <==> |Sends(acts)| == 1) && (!Answered(m) ==> acts == [])
            && (Answered(m) ==>
                  && acts[|acts| - 1] == Send(Sends(acts)[0]) && Sends(acts[..|acts| - 1]) == []
                  && (Fitting(m, Sends(acts)[0]) <==> !LosesSession(env, m)))
  {
    hide Handle, LosesSession, Fitting, Answered;
    var acts := Handle(env, st, m).actions;
    ActionsShape(env, st, m);
    if |acts| == 2 {
      SendsOf([acts[0]], acts[1]);
      assert acts == [acts[0]] + [acts[1]] && acts[..1] == [acts[0]];
    } else if |acts| == 1 {
      SendsOf([], acts[0]);
      assert acts == [] + [acts[0]] && acts[..0] == [];
    }
  }

  // ---- which answer -----------------------------------------------------------------------

  predicate Enters(st: Sessions, m: WorkerMessage) {
    m.session.Some? && m.session in st && st[m.session].Summary? == (m.command == Some(Command.SummaryImage))
  }

  /** A session is opened, a picture is added to a summary, or a heatmap session is cleared. */
  predicate GetsOk(st: Sessions, m: WorkerMessage) {
    || (&& m.kind.InitSession? && m.command in {Some(Command.SummaryImage), Some(Command.HeatmapImage)}
          && m.session !in st
        && m.content.SessionShape? && m.content.width >= 0 && m.content.height >= 0)
    || (m.kind.Data? && m.command == Some(Command.SummaryImage) && Enters(st, m) && m.content.Upload?
          && m.content.decoded.Some?)
    || (m.kind.Clear? && m.command == Some(Command.HeatmapImage))
  }

  /** Bytes that Pillow cannot decode, or none at all, where a picture would have been processed. */
  predicate Undecodable(st: Sessions, m: WorkerMessage) {
    && m.kind.Data? && m.command.Some? && (m.command == Some(GrayscaleImage) || Enters(st, m))
    && (m.content == Nothing || m.content == Upload(None))
  }

  /** The message that carries a result, for a request that has one. */
  function Result(st: Sessions, m: WorkerMessage): Option<WorkerMessage> {
    if m.kind.Data? && m.command == Some(GrayscaleImage) && m.content.Upload? && m.content.decoded.Some?
    then Some(WorkerMessage(Data, m.rack, None, GrayPicture(m.content.decoded.value), None))
    else if m.kind.Data? && m.command == Some(Command.HeatmapImage) && Enters(st, m)
            && m.content.Upload? && m.content.decoded.Some? && st[m.session].width > 0 && st[m.session].height > 0
    then
      var session := st[m.session];
      HeatmapImage.NoMapWithoutCells(session.width, session.height, session.images + [m.content.decoded.value]);
      Some(WorkerMessage(Data, m.rack, None,
             HeatPicture(HeatmapImage.GetHeatmap(HeatmapImage.HeatGrid(session.width, session.height,
                                                   session.images + [m.content.decoded.value])).value), m.session))
    else if m.kind.Clear? && m.command == Some(Command.SummaryImage) && m.session in st && st[m.session].Summary?
    then
      var session := st[m.session];
      Some(WorkerMessage(Data, m.rack, None,
             SummaryPicture(SummaryImage.Summary(session.width, session.height, session.images)), m.session))
    else None
  }

  /** Exactly which request gets which answer: ok, an error that makes the manager restart, data and
      its announcement if the data leaves room for the flag byte, nothing, or another error. */
  predicate Reacts(env: Env, st: Sessions, m: WorkerMessage, acts: seq<Action>) {
    if GetsOk(st, m) then acts == [Send(Message(WorkerMessage(Ok, m.rack, None, Nothing, m.session)))]
    else if Undecodable(st, m) then acts == [Send(Raised(Restarting))]
    else if Result(st, m).Some? then
      var data := env.dumps(Result(st, m).value);
      if |data| + 1 <= env.size
      then acts == [Write(data), Send(Message(WorkerMessage(CheckSharedMemory, m.rack, None, Length(|data|),
                                                            Result(st, m).value.session)))]
      else acts == (if |data| > env.size then [SetFlag] else []) + [Send(Raised(Other))]
    else if m.kind.Clear? && m.command == Some(GrayscaleImage) then acts == []
    else acts == [Send(Raised(Other))]
  }

  lemma ExactReactions(env: Env, st: Sessions, m: WorkerMessage)
    ensures Reacts(env, st, m, Handle(env, st, m).actions)
  {
    if m.command.Some? {
      match m.kind
      case Clear => ClearReacts(env, st, m);
      case Data => DataReacts(env, st, m);
      case _ =>
    }
  }

  lemma ClearReacts(env: Env, st: Sessions, m: WorkerMessage)
    requires m.kind.Clear? && m.command.Some?
    ensures Reacts(env, st, m, Handle(env, st, m).actions)
  {
    hide SummaryImage.Summary;
  }

  lemma DataReacts(env: Env, st: Sessions, m: WorkerMessage)
    requires m.kind.Data? && m.command.Some?
    ensures Reacts(env, st, m, Handle(env, st, m).actions)
  {
    hide HeatmapImage.GetHeatmap, HeatmapImage.HeatGrid;
    if m.command == Some(Command.HeatmapImage) && Enters(st, m) && m.content.Upload? && m.content.decoded.Some? {
      HeatmapImage.NoMapWithoutCells(st[m.session].width, st[m.session].height,
                                     st[m.session].images + [m.content.decoded.value]);
    }
  }

  /** The requests of a trace that are answered. */
  function AnsweredOnly(trace: seq<WorkerMessage>): seq<WorkerMessage> {
    if trace == [] then []
    else AnsweredOnly(trace[..|trace| - 1]) + (if Answered(trace[|trace| - 1]) then [trace[|trace| - 1]] else [])
  }

  /** Over any trace, the pipe receives the answers one for one, in the order of the requests. */
  lemma {:induction false} AnswersInOrder(env: Env, trace: seq<WorkerMessage>)
    ensures |Answers(env, trace)| == |AnsweredOnly(trace)|
    ensures forall k :: 0 <= k < |Answers(env, trace)| && !LosesSession(env, AnsweredOnly(trace)[k]) ==>
              Fitting(AnsweredOnly(trace)[k], Answers(env, trace)[k])
  {
    if trace != [] {
      AnswersInOrder(env, trace[..|trace| - 1]);
      OneAnswer(env, Replay(env, trace[..|trace| - 1]), trace[|trace| - 1]);
    }
  }

  // ---- sessions do not interfere ----------------------------------------------------------

  predicate AgreeOn(st: Sessions, st': Sessions, key: Option<SessionId>) {
    (key in st <==> key in st') && (key in st ==> st[key] == st'[key])
  }

  /** The state and the actions of an effect, seen from one session. */
  predicate SameEffect(e: Effect, e': Effect, key: Option<SessionId>) {
    e.actions == e'.actions && AgreeOn(e.sessions, e'.sessions, key)
  }

  lemma InitLocal(st: Sessions, st': Sessions, c: Command, m: WorkerMessage, key: Option<SessionId>)
    ensures key != m.session ==> AgreeOn(st, InitSession(st, c, m).sessions, key)
    ensures AgreeOn(st, st', m.session) ==> SameEffect(InitSession(st, c, m), InitSession(st', c, m), m.session)
  {
  }

  lemma ProcessLocal(env: Env, st: Sessions, st': Sessions, c: Command, m: WorkerMessage, key: Option<SessionId>)
    ensures key != m.session ==> AgreeOn(st, ProcessMessage(env, st, c, m).sessions, key)
    ensures AgreeOn(st, st', m.session) ==>
              SameEffect(ProcessMessage(env, st, c, m), ProcessMessage(env, st', c, m), m.session)
  {
    hide Transmit, ShowHeatmap, OpenError;
  }

  lemma ClearLocal(env: Env, st: Sessions, st': Sessions, c: Command, m: WorkerMessage, key: Option<SessionId>)
    ensures key != m.session ==> AgreeOn(st, ClearSession(env, st, c, m).sessions, key)
    ensures AgreeOn(st, st', m.session) ==>
              SameEffect(ClearSession(env, st, c, m), ClearSession(env, st', c, m), m.session)
  {
    hide Transmit;
  }

  /** A message touches its own session only, and depends on its own session only. */
  lemma Local(env: Env, st: Sessions, st': Sessions, m: WorkerMessage, key: Option<SessionId>)
    ensures key != m.session ==> AgreeOn(st, Handle(env, st, m).sessions, key)
    ensures AgreeOn(st, st', m.session) ==> SameEffect(Handle(env, st, m), Handle(env, st', m), m.session)
  {
    hide InitSession, ProcessMessage, ClearSession;
    if m.command.Some? {
      InitLocal(st, st', m.command.value, m, key);
      ProcessLocal(env, st, st', m.command.value, m, key);
      ClearLocal(env, st, st', m.command.value, m, key);
    }
  }

  /** The messages of one session. */
  function Project(trace: seq<WorkerMessage>, key: Option<SessionId>): seq<WorkerMessage> {
    if trace == [] then []
    else Project(trace[..|trace| - 1], key) + (if trace[|trace| - 1].session == key then [trace[|trace| - 1]] else [])
  }

  /** Whatever was interleaved, the state of a session is that of a replay of its own messages. */
  lemma {:induction false} Noninterference(env: Env, trace: seq<WorkerMessage>, key: Option<SessionId>)
    ensures AgreeOn(Replay(env, trace), Replay(env, Project(trace, key)), key)
  {
    if trace != [] {
      var before, m := trace[..|trace| - 1], trace[|trace| - 1];
      Noninterference(env, before, key);
      Local(env, Replay(env, before), Replay(env, Project(before, key)), m, key);
      if m.session == key {
        var own := Project(trace, key);
        assert own == Project(before, key) + [m];
        assert own[..|own| - 1] == Project(before, key) && own[|own| - 1] == m;
      } else {
        assert Project(trace, key) == Project(before, key);
      }
    }
  }

  /** ... and so is everything the worker answers to it. */
  lemma AnswersDependOnOwnSession(env: Env, before: seq<WorkerMessage>, m: WorkerMessage)
    ensures Acts(env, before, m) == Acts(env, Project(before, m.session), m)
  {
    Noninterference(env, before, m.session);
    Local(env, Replay(env, before), Replay(env, Project(before, m.session)), m, m.session);
  }

  // ---- what a session holds and returns ---------------------------------------------------

  function KindOf(session: Session): Command {
    if session.Summary? then Command.SummaryImage else Command.HeatmapImage
  }

  function Opened(kind: Command, width: nat, height: nat, images: seq<Image>): Session {
    if kind == Command.SummaryImage then Summary(width, height, images) else Heatmap(width, height, images)
  }

  predicate IsUpload(m: WorkerMessage, kind: Command, key: Option<SessionId>) {
    m.kind.Data? && m.command == Some(kind) && m.session == key && m.content.Upload? && m.content.decoded.Some?
  }

  /** The pictures uploaded to a session, in order. */
  function Uploaded(ms: seq<WorkerMessage>, kind: Command, key: Option<SessionId>): seq<Image> {
    if ms == [] then []
    else
      var m := ms[|ms| - 1];
      Uploaded(ms[..|ms| - 1], kind, key) + (if IsUpload(m, kind, key) then [m.content.decoded.value] else [])
  }

  predicate Opens(m: WorkerMessage, kind: Command, key: Option<SessionId>) {
    && m.kind.InitSession? && m.command == Some(kind) && m.session == key
    && m.content.SessionShape? && m.content.width >= 0 && m.content.height >= 0
  }

  /** The session that the o-th message of a trace opened, with all pictures uploaded to it since. */
  function OpenedAt(trace: seq<WorkerMessage>, o: nat, kind: Command, key: Option<SessionId>): Session
    requires o < |trace| && Opens(trace[o], kind, key)
  {
    Opened(kind, trace[o].content.width, trace[o].content.height, Uploaded(trace[o + 1..], kind, key))
  }

  lemma UploadedNext(trace: seq<WorkerMessage>, o: nat, kind: Command, key: Option<SessionId>)
    requires o < |trace| - 1
    ensures var before, m := trace[..|trace| - 1], trace[|trace| - 1];
            Uploaded(trace[o + 1..], kind, key)
              == Uploaded(before[o + 1..], kind, key) + if IsUpload(m, kind, key) then [m.content.decoded.value] else []
  {
    var rest := trace[o + 1..];
    assert rest[..|rest| - 1] == trace[..|trace| - 1][o + 1..];
  }

  /** A clear that ends a session of the given kind: the heatmap processor forgets any session, the
      summary processor only its own. */
  predicate EndsSession(m: WorkerMessage, kind: Command, key: Option<SessionId>) {
    m.kind.Clear? && m.session == key && (m.command == Some(Command.HeatmapImage)
                                          || (m.command == Some(Command.SummaryImage) && kind == Command.SummaryImage))
  }

  /** The o-th message opened the session: it was not there before, and nothing has ended it since. */
  predicate OpenSince(env: Env, trace: seq<WorkerMessage>, o: nat, kind: Command, key: Option<SessionId>) {
    && o < |trace| && Opens(trace[o], kind, key) && key !in Replay(env, trace[..o])
    && forall j :: o < j < |trace| ==> !EndsSession(trace[j], kind, key)
  }

  lemma KeptByMessage(env: Env, st: Sessions, m: WorkerMessage, key: Option<SessionId>)
    requires key.Some? && key in st
    ensures var kind, after := KindOf(st[key]), Handle(env, st, m).sessions;
            && (key in after <==> !EndsSession(m, kind, key))
            && (key in after ==>
                  after[key] == st[key].(images := st[key].images
                                         + if IsUpload(m, kind, key) then [m.content.decoded.value] else []))
  {
  }

  lemma OpenedByMessage(env: Env, st: Sessions, m: WorkerMessage, key: Option<SessionId>)
    requires key.Some? && key !in st
    ensures var after := Handle(env, st, m).sessions;
            && (key in after <==>
                  m.command.Some? && m.command.value != GrayscaleImage && Opens(m, m.command.value, key))
            && (key in after ==>
                  after[key] == Opened(m.command.value, m.content.width, m.content.height, [])
                      && KindOf(after[key]) == m.command.value)
  {
  }

  lemma JustOpened(trace: seq<WorkerMessage>, kind: Command, key: Option<SessionId>)
    requires trace != [] && Opens(trace[|trace| - 1], kind, key)
    ensures var m := trace[|trace| - 1];
            OpenedAt(trace, |trace| - 1, kind, key) == Opened(kind, m.content.width, m.content.height, [])
  {
  }

  /** Every session was opened by some message, and holds exactly the pictures uploaded to it since,
      whatever other messages, failed ones included, came in between. */
  lemma {:induction false} SessionHistory(env: Env, trace: seq<WorkerMessage>, key: Option<SessionId>) returns (o: nat)
    requires key.Some? && key in Replay(env, trace)
    ensures var session := Replay(env, trace)[key];
            OpenSince(env, trace, o, KindOf(session), key) && session == OpenedAt(trace, o, KindOf(session), key)
  {
    hide Handle, Uploaded, EndsSession, IsUpload;
    var before, m := trace[..|trace| - 1], trace[|trace| - 1];
    if key in Replay(env, before) {
      o := SessionHistory(env, before, key);
      assert before[o] == trace[o] && before[..o] == trace[..o];
      UploadedNext(trace, o, KindOf(Replay(env, before)[key]), key);
      KeptByMessage(env, Replay(env, before), m, key);
      assert forall j :: 0 <= j < |before| ==> before[j] == trace[j];
    } else {
      o := |trace| - 1;
      OpenedByMessage(env, Replay(env, before), m, key);
      JustOpened(trace, m.command.value, key);
    }
  }

  /** And it lasts: whatever was opened and not ended since is there, with all pictures. */
  lemma {:induction false} SessionLasts(env: Env, trace: seq<WorkerMessage>, o: nat, kind: Command,
                                        key: Option<SessionId>)
    requires key.Some? && kind != GrayscaleImage && OpenSince(env, trace, o, kind, key)
    ensures key in Replay(env, trace) && Replay(env, trace)[key] == OpenedAt(trace, o, kind, key)
  {
    hide Handle, Uploaded, EndsSession, IsUpload;
    var before, m := trace[..|trace| - 1], trace[|trace| - 1];
    if o < |trace| - 1 {
      assert before[..o] == trace[..o] && before[o] == trace[o];
      assert forall j :: 0 <= j < |before| ==> before[j] == trace[j];
      SessionLasts(env, before, o, kind, key);
      UploadedNext(trace, o, kind, key);
      KeptByMessage(env, Replay(env, before), m, key);
    } else {
      OpenedByMessage(env, Replay(env, before), m, key);
      JustOpened(trace, kind, key);
    }
  }

  /** So there is only one such opening. */
  lemma OneOpening(env: Env, trace: seq<WorkerMessage>, o: nat, p: nat, kind: Command, other: Command,
                   key: Option<SessionId>)
    requires key.Some? && kind != GrayscaleImage && other != GrayscaleImage
    requires OpenSince(env, trace, o, kind, key) && OpenSince(env, trace, p, other, key)
    ensures o == p && kind == other
  {
    hide Handle, EndsSession, IsUpload, Opens;
    if o < p {
      OpenUntil(env, trace, o, p, kind, key);
    } else if p < o {
      OpenUntil(env, trace, p, o, other, key);
    } else {
      SessionLasts(env, trace, o, kind, key);
      SessionLasts(env, trace, o, other, key);
    }
  }

  lemma OpenUntil(env: Env, trace: seq<WorkerMessage>, o: nat, p: nat, kind: Command, key: Option<SessionId>)
    requires key.Some? && kind != GrayscaleImage && OpenSince(env, trace, o, kind, key) && o < p <= |trace|
    ensures key in Replay(env, trace[..p])
  {
    hide Handle, EndsSession, IsUpload, Opens;
    var until := trace[..p];
    assert until[..o] == trace[..o] && forall j :: 0 <= j < p ==> until[j] == trace[j];
    SessionLasts(env, until, o, kind, key);
  }

  /** The law of the summary processor. When a session is cleared, the worker hands over the clipped
      sums of exactly the pictures uploaded since it was opened, true sums wherever at most 65,793
      of them cover a cell, and forgets the session. */
  lemma SummaryOfSession(env: Env, trace: seq<WorkerMessage>, clear: WorkerMessage) returns (o: nat)
    requires clear.kind.Clear? && clear.command == Some(Command.SummaryImage) && clear.session.Some?
    requires clear.session in Replay(env, trace) && Replay(env, trace)[clear.session].Summary?
    ensures OpenSince(env, trace, o, Command.SummaryImage, clear.session)
    ensures var images := Uploaded(trace[o + 1..], Command.SummaryImage, clear.session);
            var w, h := trace[o].content.width, trace[o].content.height;
            && Acts(env, trace, clear)
                  == Transmit(env,
                      WorkerMessage(Data, clear.rack, None, SummaryPicture(SummaryImage.Summary(w, h, images)),
                                              clear.session))
            && (forall i: nat, j: nat, c: nat :: i < w && j < h && c < 3 && Coverage(images, i, j) <= 65_793 ==>
                  SummaryImage.Summary(w, h, images)[i][j][c] == SummaryImage.TrueSum(images, i, j, c))
            && clear.session !in Replay(env, trace + [clear])
  {
    o := SessionHistory(env, trace, clear.session);
    assert (trace + [clear])[..|trace|] == trace;
    var images := Uploaded(trace[o + 1..], Command.SummaryImage, clear.session);
    forall i: nat, j: nat, c: nat | c < 3 && Coverage(images, i, j) <= 65_793
      ensures SummaryImage.StoredSum(images, i, j, c) == SummaryImage.TrueSum(images, i, j, c)
    {
      SummaryImage.StoredSumExact(images, i, j, c);
    }
  }

  /** The law of the heatmap processor. An upload is answered with the normalised heat of exactly the
      pictures uploaded since the session was opened, its own included. */
  lemma HeatmapOfSession(env: Env, trace: seq<WorkerMessage>, upload: WorkerMessage) returns (o: nat)
    requires upload.session.Some? && upload.session in Replay(env, trace) && Replay(env, trace)[upload.session].Heatmap?
    requires IsUpload(upload, Command.HeatmapImage, upload.session)
    ensures OpenSince(env, trace, o, Command.HeatmapImage, upload.session)
    ensures var images := Uploaded((trace + [upload])[o + 1..], Command.HeatmapImage, upload.session);
            var w, h := trace[o].content.width, trace[o].content.height;
            Acts(env, trace, upload)
              == match HeatmapImage.GetHeatmap(HeatmapImage.HeatGrid(w, h, images))
                 case None => [Send(Raised(Other))]
                 case Some(heatmap) =>
                   Transmit(env, WorkerMessage(Data, upload.rack, None, HeatPicture(heatmap), upload.session))
  {
    o := SessionHistory(env, trace, upload.session);
    assert (trace + [upload])[..|trace|] == trace;
    UploadedNext(trace + [upload], o, Command.HeatmapImage, upload.session);
  }

  // ---- the transfer memory ----------------------------------------------------------------

  function Perform(memory: seq<Byte>, action: Action): seq<Byte> {
    match action
    case SetFlag => if memory == [] then [] else memory[0 := 1]
    case Write(data) => if SharedMemory.Fits(|memory|, |data|) then SharedMemory.Written(memory, data) else memory
    case Send(_) => memory
  }

  function PerformAll(memory: seq<Byte>, actions: seq<Action>): seq<Byte>
    decreases |actions|
  {
    if actions == [] then memory else PerformAll(Perform(memory, actions[0]), actions[1..])
  }

  lemma PerformThenSend(memory: seq<Byte>, acts: seq<Action>)
    requires 0 < |acts| <= 2 && acts[|acts| - 1].Send?
    ensures PerformAll(memory, acts) == if |acts| == 2 then Perform(memory, acts[0]) else memory
  {
    if |acts| == 2 {
      var after := Perform(memory, acts[0]);
      assert acts[1..] == [acts[1]] && [acts[1]][1..] == [];
      assert PerformAll(after, [acts[1]]) == PerformAll(after, []) == after;
    } else {
      assert PerformAll(memory, acts) == PerformAll(memory, acts[1..]) == memory;
    }
  }
}
