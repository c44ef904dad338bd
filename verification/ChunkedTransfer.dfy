/** The chunked transfer as two processes that interleave freely: the sender polls the flag, writes
    a chunk and announces it in the pipe; the reader takes an announcement, copies the chunk and
    sets the flag. When the sender raises, the worker's message loop puts the exception into the same
    pipe, and the reader that receives it fails. The memory, the pipe and the chunk reader are those
    of module SharedMemory.

    The program's text and the transfer it describes differ in four places, and a `Config` says
    which text runs; `AsWritten` and `Intended` are the two of interest. */
module ChunkedTransfer {
  import opened Pictures
  import opened SharedMemory

  datatype Config = Config(
    size: nat,              // bytes in the shared memory, flag included
    chunkSize: nat,         // bytes asked of the chunk reader each time
    advancing: bool,        // does the chunk reader move on?
    finIsEmpty: bool,       // does the final marker count as zero bytes? (as written it is read as None bytes)
    readerWaits: bool)      // does the reader wait for the next announcement? (as written it takes None for one)
  {
    /** The four ingredients of a transfer that works. */
    predicate Sound() {
      0 < chunkSize && Fits(size, chunkSize) && advancing && finIsEmpty && readerWaits
    }
  }

  function AsWritten(size: nat): Config {
    Config(size, size, false, false, false)
  }

  function Intended(size: nat): Config
    requires size >= 2
  {
    Config(size, size - 1, true, true, true)
  }

  datatype Sender = Polling(tries: nat) | Announcing(length: nat) | Finished | Stopped | Crashed

  /** `First` waits in the manager's answer loop, `Await` inside the chunk loop. */
  datatype Reader = First | Copying(length: nat) | Marking | Await | Complete | Failed

  datatype State = State(
    memory: seq<Byte>,
    pipe: seq<Signal>,
    sender: Sender,
    pos: nat,               // position of the chunk reader
    reader: Reader,
    buffer: seq<Byte>)      // what the reader has collected

  /** The flag is set before the first chunk; nothing is known about the other bytes. */
  predicate Initial(cfg: Config, s: State) {
    && |s.memory| == cfg.size && cfg.size > 0 && s.memory[0] == 1
    && s.pipe == [] && s.sender == Polling(0) && s.pos == 0 && s.reader == First && s.buffer == []
  }

  function SenderStep(cfg: Config, payload: seq<Byte>, s: State): State
    requires s.memory != []
  {
    match s.sender
    case Polling(tries) =>
      var chunk := Slice(payload, s.pos, cfg.chunkSize);
      if chunk == [] then s.(pipe := s.pipe + [Fin], sender := Finished)
      else if tries >= SH_MEM_RETRY_COUNT then s.(pipe := s.pipe + [Error], sender := Stopped)
      else if s.memory[0] != 1 then s.(sender := Polling(tries + 1))
      else if !Fits(|s.memory|, |chunk|) then s.(pipe := s.pipe + [Error], sender := Crashed)
      else s.(memory := Written(s.memory, chunk), sender := Announcing(|chunk|),
              pos := if cfg.advancing then s.pos + |chunk| else s.pos)
    case Announcing(length) => s.(pipe := s.pipe + [Chunk(length)], sender := Polling(0))
    case _ => s
  }

  function ReaderStep(cfg: Config, s: State): State
    requires s.memory != []
  {
    match s.reader
    case First =>
      if s.pipe == [] then s
      else if s.pipe[0].Chunk? then s.(pipe := s.pipe[1..], reader := Copying(s.pipe[0].length))
      else s.(pipe := s.pipe[1..], reader := Failed)
    case Copying(length) => s.(buffer := s.buffer + ReadBytes(s.memory, length), reader := Marking)
    case Marking => s.(memory := s.memory[0 := 1], reader := Await)
    case Await =>
      if s.pipe == [] then (if cfg.readerWaits then s else s.(reader := Failed))
      else if s.pipe[0].Chunk? then s.(pipe := s.pipe[1..], reader := Copying(s.pipe[0].length))
      else s.(pipe := s.pipe[1..], reader := if s.pipe[0].Fin? && cfg.finIsEmpty then Complete else Failed)
    case _ => s
  }

  /** One step of either side; a side that cannot move makes no step. */
  predicate Next(cfg: Config, payload: seq<Byte>, s: State, s': State) {
    && s.memory != [] && s' != s
    && (s' == SenderStep(cfg, payload, s) || s' == ReaderStep(cfg, s))
  }

  /** A run of a chunked transfer; the program uses chunks only for payloads larger than the memory. */
  ghost predicate IsRun(cfg: Config, payload: seq<Byte>, run: seq<State>) {
    && |payload| > cfg.size
    && run != [] && Initial(cfg, run[0])
    && forall i {:trigger run[i]} :: 0 < i < |run| ==> Next(cfg, payload, run[i - 1], run[i])
  }

  ghost predicate Reachable(cfg: Config, payload: seq<Byte>, s: State) {
    exists run: seq<State> :: IsRun(cfg, payload, run) && run[|run| - 1] == s
  }

  lemma LastStep(cfg: Config, payload: seq<Byte>, run: seq<State>) returns (s: State)
    requires IsRun(cfg, payload, run) && |run| > 1
    ensures IsRun(cfg, payload, run[..|run| - 1]) && s == run[..|run| - 1][|run| - 2] == run[|run| - 2]
    ensures Next(cfg, payload, s, run[|run| - 1])
  {
    s := run[|run| - 2];
    assert run[|run| - 1] == run[|run| - 1];
  }

  // ---- the sound configurations -----------------------------------------------------------

  /** The chunk that has been written but not yet copied. */
  function InFlight(s: State): nat {
    if s.sender.Announcing? then s.sender.length
    else if s.pipe != [] && s.pipe[0].Chunk? then s.pipe[0].length
    else if s.reader.Copying? then s.reader.length
    else 0
  }

  /** Nothing but possibly the signal that ends the transfer. */
  predicate AtMostLast(pipe: seq<Signal>) {
    pipe == [] || pipe == [Fin] || pipe == [Error]
  }

  predicate Invariant(cfg: Config, payload: seq<Byte>, s: State) {
    var pending := InFlight(s);
    && |s.memory| == cfg.size && s.memory != [] && s.pos <= |payload|
    && (s.sender.Polling? ==> s.sender.tries <= SH_MEM_RETRY_COUNT)
    && pending <= s.pos && s.buffer == payload[..s.pos - pending]
    && (pending > 0 ==> s.memory[0] == 0 && ReadBytes(s.memory, pending) == payload[s.pos - pending..s.pos])
    && !s.sender.Crashed? && (s.reader.Failed? ==> s.sender.Stopped? && s.pipe == [] && pending == 0)
    && (s.sender.Finished? ==> s.pos == |payload|)
    && (s.sender.Announcing? ==> s.pipe == [] && s.reader in {First, Await} && pending > 0)
    && (s.reader.Copying? ==> pending > 0)
    && (s.reader.Copying? || s.reader.Marking? ==> s.memory[0] == 0 && AtMostLast(s.pipe))
    && (s.reader.First? ==> pending > 0 || (s.pos == 0 && s.memory[0] == 1 && s.pipe == [] && s.sender == Polling(0)))
    && (s.reader.Await? && pending == 0 ==> s.memory[0] == 1)
    && (s.reader.Complete? ==> s.sender.Finished? && s.pipe == [] && pending == 0)
    && (AtMostLast(s.pipe) || (pending > 0 && s.pipe[0] == Chunk(pending) && AtMostLast(s.pipe[1..])))
    && (s.pipe != [] && s.pipe[|s.pipe| - 1].Fin? ==> s.sender.Finished?)
    && (s.sender.Finished? ==> s.reader.Complete? || (s.pipe != [] && s.pipe[|s.pipe| - 1].Fin?))
    && (s.pipe != [] && s.pipe[|s.pipe| - 1].Error? ==> s.sender.Stopped?)
    && (s.sender.Stopped? ==> s.pos < |payload|)
    && (s.sender.Stopped? ==> s.reader.Failed? || (s.pipe != [] && s.pipe[|s.pipe| - 1].Error?))
  }

  lemma WriteKeeps(cfg: Config, payload: seq<Byte>, s: State)
    requires cfg.Sound() && |payload| > cfg.size && Invariant(cfg, payload, s) && s.sender.Polling?
    requires s.sender.tries < SH_MEM_RETRY_COUNT && s.memory[0] == 1 && s.pos < |payload|
    ensures Invariant(cfg, payload, SenderStep(cfg, payload, s))
  {
    var chunk := Slice(payload, s.pos, cfg.chunkSize);
    assert InFlight(s) == 0 && InFlight(SenderStep(cfg, payload, s)) == |chunk|;
    ReadBack(s.memory, chunk);
    hide Written, ReadBytes;
  }

  lemma SenderKeeps(cfg: Config, payload: seq<Byte>, s: State)
    requires cfg.Sound() && |payload| > cfg.size && Invariant(cfg, payload, s)
    ensures Invariant(cfg, payload, SenderStep(cfg, payload, s))
  {
    hide Written, ReadBytes;
    if s.sender.Polling? && s.sender.tries < SH_MEM_RETRY_COUNT && s.memory[0] == 1 && s.pos < |payload| {
      WriteKeeps(cfg, payload, s);
    }
  }

  lemma ReaderKeeps(cfg: Config, payload: seq<Byte>, s: State)
    requires cfg.Sound() && Invariant(cfg, payload, s)
    ensures Invariant(cfg, payload, ReaderStep(cfg, s))
  {
    if s.reader.Copying? {
      CopyKeeps(cfg, payload, s);
    } else {
      hide Written, Slice;
    }
  }

  lemma CopyKeeps(cfg: Config, payload: seq<Byte>, s: State)
    requires cfg.Sound() && Invariant(cfg, payload, s) && s.reader.Copying?
    ensures Invariant(cfg, payload, ReaderStep(cfg, s))
  {
    var n := s.reader.length;
    assert payload[..s.pos - n] + payload[s.pos - n..s.pos] == payload[..s.pos];
  }

  lemma {:induction false} RunKeeps(cfg: Config, payload: seq<Byte>, run: seq<State>)
    requires cfg.Sound() && IsRun(cfg, payload, run)
    ensures forall i :: 0 <= i < |run| ==> Invariant(cfg, payload, run[i])
  {
    for i := 0 to |run|
      invariant forall k :: 0 <= k < i ==> Invariant(cfg, payload, run[k])
    {
      if i > 0 {
        SenderKeeps(cfg, payload, run[i - 1]);
        ReaderKeeps(cfg, payload, run[i - 1]);
      }
    }
  }

  /** Safety over whole runs: whatever the interleaving, the collected bytes are a prefix of the
      payload, the whole payload once the final marker is consumed; the sender never crashes, and
      the reader fails only by receiving the error of a sender that gave up, never with a result. */
  lemma AlwaysPrefix(cfg: Config, payload: seq<Byte>, s: State)
    requires cfg.Sound() && Reachable(cfg, payload, s)
    ensures s.buffer <= payload
    ensures s.reader.Complete? ==> s.buffer == payload
    ensures !s.sender.Crashed? && (s.reader.Failed? ==> s.sender.Stopped?)
  {
    var run :| IsRun(cfg, payload, run) && run[|run| - 1] == s;
    RunKeeps(cfg, payload, run);
  }

  predicate DataChanged(s: State, s': State) {
    s.memory != [] && s'.memory != [] && s'.memory[1..] != s.memory[1..]
  }

  /** Everything written before is in the reader's buffer, and what has been written now is the next
      piece of the payload. */
  predicate NextPiece(payload: seq<Byte>, s: State, s': State) {
    && s.pos < s'.pos <= |payload| && s.buffer == payload[..s.pos]
    && s'.sender == Announcing(s'.pos - s.pos) && s'.memory != []
    && ReadBytes(s'.memory, s'.pos - s.pos) == payload[s.pos..s'.pos]
  }

  lemma FlagKeepsData(memory: seq<Byte>)
    requires memory != []
    ensures memory[0 := 1][1..] == memory[1..]
  {
  }

  lemma ChangeIsNextPiece(cfg: Config, payload: seq<Byte>, s: State, s': State)
    requires cfg.Sound() && Invariant(cfg, payload, s) && Next(cfg, payload, s, s') && DataChanged(s, s')
    ensures NextPiece(payload, s, s')
  {
    FlagKeepsData(s.memory);
    assert s' == SenderStep(cfg, payload, s) && s.sender.Polling?;
    ReadBack(s.memory, Slice(payload, s.pos, cfg.chunkSize));
  }

  /** No chunk is overwritten before it is copied: whenever the data in the memory changes, everything
      written before is already in the reader's buffer. */
  lemma NoOverwrite(cfg: Config, payload: seq<Byte>, run: seq<State>, i: nat)
    requires cfg.Sound() && IsRun(cfg, payload, run) && 0 < i < |run| && DataChanged(run[i - 1], run[i])
    ensures NextPiece(payload, run[i - 1], run[i])
  {
    RunKeeps(cfg, payload, run);
    assert Next(cfg, payload, run[i - 1], run[i]);
    hide IsRun, Invariant, Next;
    assert Invariant(cfg, payload, run[i - 1]);
    ChangeIsNextPiece(cfg, payload, run[i - 1], run[i]);
  }

  // ---- giving up --------------------------------------------------------------------------

  /** So many steps of the sender alone. */
  function Steps(cfg: Config, payload: seq<Byte>, s: State, k: nat): State
    requires s.memory != []
  {
    if k == 0 then s
    else
      var before := Steps(cfg, payload, s, k - 1);
      if before.memory == [] then before else SenderStep(cfg, payload, before)
  }

  /** A sender with something to send polls a clear flag ten times and then gives up with its error. */
  lemma {:induction false} PollsTenTimes(cfg: Config, payload: seq<Byte>, s: State, k: nat)
    requires s.memory != [] && s.memory[0] != 1 && s.sender == Polling(0) && cfg.chunkSize > 0 && s.pos < |payload|
    ensures k <= 10 ==> Steps(cfg, payload, s, k) == s.(sender := Polling(k))
    ensures k == 11 ==> Steps(cfg, payload, s, k) == s.(sender := Stopped, pipe := s.pipe + [Error])
  {
    if 0 < k <= 11 {
      PollsTenTimes(cfg, payload, s, k - 1);
    }
  }

  // ---- every run ends ---------------------------------------------------------------------

  function Rank(payload: seq<Byte>, s: State): int {
    20 * (|payload| - s.pos) + 3 * |s.pipe|
    + (match s.sender case Polling(tries) => 14 - tries case Announcing(_) => 18 case _ => 0)
    + (match s.reader case Copying(_) => 3 case Marking => 2 case First => 1 case Await => 1 case _ => 0)
  }

  lemma SenderRankDrops(cfg: Config, payload: seq<Byte>, s: State)
    requires cfg.Sound() && s.memory != [] && SenderStep(cfg, payload, s) != s
    requires s.sender.Polling? ==> s.sender.tries <= SH_MEM_RETRY_COUNT
    ensures Rank(payload, SenderStep(cfg, payload, s)) < Rank(payload, s)
  {
  }

  lemma ReaderRankDrops(cfg: Config, payload: seq<Byte>, s: State)
    requires s.memory != [] && ReaderStep(cfg, s) != s
    ensures Rank(payload, ReaderStep(cfg, s)) < Rank(payload, s)
  {
  }

  lemma RankDrops(cfg: Config, payload: seq<Byte>, s: State, s': State)
    requires cfg.Sound() && |payload| > cfg.size && Invariant(cfg, payload, s) && Next(cfg, payload, s, s')
    ensures Invariant(cfg, payload, s') && 0 <= Rank(payload, s') < Rank(payload, s)
  {
    if s' == SenderStep(cfg, payload, s) {
      SenderKeeps(cfg, payload, s);
      SenderRankDrops(cfg, payload, s);
    } else {
      ReaderKeeps(cfg, payload, s);
      ReaderRankDrops(cfg, payload, s);
    }
  }

  /** Every interleaving is finite: no run is longer than 20 steps a byte and 15 more. */
  lemma {:induction false} RunsEnd(cfg: Config, payload: seq<Byte>, run: seq<State>)
    requires cfg.Sound() && IsRun(cfg, payload, run)
    ensures 0 <= Rank(payload, run[|run| - 1]) <= 20 * |payload| + 16 - |run|
  {
    RunKeeps(cfg, payload, run);
    if |run| > 1 {
      var s := LastStep(cfg, payload, run);
      RunsEnd(cfg, payload, run[..|run| - 1]);
      RankDrops(cfg, payload, s, run[|run| - 1]);
    }
  }

  /** ... and a run that cannot go on has delivered the payload, or the sender gave up polling, the
      reader got its error, and what the reader had collected is exactly what was sent. */
  lemma EndsDeliveredOrGivenUp(cfg: Config, payload: seq<Byte>, s: State)
    requires cfg.Sound() && Reachable(cfg, payload, s)
    requires !exists s' :: Next(cfg, payload, s, s')
    ensures (s.reader.Complete? && s.buffer == payload)
            || (s.sender.Stopped? && s.reader.Failed? && s.pos < |payload| && s.buffer == payload[..s.pos])
  {
    var run :| IsRun(cfg, payload, run) && run[|run| - 1] == s;
    RunKeeps(cfg, payload, run);
    assert Invariant(cfg, payload, s);
    hide IsRun, Invariant, Reachable, SenderStep, ReaderStep;
    assert s.memory != [] ==> SenderStep(cfg, payload, s) == s || Next(cfg, payload, s, SenderStep(cfg, payload, s));
    assert s.memory != [] ==> ReaderStep(cfg, s) == s || Next(cfg, payload, s, ReaderStep(cfg, s));
    AtRest(cfg, payload, s);
  }

  lemma AtRest(cfg: Config, payload: seq<Byte>, s: State)
    requires cfg.Sound() && Invariant(cfg, payload, s) && SenderStep(cfg, payload, s) == s && ReaderStep(cfg, s) == s
    ensures (s.reader.Complete? && s.buffer == payload)
            || (s.sender.Stopped? && s.reader.Failed? && s.pos < |payload| && s.buffer == payload[..s.pos])
  {
    hide ReadBytes, Written;
  }

  lemma Extend(cfg: Config, payload: seq<Byte>, run: seq<State>, s: State) returns (longer: seq<State>)
    requires IsRun(cfg, payload, run) && Next(cfg, payload, run[|run| - 1], s)
    ensures IsRun(cfg, payload, longer) && longer[|longer| - 1] == s
  {
    longer := run + [s];
    forall i {:trigger longer[i]} | 0 < i < |longer| ensures Next(cfg, payload, longer[i - 1], longer[i]) {
      if i < |run| {
        assert Next(cfg, payload, run[i - 1], run[i]);
      }
    }
  }

  /** The reader's step if it can move, else the sender's. */
  lemma Favoured(cfg: Config, payload: seq<Byte>, s: State) returns (s': State)
    requires cfg.Sound() && |payload| > cfg.size && Invariant(cfg, payload, s) && !s.reader.Complete?
    requires (s.sender.Polling? ==> s.sender.tries == 0) && !s.sender.Stopped?
    ensures Next(cfg, payload, s, s') && (s'.sender.Polling? ==> s'.sender.tries == 0) && !s'.sender.Stopped?
  {
    hide ReadBytes, Written;
    s' := if ReaderStep(cfg, s) != s then ReaderStep(cfg, s) else SenderStep(cfg, payload, s);
  }

  /** A schedule that always delivers: the reader moves whenever it can. */
  lemma {:induction false} Deliver(cfg: Config, payload: seq<Byte>, run: seq<State>) returns (done: seq<State>)
    requires cfg.Sound() && IsRun(cfg, payload, run)
    requires var s := run[|run| - 1]; (s.sender.Polling? ==> s.sender.tries == 0) && !s.sender.Stopped?
    ensures IsRun(cfg, payload, done) && done[|done| - 1].reader.Complete?
    decreases Rank(payload, run[|run| - 1])
  {
    var s := run[|run| - 1];
    RunKeeps(cfg, payload, run);
    assert Invariant(cfg, payload, s);
    if s.reader.Complete? {
      return run;
    }
    assert |payload| > cfg.size;
    hide IsRun, Rank;
    var s' := Favoured(cfg, payload, s);
    RankDrops(cfg, payload, s, s');
    var longer := Extend(cfg, payload, run, s');
    done := Deliver(cfg, payload, longer);
  }

  // ---- the exact condition ----------------------------------------------------------------

  /** A configuration transfers a payload if some run delivers it, no run crashes the sender, and the
      reader fails in no run unless the sender gave up. */
  ghost predicate Transfers(cfg: Config, payload: seq<Byte>) {
    && (exists s :: Reachable(cfg, payload, s) && s.reader.Complete? && s.buffer == payload)
    && (forall s :: Reachable(cfg, payload, s) ==> !s.sender.Crashed? && (s.reader.Failed? ==> s.sender.Stopped?))
  }

  function Start(cfg: Config): (s: State)
    requires cfg.size > 0
    ensures Initial(cfg, s)
  {
    State([1] + seq(cfg.size - 1, _ => 0), [], Polling(0), 0, First, [])
  }

  /** Chunks of no bytes: the final marker comes first, and the answer loop rejects it. */
  predicate OnlyMarker(s: State) {
    && s.memory != [] && (s.reader.First? || s.reader.Failed?) && !s.sender.Announcing?
    && forall i :: 0 <= i < |s.pipe| ==> s.pipe[i] == Fin
  }

  /** Chunks as long as the memory: the first write crashes. */
  predicate OnlyCrash(cfg: Config, s: State) {
    && |s.memory| == cfg.size && s.memory != [] && s.memory[0] == 1
    && s.pos == 0 && s.buffer == [] && (s.reader.First? || s.reader.Failed?)
    && (s.sender == Polling(0) || s.sender.Crashed?)
    && (s.sender == Polling(0) ==> s.pipe == [] && s.reader.First?)
    && (s.sender.Crashed? ==> s.pipe == if s.reader.First? then [Error] else [])
  }

  /** A chunk reader that stands still: the sender never reaches the end of the payload. */
  predicate OnlyFirstChunk(s: State) {
    && s.memory != [] && s.pos == 0 && !s.sender.Finished? && !s.reader.Complete?
    && forall i :: 0 <= i < |s.pipe| ==> s.pipe[i].Chunk? || s.pipe[i].Error?
  }

  /** Why a configuration without one of its first four ingredients never delivers. */
  predicate NeverDelivers(cfg: Config, s: State) {
    if cfg.chunkSize == 0 then OnlyMarker(s)
    else if !Fits(cfg.size, cfg.chunkSize) then OnlyCrash(cfg, s)
    else if !cfg.advancing then OnlyFirstChunk(s)
    else !s.reader.Complete?
  }

  lemma InitialNeverDelivers(cfg: Config, s: State)
    requires Initial(cfg, s)
    ensures NeverDelivers(cfg, s)
  {
  }

  predicate Unsound(cfg: Config) {
    cfg.chunkSize == 0 || !Fits(cfg.size, cfg.chunkSize) || !cfg.advancing || !cfg.finIsEmpty
  }

  lemma SenderNeverDelivers(cfg: Config, payload: seq<Byte>, s: State)
    requires |payload| > cfg.size && Unsound(cfg) && NeverDelivers(cfg, s) && s.memory != []
    ensures NeverDelivers(cfg, SenderStep(cfg, payload, s))
  {
    hide Written, ReadBytes;
    var chunk := Slice(payload, s.pos, cfg.chunkSize);
    assert !Fits(cfg.size, cfg.chunkSize) && cfg.chunkSize > 0 && s.pos == 0 ==>
        |chunk| == cfg.chunkSize || |chunk| == |payload|;
  }

  lemma ReaderNeverDelivers(cfg: Config, s: State)
    requires Unsound(cfg) && NeverDelivers(cfg, s) && s.memory != []
    ensures NeverDelivers(cfg, ReaderStep(cfg, s))
  {
    hide ReadBytes;
  }

  lemma StepNeverDelivers(cfg: Config, payload: seq<Byte>, s: State, s': State)
    requires |payload| > cfg.size && Unsound(cfg)
    requires NeverDelivers(cfg, s) && Next(cfg, payload, s, s')
    ensures NeverDelivers(cfg, s')
  {
    hide NeverDelivers, SenderStep, ReaderStep;
    SenderNeverDelivers(cfg, payload, s);
    ReaderNeverDelivers(cfg, s);
  }

  lemma {:induction false} UnsoundNeverDelivers(cfg: Config, payload: seq<Byte>, run: seq<State>)
    requires Unsound(cfg)
    requires IsRun(cfg, payload, run)
    ensures NeverDelivers(cfg, run[|run| - 1])
  {
    if |run| == 1 {
      InitialNeverDelivers(cfg, run[0]);
    } else {
      var s := LastStep(cfg, payload, run);
      UnsoundNeverDelivers(cfg, payload, run[..|run| - 1]);
      StepNeverDelivers(cfg, payload, s, run[|run| - 1]);
    }
  }

  /** A reader that does not wait can find the pipe empty after its first chunk, and fails. */
  lemma ImpatientReaderFails(cfg: Config, payload: seq<Byte>) returns (s: State)
    requires 0 < cfg.chunkSize && Fits(cfg.size, cfg.chunkSize) && !cfg.readerWaits && |payload| > cfg.size
    ensures Reachable(cfg, payload, s) && s.reader.Failed? && !s.sender.Stopped?
  {
    var s0 := Start(cfg);
    var run := [s0];
    assert IsRun(cfg, payload, run);
    var s1 := SenderStep(cfg, payload, s0);
    run := Extend(cfg, payload, run, s1);
    var s2 := SenderStep(cfg, payload, s1);
    run := Extend(cfg, payload, run, s2);
    var s3 := ReaderStep(cfg, s2);
    run := Extend(cfg, payload, run, s3);
    var s4 := ReaderStep(cfg, s3);
    run := Extend(cfg, payload, run, s4);
    var s5 := ReaderStep(cfg, s4);
    run := Extend(cfg, payload, run, s5);
    s := ReaderStep(cfg, s5);
    run := Extend(cfg, payload, run, s);
  }

  /** The chunked transfer works for a payload exactly in the sound configurations. */
  lemma ExactlySoundTransfers(cfg: Config, payload: seq<Byte>)
    requires |payload| > cfg.size > 0
    ensures Transfers(cfg, payload) <==> cfg.Sound()
  {
    if cfg.Sound() {
      var run := [Start(cfg)];
      assert IsRun(cfg, payload, run);
      var done := Deliver(cfg, payload, run);
      assert Reachable(cfg, payload, done[|done| - 1]);
      AlwaysPrefix(cfg, payload, done[|done| - 1]);
      forall s | Reachable(cfg, payload, s) ensures !s.sender.Crashed? && (s.reader.Failed? ==> s.sender.Stopped?) {
        AlwaysPrefix(cfg, payload, s);
      }
    } else if 0 < cfg.chunkSize && Fits(cfg.size, cfg.chunkSize) && cfg.advancing && cfg.finIsEmpty {
      var s := ImpatientReaderFails(cfg, payload);
    } else {
      forall s | Reachable(cfg, payload, s) ensures !s.reader.Complete? {
        var run :| IsRun(cfg, payload, run) && run[|run| - 1] == s;
        UnsoundNeverDelivers(cfg, payload, run);
      }
    }
  }

  /** The text as written, on every run: nothing is announced, nothing is handed over, the sender
      crashes on its first write, and the error is all that ever goes through the pipe. The intended
      text transfers every payload. */
  lemma AsWrittenVersusIntended(size: nat, payload: seq<Byte>)
    requires |payload| > size >= 2
    ensures forall s :: Reachable(AsWritten(size), payload, s) ==>
              s.buffer == [] && s.pipe in {[], [Error]} && (s.sender == Polling(0) || s.sender.Crashed?)
    ensures forall s :: Initial(AsWritten(size), s) ==> SenderStep(AsWritten(size), payload, s).sender.Crashed?
    ensures !Transfers(AsWritten(size), payload) && Transfers(Intended(size), payload)
  {
    forall s | Reachable(AsWritten(size), payload, s)
      ensures OnlyCrash(AsWritten(size), s)
    {
      var run :| IsRun(AsWritten(size), payload, run) && run[|run| - 1] == s;
      UnsoundNeverDelivers(AsWritten(size), payload, run);
      assert NeverDelivers(AsWritten(size), s);
    }
    ExactlySoundTransfers(AsWritten(size), payload);
    ExactlySoundTransfers(Intended(size), payload);
  }
}
