/** The transfer memory between a worker and the manager: byte 0 is the ready-to-write flag, the
    data starts at byte 1. */
module SharedMemory {
  import opened Pictures

  const SH_MEM_RETRY_COUNT: nat := 10

  // ---- the memory as a value --------------------------------------------------------------

  /** Assigning a slice of another length than the data is a ValueError in Python. */
  predicate Fits(size: nat, length: nat) {
    length + 1 <= size
  }

  function Written(memory: seq<Byte>, data: seq<Byte>): (m: seq<Byte>)
    requires Fits(|memory|, |data|)
    ensures |m| == |memory|
  {
    [0] + data + memory[|data| + 1..]
  }

  /** Slicing never fails: a slice past the end is cut. */
  function ReadBytes(memory: seq<Byte>, length: nat): seq<Byte>
    requires memory != []
  {
    if length + 1 <= |memory| then memory[1..length + 1] else memory[1..]
  }

  /** Reading back the announced length gives the data, whatever was in the memory before. */
  lemma ReadBack(memory: seq<Byte>, data: seq<Byte>)
    requires Fits(|memory|, |data|)
    ensures Written(memory, data)[0] == 0
    ensures ReadBytes(Written(memory, data), |data|) == data
  {
  }

  // ---- the memory in place ----------------------------------------------------------------

  class SharedMemoryWrap {
    const buf: array<Byte>

    ghost predicate Valid()
      reads this
    {
      buf.Length > 0
    }

    /** A segment of zeros; the program never asks for an empty one. */
    constructor (size: nat)
      requires size > 0
      ensures Valid() && fresh(buf) && buf.Length == size
      ensures forall i :: 0 <= i < size ==> buf[i] == 0
    {
      buf := new Byte[size](_ => 0);
    }

    method SetReadyToWrite()
      requires Valid()
      modifies buf
      ensures buf[..] == old(buf[..])[0 := 1]
    {
      buf[0] := 1;
    }

    method ClearReadyToWrite()
      requires Valid()
      modifies buf
      ensures buf[..] == old(buf[..])[0 := 0]
    {
      buf[0] := 0;
    }

    method CheckReadyToWrite() returns (ready: bool)
      requires Valid()
      ensures ready == (buf[0] == 1)
    {
      ready := buf[0] == 1;
    }

    /** The slice assignment followed by clearing the flag; `ok` is false where Python raises. */
    method WriteData(data: seq<Byte>) returns (ok: bool)
      requires Valid()
      modifies buf
      ensures ok == Fits(buf.Length, |data|)
      ensures buf[..] == if ok then Written(old(buf[..]), data) else old(buf[..])
    {
      if |data| + 1 > buf.Length {
        return false;
      }
      forall i | 0 <= i < |data| {
        buf[i + 1] := data[i];
      }
      ClearReadyToWrite();
      return true;
    }

    method ReadData(length: nat) returns (data: seq<Byte>)
      requires Valid()
      ensures data == ReadBytes(buf[..], length)
    {
      var end := if length + 1 <= buf.Length then length + 1 else buf.Length;
      data := buf[1..end];
    }
  }

  // ---- the sender -------------------------------------------------------------------------

  /** A slice `data[pos..pos + size]`, cut at the end of the data. */
  function Slice(data: seq<Byte>, pos: nat, size: nat): (chunk: seq<Byte>)
    ensures |chunk| <= size
    ensures pos < |data| && size > 0 ==> chunk != [] && pos + |chunk| <= |data| && chunk == data[pos..pos + |chunk|]
    ensures pos >= |data| ==> chunk == []
  {
    if pos >= |data| then []
    else if pos + size <= |data| then data[pos..pos + size]
    else data[pos..]
  }

  /** The chunk reader. The program's `read` leaves the position alone (`advancing` is false); the
      loop of its only caller needs a reader that moves on (`advancing` is true). */
  class ReadNoCopyIO {
    const buf: seq<Byte>
    const advancing: bool
    var pos: nat

    constructor (data: seq<Byte>, advancing: bool)
      ensures buf == data && this.advancing == advancing && pos == 0
    {
      buf, this.advancing, pos := data, advancing, 0;
    }

    method Read(chunkSize: nat) returns (chunk: seq<Byte>)
      modifies this
      ensures chunk == Slice(buf, old(pos), chunkSize)
      ensures pos == if advancing then old(pos) + |chunk| else old(pos)
    {
      chunk := Slice(buf, pos, chunkSize);
      if advancing {
        pos := pos + |chunk|;
      }
    }
  }

  /** What goes through the pipe during a transfer: announcements, and the exception that the worker's
      message loop reports when the sender raised. */
  datatype Signal = Check(length: nat) | Chunk(length: nat) | Fin | Error

  /** How a transfer ends on the sender's side: all sent, the ValueError of a slice assignment, or
      the BlockingIOError after too many polls of the flag. */
  datatype SendOutcome = Sent | SliceError | GaveUp

  /** `acks[k]` says whether the reader has set the flag by the sender's k-th poll; polls after the
      end of the script find nothing new. */
  predicate Acked(acks: seq<bool>, k: nat) {
    k < |acks| && acks[k]
  }

  /** One chunk: poll the flag at most SH_MEM_RETRY_COUNT times, write when it is set. */
  method RetrySendOnReady(memory: SharedMemoryWrap, data: seq<Byte>, acks: seq<bool>, poll: nat)
    returns (outcome: SendOutcome, next: nat)
    requires memory.Valid()
    modifies memory.buf
    ensures outcome == GaveUp <==>
            old(memory.buf[0]) != 1 && forall k :: poll <= k < poll + SH_MEM_RETRY_COUNT ==> !Acked(acks, k)
    ensures outcome == SliceError ==> !Fits(memory.buf.Length, |data|)
    ensures outcome == Sent ==>
            && Fits(memory.buf.Length, |data|) && memory.buf[0] == 0
            && ReadBytes(memory.buf[..], |data|) == data
    ensures outcome != Sent ==> memory.buf[1..] == old(memory.buf[1..])
    ensures outcome == SliceError ==> memory.buf[0] == 1
    ensures poll < next <= poll + 10 && (outcome == GaveUp ==> next == poll + 10)
    ensures outcome != GaveUp ==> old(memory.buf[0]) == 1 || Acked(acks, next - 1)
  {
    var sendCount := 0;
    next := poll;
    while true
      invariant 0 <= sendCount <= SH_MEM_RETRY_COUNT && next == poll + sendCount
      invariant sendCount > 0 ==>
                  memory.buf[0] != 1 && old(memory.buf[0]) != 1 && forall k :: poll <= k < next ==> !Acked(acks, k)
      invariant memory.buf[..] == old(memory.buf[..]) && memory.buf[0] == old(memory.buf[0])
      decreases SH_MEM_RETRY_COUNT - sendCount
    {
      if sendCount >= SH_MEM_RETRY_COUNT {
        return GaveUp, next;
      }
      sendCount := sendCount + 1;
      if Acked(acks, next) {
        memory.SetReadyToWrite();
      }
      next := next + 1;
      var ready := memory.CheckReadyToWrite();
      if ready {
        ghost var before := memory.buf[..];
        var ok := memory.WriteData(data);
        if ok {
          ReadBack(before, data);
        }
        return if ok then Sent else SliceError, next;
      }
    }
  }

  function Concat(chunks: seq<seq<Byte>>): seq<Byte> {
    if chunks == [] then [] else Concat(chunks[..|chunks| - 1]) + chunks[|chunks| - 1]
  }

  function Announced(chunks: seq<seq<Byte>>): seq<Signal> {
    seq(|chunks|, k requires 0 <= k < |chunks| => Chunk(|chunks[k]|))
  }

  /** What has been written, what comes next and where the chunk reader is. */
  predicate Progress(data: seq<Byte>, chunkSize: nat, advancing: bool, pos: nat, chunks: seq<seq<Byte>>,
                     chunk: seq<Byte>) {
    if advancing then
      && chunk == Slice(data, |Concat(chunks)|, chunkSize)
      && Concat(chunks) <= data && pos == |Concat(chunks)| + |chunk|
    else
      pos == 0 && chunk == Slice(data, 0, chunkSize) && forall k :: 0 <= k < |chunks| ==> chunks[k] == chunk
  }

  lemma ProgressStart(data: seq<Byte>, chunkSize: nat, advancing: bool)
    requires data != [] && chunkSize > 0
    ensures var first := Slice(data, 0, chunkSize);
            first != [] && Progress(data, chunkSize, advancing, if advancing then |first| else 0, [], first)
  {
  }

  lemma ProgressNext(data: seq<Byte>, chunkSize: nat, advancing: bool, pos: nat, chunks: seq<seq<Byte>>,
                     chunk: seq<Byte>)
    requires Progress(data, chunkSize, advancing, pos, chunks, chunk) && chunk != [] && chunkSize > 0
    ensures var next := Slice(data, pos, chunkSize);
            Progress(data, chunkSize, advancing, if advancing then pos + |next| else pos, chunks + [chunk], next)
  {
    ConcatNext(chunks, chunk);
    hide Concat;
    if advancing {
      assert |Concat(chunks)| + |chunk| == pos;
    }
  }

  lemma ConcatNext(chunks: seq<seq<Byte>>, chunk: seq<Byte>)
    ensures Concat(chunks + [chunk]) == Concat(chunks) + chunk
  {
    assert (chunks + [chunk])[..|chunks|] == chunks;
  }

  /** A chunk can fail to fit only if it is the first one: the program's chunks are all as long. */
  lemma FirstChunkFits(data: seq<Byte>, size: nat, chunkSize: nat, advancing: bool, pos: nat, chunks: seq<seq<Byte>>,
                       chunk: seq<Byte>)
    requires Progress(data, chunkSize, advancing, pos, chunks, chunk) && |data| > size && chunkSize > 0
    ensures Fits(size, chunkSize) ==> Fits(size, |chunk|)
    ensures chunks == [] && !Fits(size, chunkSize) ==> !Fits(size, |chunk|)
  {
  }

  lemma Stopped(data: seq<Byte>, chunkSize: nat, advancing: bool, pos: nat, chunks: seq<seq<Byte>>, chunk: seq<Byte>)
    requires Progress(data, chunkSize, advancing, pos, chunks, chunk) && chunk != [] && chunkSize > 0
    ensures advancing ==> Concat(chunks) <= data && Concat(chunks) != data
    ensures !advancing ==> forall k :: 0 <= k < |chunks| ==> chunks[k] == Slice(data, 0, chunkSize)
  {
  }

  lemma Finished(data: seq<Byte>, chunkSize: nat, advancing: bool, pos: nat, chunks: seq<seq<Byte>>)
    requires Progress(data, chunkSize, advancing, pos, chunks, []) && chunkSize > 0 && data != []
    ensures advancing && Concat(chunks) == data && chunks != []
  {
  }

  /** The chunk loop of `send_to_shared_memory`, entered with the flag set. `chunks` records what was
      written to the memory, `signals` what went into the pipe. */
  method SendChunks(memory: SharedMemoryWrap, data: seq<Byte>, chunkSize: nat, advancing: bool, acks: seq<bool>)
    returns (outcome: SendOutcome, signals: seq<Signal>, ghost chunks: seq<seq<Byte>>)
    requires memory.Valid() && memory.buf[0] == 1 && chunkSize > 0 && |data| > memory.buf.Length
    modifies memory.buf
    ensures signals == Announced(chunks) + (if outcome == Sent then [Fin] else [])
    // chunks as long as the memory: the very first write fails, nothing is announced
    ensures !Fits(memory.buf.Length, chunkSize) ==>
              outcome == SliceError && chunks == [] && memory.buf[..] == old(memory.buf[..])
    // a reader that stands still: the first chunk over and over until nobody takes it
    ensures Fits(memory.buf.Length, chunkSize) && !advancing ==>
              outcome == GaveUp && forall k :: 0 <= k < |chunks| ==> chunks[k] == data[..chunkSize]
    // the intended transfer: a prefix at all times, everything exactly when it does not give up
    ensures Fits(memory.buf.Length, chunkSize) && advancing ==>
              Concat(chunks) <= data && outcome != SliceError && (outcome == Sent <==> Concat(chunks) == data)
  {
    hide Progress, Concat;
    signals, chunks := [], [];
    var messageBuf := new ReadNoCopyIO(data, advancing);
    var poll := 0;
    var chunk := messageBuf.Read(chunkSize);
    ProgressStart(data, chunkSize, advancing);
    while chunk != []
      invariant messageBuf.buf == data && messageBuf.advancing == advancing
      invariant signals == Announced(chunks)
      invariant memory.buf[0] == 1 ==> chunks == []
      invariant Progress(data, chunkSize, advancing, messageBuf.pos, chunks, chunk)
      invariant chunks != [] ==> Fits(memory.buf.Length, chunkSize)
      invariant chunks == [] ==>
                  memory.buf[0] == 1 && memory.buf[..] == old(memory.buf[..])
      decreases (if memory.buf[0] == 1 then 1 else 0) + (if poll < |acks| then |acks| - poll else 0)
    {
      FirstChunkFits(data, memory.buf.Length, chunkSize, advancing, messageBuf.pos, chunks, chunk);
      ghost var before := memory.buf[..];
      outcome, poll := RetrySendOnReady(memory, chunk, acks, poll);
      if outcome != Sent {
        assert memory.buf[..] == [memory.buf[0]] + memory.buf[1..] && before == [before[0]] + before[1..];
        Stopped(data, chunkSize, advancing, messageBuf.pos, chunks, chunk);
        return outcome, signals, chunks;
      }
      ghost var pos, last := messageBuf.pos, chunk;
      signals := signals + [Chunk(|chunk|)];
      chunk := messageBuf.Read(chunkSize);
      ProgressNext(data, chunkSize, advancing, pos, chunks, last);
      chunks := chunks + [last];
    }
    Finished(data, chunkSize, advancing, messageBuf.pos, chunks);
    signals := signals + [Fin];
    outcome := Sent;
  }

  /** `send_to_shared_memory` for an already pickled message. The program calls it with
      `chunkSize` equal to the memory size and a reader that does not advance; the transfer it
      describes needs one byte less, for the flag, and a reader that does. `chunks` and
      `signals` are as for the chunk loop. */
  method SendToSharedMemory(memory: SharedMemoryWrap, data: seq<Byte>, chunkSize: nat, advancing: bool, acks: seq<bool>)
    returns (outcome: SendOutcome, signals: seq<Signal>, ghost chunks: seq<seq<Byte>>)
    requires memory.Valid() && chunkSize > 0
    modifies memory.buf
    // single shot: right exactly when the data leaves room for the flag byte
    ensures |data| <= memory.buf.Length ==>
            && (outcome == Sent <==> Fits(memory.buf.Length, |data|)) && outcome != GaveUp
            && memory.buf[..] == (if outcome == Sent then Written(old(memory.buf[..]), data) else old(memory.buf[..]))
            && signals == (if outcome == Sent then [Check(|data|)] else [])
    ensures |data| > memory.buf.Length ==> signals == Announced(chunks) + (if outcome == Sent then [Fin] else [])
    // chunks as long as the memory: the very first write fails, nothing is announced
    ensures |data| > memory.buf.Length && !Fits(memory.buf.Length, chunkSize) ==>
            outcome == SliceError && chunks == [] && memory.buf[..] == old(memory.buf[..])[0 := 1]
    // a reader that stands still: the first chunk over and over until nobody takes it
    ensures |data| > memory.buf.Length && Fits(memory.buf.Length, chunkSize) && !advancing ==>
            outcome == GaveUp && forall k :: 0 <= k < |chunks| ==> chunks[k] == data[..chunkSize]
    // the intended transfer: a prefix at all times, everything exactly when it does not give up
    ensures |data| > memory.buf.Length && Fits(memory.buf.Length, chunkSize) && advancing ==>
            Concat(chunks) <= data && outcome != SliceError && (outcome == Sent <==> Concat(chunks) == data)
  {
    signals, chunks := [], [];
    if |data| <= memory.buf.Length {
      var ok := memory.WriteData(data);
      return if ok then Sent else SliceError, if ok then [Check(|data|)] else [], [];
    }
    memory.SetReadyToWrite();
    outcome, signals, chunks := SendChunks(memory, data, chunkSize, advancing, acks);
  }
}
