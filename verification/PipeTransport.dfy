/** The two loops around a pipe: retrying a call that may be blocked, and throwing away what an
    earlier request left behind. */
module PipeTransport {
  const PIPE_RETRY_COUNT: nat := 10

  /** What one call of the wrapped function does. `Transient` stands for BlockingIOError, EOFError and
      UnpicklingError, after which the loop sleeps and tries again; any other exception propagates. */
  datatype Attempt<T> = Succeeds(value: T) | Transient | Fatal

  datatype Retried<T> = Returned(value: T) | TooManyAttempts | Propagated

  /** The k-th attempt is the first that settles the call. */
  predicate Settles<T>(attempt: nat -> Attempt<T>, k: nat) {
    !attempt(k).Transient? && forall j: nat :: j < k ==> attempt(j).Transient?
  }

  /** The first settling attempt decides, if it is among the first ten; the function is called once
      per attempt and never after it has settled. */
  method BlockingRetryBody<T>(attempt: nat -> Attempt<T>) returns (result: Retried<T>, calls: nat)
    ensures forall k: nat :: k < PIPE_RETRY_COUNT && Settles(attempt, k) ==>
              calls == k + 1 && result == if attempt(k).Succeeds? then Returned(attempt(k).value) else Propagated
    ensures (forall k: nat :: Settles(attempt, k) ==> k >= PIPE_RETRY_COUNT) ==>
              calls == PIPE_RETRY_COUNT && result == TooManyAttempts
    ensures 1 <= calls <= 10 && (result == TooManyAttempts ==> calls == 10)
    ensures result == TooManyAttempts <==> forall k: nat :: k < PIPE_RETRY_COUNT ==> attempt(k).Transient?
  {
    var sendCount := 0;
    while true
      invariant 0 <= sendCount <= PIPE_RETRY_COUNT
      invariant forall j: nat :: j < sendCount ==> attempt(j).Transient?
      decreases PIPE_RETRY_COUNT - sendCount
    {
      if sendCount >= PIPE_RETRY_COUNT {
        return TooManyAttempts, sendCount;
      }
      sendCount := sendCount + 1;
      match attempt(sendCount - 1)
      case Succeeds(value) =>
        assert Settles(attempt, sendCount - 1);
        return Returned(value), sendCount;
      case Fatal =>
        assert Settles(attempt, sendCount - 1);
        return Propagated, sendCount;
      case Transient =>
    }
  }

  /** An object left in the pipe: it can be received, or its bytes cannot be unpickled. */
  datatype Leftover = Readable | Unpicklable

  /** The pipe is empty afterwards, and the count is that of the objects that could be received. */
  method ClearPipe(pipe: seq<Leftover>) returns (rest: seq<Leftover>, remainMessages: nat)
    ensures rest == [] && remainMessages == multiset(pipe)[Readable]
  {
    rest, remainMessages := pipe, 0;
    while rest != []
      invariant remainMessages + multiset(rest)[Readable] == multiset(pipe)[Readable]
      decreases |rest|
    {
      assert rest == [rest[0]] + rest[1..];
      if rest[0].Readable? {
        remainMessages := remainMessages + 1;
      }
      rest := rest[1..];
    }
  }
}
