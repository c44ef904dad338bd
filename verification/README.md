# A verified model of the session process manager

The service runs image commands in a fixed number of worker processes. Many asyncio requests share a
manager that binds sessions to processes, sends one message at a time to each process through a pipe,
and reads large answers from a shared memory. A worker is a sequential server over a dictionary of
sessions; a summary session adds pictures up, a heatmap session shows where they were bright.

The project models three connected parts, and a metric, and proves what every run of them keeps.

**The manager** is a step machine (`ManagerMachine`): one step is the code an asyncio task runs from
one suspension point to the next; timeouts and cancellations may strike at every suspension point;
worker processes take their own steps in between. Locks are asyncio's, with a holder and a first-in
first-out queue. The step functions follow `src/core/worker/worker_manager.py` branch by branch;
its verdict on a received object is that of the imperative loop in `AnswerLoop`, and it binds and
restarts with the same table functions that the imperative class in `ManagerTables` is proved
against. `ManagerLocks`, `ManagerFrame`, `ManagerFresh`, `ManagerInvariant` and `ManagerPipes` hold
the parts of the invariant, `ManagerSteps` proves that every step keeps it, `ManagerSessions`,
`ManagerBalance`, `ManagerLeaks`, `ManagerFairness` and `ManagerAnswers` prove what follows for
sessions, loads, locks, queues and answers. `ManagerOutcomes` says exactly how every step ends, and
`ManagerTheorems` states the main results about whole runs. `SmallRuns`, `DeadlockRun`, `LeakRuns` and
`ResultRun` build concrete runs.

**The transfer** is modelled twice: `SharedMemory` has the memory, the chunk reader and the sender as
imperative code, and `ChunkedTransfer` lets sender and reader interleave freely.

**The worker** is a class (`WorkerProcess`) whose message loop updates session buffers in place
(`SummaryImage.SIContext`, `HeatmapImage.HIContext`). It is proved equal, message by message, to the
function `WorkerSpec.Handle`, about which the laws of the worker are proved. The manager's channels
use the same function, so the end-to-end results reach from a pixel to the value a call returns.

**The metric** (`Metrics`) is the average that is folded when it grows too large.

## Where the code falls short

The model follows the code. These are the places where it does less than its names and comments
promise; each is a proved statement, not an assumption.

- Chunked mode never works. Chunks are as long as the memory, which also holds the flag byte, so the
  first slice assignment raises. Even with shorter chunks it would fail: the chunk reader does not
  advance, the final marker carries no length, and the reader takes an empty pipe for a signal. All
  four must change, and then it works (`ChunkedTransfer.ExactlySoundTransfers`,
  `AsWrittenVersusIntended`). So a result is delivered exactly if its dump has at most size - 1 bytes.
- Locks can stay held for ever, in exactly three ways (`ManagerLeaks.ExactLeaks`): a search lock when
  a request gives up its wait for the busy lock, a search lock when the session is gone after the
  wait for it (a `TypeError` outside any `try`), and the busy lock of a replaced process, whose pipe
  is cleared outside the `try` that releases the lock. Each happens in a concrete run:
  `LeakRuns.GivesUp`, `DeadlockRun.Deadlock`, `LeakRuns.GetsReplaced`. The second needs neither a
  timeout while a process is sought nor a restart, only a clear among other requests of its session.
  `ManagerTheorems.DeadlockFreedom` says exactly when the lock order does prevent deadlock.
- An exception from a worker carries no rack. It belongs to the request that receives it if and only
  if all answers to earlier messages have been taken (`ManagerAnswers.OwnOrForeign`), as is the case
  after a start on an idle worker (`ManagerAnswers.CleanStart`); after a cancellation it may be
  another request's (`DeadlockRun.ClearServed`). Values are always the request's own.
- The grayscale processor does not answer a clear, and drops the session from its answers, so a
  grayscale request that names a session is answered with a message it must reject
  (`WorkerSpec.OneAnswer`).
- A clear whose session is gone when it ends raises the `KeyError` of its own `del`, even if the
  worker's answer was fine (`ManagerSessions.ClearNeedsEntry`; `LeakRuns.OkButGone` is a run in which
  two clears of one session meet this way).
- Sums of more than 65,793 pictures can be wrong by binary32 rounding (`SummaryImage.ExactReach`).
- The average forgets: at the limit the whole past becomes one sample (`Metrics.ResetHalves`), so the
  report is not the average of the samples (`Metrics.AverageLost`); it is, after every sample, exactly
  if nothing new is sampled once a total of several units has been folded
  (`Metrics.ExactlyTrueAverages`). A sample with denominator 0 can make a later update divide by zero
  (`Metrics.FailureReached`).

## Assumptions

Pids, lock identities and racks are never reused. A pipe delivers objects in order and without loss.
`dumps` is any function of a message (`WorkerSpec.Env`). Python 3.13's `asyncio.wait_for` runs the
awaited code in the same task, and acquiring a lock that nobody holds or awaits does not suspend.

## Model

| member | source | states |
|---|---|---|
| `ManagerTheorems.MutualExclusion` | src/core/worker/worker_manager.py:229-333 | In every state of every run at most one request awaits an answer of a given process; it holds that process's busy lock and the process is live, so the "already restarted" exit of the restart is never taken |
| `ManagerTheorems.PipesAreExclusive` | src/core/worker/worker_manager.py:245-287 | In every step of every run, the channel of a process is changed by a request only if that request holds the busy lock before or after the step, and only by sending or taking |
| `ManagerTheorems.NoLostWakeup` | src/core/worker/worker_manager.py:75-90 | While a request without session is parked un-notified, the event is clear and every process is in use by a request that awaits its answer; a notified one can go on with any unlocked process |
| `ManagerTheorems.DeadlockFreedom` | src/core/worker/worker_manager.py:105-138 | The chain of a blocked request ends at a request waiting on its worker, or at a lock a woken request is about to take, if and only if no earlier step of the run left that lock behind |
| `ManagerTheorems.OwnAnswerDelivered` | src/core/worker/worker_manager.py:229-343 | In every run, with any cancellations, timeouts and restarts, a returned value is what the worker handed over in reaction to that very request, and an acknowledged call was acknowledged for that very request; the reaction depends only on earlier requests of the same session |
| `ManagerTheorems.SummaryReturned` | src/core/worker/worker_manager.py:394-426 | End to end: a value returned by a summary clear is the dump of the clipped sums of exactly the pictures sent to that process for the session since the one message that opened it, true sums up to 65,793 pictures a cell |
| `ManagerTheorems.HeatmapReturned` | src/core/worker/worker_manager.py:490-498 | End to end: a value returned for a heatmap upload is the dump of the normalised heat of exactly the pictures sent for the session since the one message that opened it, its own included |
| `ManagerTheorems.GrayscaleReturned` | src/core/worker/worker_manager.py:518-525 | End to end: a value returned for a grayscale request is the dump of the grey picture of its own upload |
| `ManagerTheorems.AcknowledgedIsAdded` | src/core/worker/worker_manager.py:345-348 | An acknowledged summary upload was appended to its session's pictures, and to nothing else |
| `ManagerOutcomes.Receives` | src/core/worker/worker_manager.py:286-333 | Receiving, exactly: one of the first four messages to others is skipped and counted; every other object ends the request with what it calls for, releases the process and announces that it is free; the process is replaced exactly if it is given up |
| `ManagerOutcomes.ReceiveRestarts` | src/core/worker/worker_manager.py:291-323 | After an error of the listed classes or the fifth message to others the awaited process is not live, a fresh one is, and no session is bound to it; after every other object the processes are the same |
| `ManagerOutcomes.LiveChanges` | src/core/worker/worker_manager.py:210-227 | Over all steps the processes change if and only if a process is given up or an interruption demands it |
| `ManagerOutcomes.OwnAnswerAccepted` | src/core/worker/worker_manager.py:291-343 | The converse of own-answer delivery: a request whose own answer is received ends at once with the data handed over, the acknowledgement or the error, unless it is a clear whose session is gone |
| `ManagerOutcomes.ResultsAreReturned` | src/core/worker/worker_manager.py:335-343 | Over runs: data handed over for a request is returned, for a clear if its session still has its entry, and an ok acknowledges |
| `ResultRun.ResultReturned` | src/core/worker/worker_manager.py:335-343 | A concrete run in which an upload returns the bytes the worker dumped |
| `ManagerOutcomes.Interrupted` | src/core/worker/worker_manager.py:270-325 | A timeout, cancellation or error while the answer is awaited ends the request, and replaces the process or not as demanded |
| `ManagerOutcomes.Starts` | src/core/worker/worker_manager.py:76-141 | Every request that starts ends at once, goes to its process (sending at once exactly if nobody has or awaits the busy lock), queues at the end, or parks, each exactly when the code says so |
| `ManagerOutcomes.EndsAtStart` | src/core/worker/worker_manager.py:353-379 | A clear without an entry returns None at once and an init with one raises, and nothing else changes |
| `ManagerOutcomes.ClearAtStart` | src/core/worker/worker_manager.py:367-414 | Over runs: a clear of an unknown session returns None in its first step and changes nothing else; with an entry it does not end in that step |
| `ManagerOutcomes.WakesForSearch` | src/core/worker/worker_manager.py:105-114 | A request that gets the search lock goes to its session's process, or fails without an entry |
| `ManagerOutcomes.WakesForEvent` | src/core/worker/worker_manager.py:77-90 | A woken request without session clears the event and scans again |
| `ManagerOutcomes.WakesForBusy` | src/core/worker/worker_manager.py:110-114 | A request that gets the busy lock empties the pipe and sends its message, or finds the pipe of a replaced process closed |
| `ManagerOutcomes.GivesUp` | src/core/worker/worker_manager.py:233-239 | A request that gives up looking for a process ends with that error, and a clear drops its session even then |
| `ManagerOutcomes.ReplacedIsSilent` | src/core/worker/worker_manager.py:186-208 | In every step the pipe and memory of a replaced process stay as they are |
| `ManagerOutcomes.ReplacedForever` | src/core/worker/worker_manager.py:186-218 | Over runs: a replaced process never comes back, and nothing ever happens to its pipe and memory again |
| `ManagerOutcomes.CanStart` | src/core/worker/worker_manager.py:335-426 | Any call can start in any reachable state |
| `ManagerOutcomes.CanEnd` | src/core/worker/worker_manager.py:234-239 | A call that is not over can always be given up or interrupted, with and without a restart |
| `ManagerFairness.StepQueues` | src/core/worker/worker_manager.py:105-137 | Every step keeps the order in every lock's queue; a newcomer comes to the end |
| `ManagerFairness.StepInTurn` | src/core/worker/worker_manager.py:83-137 | A lock is taken only by the head of its queue, or by a newcomer if there is no queue |
| `ManagerFairness.NoOvertaking` | src/core/worker/worker_manager.py:105-137 | Over runs: of two requests queued for a lock, the one in front stays in front |
| `ManagerFairness.FirstComeFirstServed` | src/core/worker/worker_manager.py:105-137 | Over runs: while two requests wait for a lock, the later one does not get it |
| `ManagerSessions.StepEffect` | src/core/worker/worker_manager.py:97-141 | Every step of a request writes at most the new entry of its own session, removes at most its own session (a clear) or those of the process it replaced, moves no other request except to notify it, and binds itself to its session's live process |
| `ManagerSessions.EntryFixed` | src/core/worker/worker_manager.py:121-131 | An entry's process is written once: while a session has the same search lock it has the same process |
| `ManagerSessions.BoundToEntry` | src/core/worker/worker_manager.py:107-114 | A request that comes to be bound is bound to its session's process, which is live |
| `ManagerSessions.Affinity` | src/core/worker/worker_manager.py:97-141 | Two requests of a session bound while the session has the same entry are bound to the same process, whatever happens in between |
| `ManagerSessions.LoadBound` | src/core/worker/worker_manager.py:115-131 | Over any run of binds, clears and restarts: if never more than k sessions were held at once, no process carries more than ceil(k/n) |
| `ManagerSessions.SessionMap` | src/core/worker/worker_manager.py:99-131 | At every suspension point there are n processes and every session is linked to one of them, so the "no process linked" exits of both clears are unreachable |
| `ManagerSessions.ClearUnbinds` | src/core/worker/worker_manager.py:367-426 | However a clear ends, its session has no entry afterwards, and what its last step removed besides belonged to the process it replaced |
| `ManagerSessions.ClearNeedsEntry` | src/core/worker/worker_manager.py:381-426 | Whatever the worker answered, a clear returns its result exactly if its session still has an entry when it ends; otherwise it raises the KeyError of its own removal |
| `ManagerSteps.StepGood` | src/core/worker/worker_manager.py:52-333 | Every step of requests and workers keeps the whole invariant: locks, identities, tables, parked requests and pipes |
| `ManagerSteps.RunGood` | src/core/worker/worker_manager.py:34-50 | The invariant holds at every moment of every run from at least one process |
| `ManagerSteps.StepPipes` | src/core/worker/worker_manager.py:245-343 | Every step keeps the pipe invariant: messages in a pipe belong to their own senders, a waiting request sent the last one, and every result was handed over for its request |
| `ManagerSteps.VerdictServed` | src/core/worker/worker_process/transport_utils.py:164-165 | When a request is about to return, the received object ends the worker's reaction to that request, and the bytes read from the memory are the data of that reaction |
| `ManagerLocks.StepLocks` | src/core/worker/worker_manager.py:78-138 | Every step keeps queues and holders in agreement with where the requests are; answers are awaited from live processes only |
| `ManagerFresh.StepFresh` | src/core/worker/worker_manager.py:100-101 | Process and lock identities are never reused: what has not been handed out has no lock, channel or entry |
| `ManagerInvariant.BindTables` | src/core/worker/worker_manager.py:116-131 | Binding a new session to a least loaded process keeps n processes, the links and every load within its share |
| `ManagerInvariant.RestartTables` | src/core/worker/worker_manager.py:210-227 | A restart keeps n processes, leaves no session linked to the replaced one and keeps every load within its share |
| `ManagerPipes.OwnReaction` | src/core/worker/worker_manager.py:259-309 | If the next object carries the rack of the last message sent, the worker has taken every message, has nothing left to do, and the object ends its reaction to that message |
| `ManagerPipes.OwnAnswer` | src/core/worker/worker_process/transport_utils.py:140-165 | Moreover, what it announces is exactly what lies in the transfer memory |
| `ManagerPipes.RackOfAnswer` | src/core/worker/worker_process/worker.py:92-107 | Every answer message carries the rack of one of the messages answered |
| `ManagerPipes.TakenOk` | src/core/worker/worker_process/worker.py:70-74 | When the worker takes a message the pipe stays first in, first out |
| `ManagerPipes.ActedOk` | src/core/worker/worker_process/transport_utils.py:141-154 | Each action of the worker keeps the pipe in order and announced data in the memory |
| `ManagerPipes.SentOk` | src/core/worker/worker_manager.py:245-257 | Clearing the pipe and sending a message with a fresh rack keeps the channel invariant |
| `ManagerBalance.StepTables` | src/core/worker/worker_manager.py:97-131 | Every step either binds one new session to a least loaded process, or makes no session appear and replaces at most one process, whose sessions are gone |
| `ManagerBalance.EvenLoads` | src/core/worker/worker_manager.py:116-131 | In every run that has not lost a session, whatever else happened, every process carries the floor or the ceiling of sessions per process |
| `ManagerLeaks.ExactLeaks` | src/core/worker/worker_manager.py:105-138 | A lock has a holder that has ended after a step exactly if it had one before or the step is one of three: giving up the wait for a busy lock while holding a search lock, finding the session gone after getting the search lock, getting the busy lock of a replaced process |
| `ManagerLeaks.LeakHistory` | src/core/worker/worker_manager.py:105-138 | Over a whole run a lock is leaked if and only if an earlier step leaked it |
| `ManagerLeaks.LockOrder` | src/core/worker/worker_manager.py:105-138 | Unless the lock is leaked, the holder of a search lock waits for a busy lock and the holder of a busy lock waits for the worker of that process, for no lock |
| `ManagerLeaks.ChainEnds` | src/core/worker/worker_manager.py:105-138 | The chain of a blocked request ends in exactly one of three ways: at a lock about to be taken, at a request waiting on its worker, at a leaked lock |
| `ManagerLeaks.StuckForever` | src/core/worker/worker_manager.py:105-138 | A request behind a leaked lock stays where it is until it gives up itself, whatever everybody else does |
| `ManagerLeaks.StepKept` | src/core/worker/worker_manager.py:112-138 | A step of a request takes and gives back locks of that request only, and if it ends, what it still owns is exactly what the step is said to leak |
| `DeadlockRun.ClearServed` | src/core/worker/worker_manager.py:291-292 | A concrete run without abandoned searches and restarts in which a clear fails with the error of an earlier, cancelled request |
| `DeadlockRun.Deadlock` | src/core/worker/worker_manager.py:105-107 | That run goes on to a deadlock: a request waits for a search lock whose holder has ended |
| `LeakRuns.GivesUp` | src/core/worker/worker_manager.py:107-112 | A concrete run in which a clear gives up waiting for the busy lock and leaves the search lock held, with a request of its session blocked behind it |
| `LeakRuns.GetsReplaced` | src/core/worker/worker_manager.py:243-251 | A concrete run in which a request gets the busy lock of a replaced process, fails, and leaves the lock held |
| `LeakRuns.OkButGone` | src/core/worker/worker_manager.py:381-392 | A concrete run of two clears of one session in which the worker says ok to both and the second still ends with the KeyError of its own removal |
| `ManagerAnswers.PipeUse` | src/core/worker/worker_manager.py:245-287 | One step: only the holder of the busy lock changes the channel, and only the manager's part of it |
| `ManagerAnswers.AnswerOf` | src/core/worker/worker_process/worker.py:92-107 | The k-th answer to a trace is the one reply to exactly one of its messages |
| `ManagerAnswers.OwnOrForeign` | src/core/worker/worker_manager.py:287-307 | An object in the pipe, message or exception, answers the last message sent if and only if all answers to earlier messages have been taken |
| `ManagerAnswers.SkippedIsForeign` | src/core/worker/worker_manager.py:297-307 | A message that the loop skips is never the answer to its own request |
| `ManagerAnswers.CleanStart` | src/core/worker/worker_manager.py:243-249 | What clearing the pipe is for: if the worker had answered everything when the message was sent, every object the request receives, errors included, is the answer to that very message |
| `ManagerAnswers.StaysClean` | src/core/worker/worker_manager.py:243-309 | Once all earlier answers are out of the pipe, that stays so until the request ends, whatever others do |
| `ManagerAnswers.NeverStarves` | src/core/worker/worker_manager.py:259-309 | In every run, while a request that the worker answers fittingly awaits its answer, it has something to receive or the worker has work to do |
| `AnswerLoop.WaitForData` | src/core/worker/worker_manager.py:263-284 | One wait: false alarms are skipped; it fails exactly at the twentieth in a row or at the timeout |
| `AnswerLoop.AwaitAnswer` | src/core/worker/worker_manager.py:259-309 | For any objects and wake-ups the loop ends at its decisive object, in the way that object calls for, if it sees one in time, and otherwise by the timeout or false-alarm error; the two counters bound it |
| `AnswerLoop.ExactlyAccepts` | src/core/worker/worker_manager.py:291-309 | It accepts if and only if some first matching message comes after foreign messages only, at most four of them, before twenty false alarms in a row; and then exactly that message |
| `AnswerLoop.AlarmLimit` | src/core/worker/worker_manager.py:265-281 | Nineteen false alarms in a row are survived, twenty are not |
| `AnswerLoop.JudgesAlike` | src/core/worker/worker_manager.py:291-323 | The step machine judges a received object as the loop does, count by count, and asks for a restart exactly after an error of the listed classes or the fifth foreign message |
| `SessionTable.Pigeonhole` | src/core/worker/worker_manager.py:125-129 | The loads of any set of processes add up to the sessions bound to them, within low and high bounds |
| `SessionTable.ShareIsCeiling` | src/core/worker/worker_manager.py:125-129 | The share used in the load bounds is the rounded-up quotient |
| `SessionTable.BindWithinShare` | src/core/worker/worker_manager.py:116-131 | Binding to a least loaded process keeps every load within ceil(peak/n) |
| `SessionTable.BalancedIsEven` | src/core/worker/worker_manager.py:116-131 | If loads differ by at most one, each is the floor or the ceiling of sessions per process |
| `SessionTable.BindsAreEven` | src/core/worker/worker_manager.py:116-131 | After k binds from an empty table every process carries floor(k/n) or ceil(k/n) sessions |
| `ManagerTables.WorkerProcessManager.constructor` | src/core/worker/worker_manager.py:34-50 | Starts the given number of distinct processes, with no session |
| `ManagerTables.WorkerProcessManager.StartProcess` | src/core/worker/worker_manager.py:143-184 | A process with an identity never used before |
| `ManagerTables.WorkerProcessManager.BindToProcess` | src/core/worker/worker_manager.py:115-131 | Both branches of the allocator choose a least loaded process and write only that session's entry; it raises exactly when there is no process |
| `ManagerTables.WorkerProcessManager.CountLoads` | src/core/worker/worker_manager.py:125-128 | The counting loop finds exactly the processes with sessions and their loads |
| `ManagerTables.WorkerProcessManager.RestartProcess` | src/core/worker/worker_manager.py:210-227 | Removes exactly the sessions of the process and replaces it by a fresh one; does nothing for an unknown process |
| `ManagerTables.WorkerProcessManager.DropSession` | src/core/worker/worker_manager.py:390-392 | Removes the entry, with a KeyError exactly if it is gone |
| `WorkerSpec.OneAnswer` | src/core/worker/worker_process/worker.py:92-107 | A request is answered exactly once, last of all its actions, unless it is a grayscale clear; the answer is an exception or carries the request's rack and session, exactly unless a grayscale request named a session |
| `WorkerSpec.ExactReactions` | src/core/worker/worker_process/worker.py:92-107 | Exactly which request gets which answer: ok, an error that makes the manager restart, data with its announcement if it leaves room for the flag byte, nothing, or another error |
| `WorkerSpec.AnswersInOrder` | src/core/worker/worker_process/worker.py:70-107 | Over any trace the pipe receives one answer per answered request, in the order of the requests |
| `WorkerSpec.Local` | src/core/worker/worker_process/worker.py:92-107 | A message changes the state of its own session only, and its answer depends on that state only |
| `WorkerSpec.Noninterference` | src/core/worker/worker_process/worker.py:70-107 | After any trace the state of a session is that of a replay of only its own messages |
| `WorkerSpec.AnswersDependOnOwnSession` | src/core/worker/worker_process/worker.py:70-107 | What the worker does for a message depends only on earlier messages of the same session |
| `WorkerSpec.SessionHistory` | src/core/worker/worker_process/processors/realizations/summary_image_processor.py:40-109 | Every session was opened by a message before which it was not there and after which nothing has ended it, and it holds exactly the pictures uploaded since, whatever came in between |
| `WorkerSpec.SessionLasts` | src/core/worker/worker_process/processors/realizations/heatmap_image_processor.py:45-139 | Conversely, what was opened and not ended since is there, with all pictures since |
| `WorkerSpec.OneOpening` | src/core/worker/worker_process/processors/realizations/heatmap_image_processor.py:48-50 | There is only one such opening |
| `WorkerSpec.SummaryOfSession` | src/core/worker/worker_process/processors/realizations/summary_image_processor.py:111-139 | A clear hands over the clipped sums of exactly the pictures uploaded since the message that opened the session, and forgets the session |
| `WorkerSpec.HeatmapOfSession` | src/core/worker/worker_process/processors/realizations/heatmap_image_processor.py:78-130 | An upload is answered with the normalised heat of exactly the pictures since the message that opened the session, its own included |
| `WorkerProcess.Worker.InitSession` | src/core/worker/worker_process/processors/realizations/summary_image_processor.py:40-72 | The in-place operation has exactly the specified effect on dictionary, pipe and memory; same for the next rows |
| `WorkerProcess.Worker.OpenSession` | src/core/worker/worker_process/processors/realizations/summary_image_processor.py:47-62 | The session appears with a buffer of zeros, in fresh memory |
| `WorkerProcess.Worker.AddPicture` | src/core/worker/worker_process/processors/realizations/summary_image_processor.py:95-99 | The session's picture list grows by the picture; no other session's buffer changes |
| `WorkerProcess.Worker.ProcessSummary` | src/core/worker/worker_process/processors/realizations/summary_image_processor.py:74-109 | Adds the picture and says ok, or raises and changes nothing |
| `WorkerProcess.Worker.ProcessHeatmap` | src/core/worker/worker_process/processors/realizations/heatmap_image_processor.py:78-130 | Adds the picture and hands over the new map, or raises |
| `WorkerProcess.Worker.ProcessGrayscale` | src/core/worker/worker_process/processors/realizations/grayscale_image_processor.py:19-48 | Answers without keeping anything |
| `WorkerProcess.Worker.ClearSession` | src/core/worker/worker_process/processors/realizations/summary_image_processor.py:111-139 | Each processor's clear, with its own answer: the summary, ok, or none |
| `WorkerProcess.Worker.Turn` | src/core/worker/worker_process/worker.py:92-107 | One turn of the message loop, including what is raised, has exactly the specified effect |
| `WorkerProcess.Worker.Run` | src/core/worker/worker_process/worker.py:70-107 | After any trace the dictionary of in-place buffers is the replay of the trace and the pipe holds its answers |
| `WorkerProcess.TransmitMessage` | src/core/worker/worker_process/transport_utils.py:101-154 | Handing a message over does to memory and pipe what the specification says, with the program's own chunk length and chunk reader |
| `SharedMemory.ReadBack` | src/core/worker/worker_process/transport_utils.py:70-80 | Reading the announced length gives the data, whatever was in the memory before, and the flag is cleared |
| `SharedMemory.SharedMemoryWrap.WriteData` | src/core/worker/worker_process/transport_utils.py:70-77 | The slice assignment succeeds exactly if the data leaves room for the flag byte; otherwise nothing changes |
| `SharedMemory.SharedMemoryWrap.ReadData` | src/core/worker/worker_process/transport_utils.py:79-80 | The bytes after the flag, cut at the end of the memory |
| `SharedMemory.ReadNoCopyIO.Read` | src/utils/io.py:29-32 | The slice at the position; the position moves only in the advancing version |
| `SharedMemory.RetrySendOnReady` | src/core/worker/worker_process/transport_utils.py:83-98 | Gives up exactly if ten polls in a row find the flag clear; otherwise writes what ReadData gives back |
| `SharedMemory.SendChunks` | src/core/worker/worker_process/transport_utils.py:113-139 | The chunk loop: chunks of the memory's size crash at the first write, a reader that stands still repeats the first chunk until the sender gives up, and the intended form writes a prefix, all of the data exactly if it does not give up |
| `SharedMemory.SendToSharedMemory` | src/core/worker/worker_process/transport_utils.py:101-154 | Single shot is right exactly for data of at most size - 1 bytes; chunks of the memory's size crash at the first write; a reader that stands still repeats the first chunk until the sender gives up; the intended form writes a prefix, all of the data exactly if it does not give up |
| `ChunkedTransfer.PollsTenTimes` | src/core/worker/worker_process/transport_utils.py:83-98 | A sender with something to send polls a clear flag ten times and then gives up with its error |
| `ChunkedTransfer.AlwaysPrefix` | src/core/worker/worker_process/transport_utils.py:83-189 | In every interleaving of the intended transfer the reader's buffer is a prefix of the payload, the whole payload when it completes; the sender never crashes, and the reader fails only by receiving the error of a sender that gave up |
| `ChunkedTransfer.NoOverwrite` | src/core/worker/worker_process/transport_utils.py:92-98 | Whenever the data in the memory changes, everything written before has been copied |
| `ChunkedTransfer.RunsEnd` | src/core/worker/worker_process/transport_utils.py:83-189 | Every interleaving is finite, with a bound linear in the payload |
| `ChunkedTransfer.EndsDeliveredOrGivenUp` | src/core/worker/worker_process/transport_utils.py:83-189 | A run that cannot go on has delivered the payload, or the sender gave up, the reader got its error, and the buffer is exactly what had been sent |
| `ChunkedTransfer.Deliver` | src/core/worker/worker_process/transport_utils.py:166-183 | From every reachable state in which the sender's current chunk has not missed a poll, some schedule delivers the payload |
| `ChunkedTransfer.ExactlySoundTransfers` | src/core/worker/worker_process/transport_utils.py:109-189 | The transfer works if and only if chunks are non-empty and leave room for the flag, the chunk reader advances, the final marker is empty, and the reader waits for signals |
| `ChunkedTransfer.AsWrittenVersusIntended` | src/core/worker/worker_process/transport_utils.py:109-189 | The text as written announces nothing and crashes at its first write, for every payload larger than the memory, and only the error goes through the pipe; the intended text transfers every payload |
| `PipeTransport.BlockingRetryBody` | src/core/worker/worker_process/transport_utils.py:192-230 | The first settling attempt decides if it is among the first ten, and no call is made after it; otherwise ten calls and the error |
| `PipeTransport.ClearPipe` | src/core/worker/worker_process/transport_utils.py:253-263 | Empties the pipe and counts the objects that could be received |
| `Pictures.CoverageNext` | src/core/worker/worker_process/processors/realizations/summary_image_processor.py:97-98 | A picture counts at exactly the rows and columns it has |
| `SummaryImage.TrueSumNext` | src/core/worker/worker_process/processors/realizations/summary_image_processor.py:95-99 | One more picture adds its red, green and blue to exactly the cells it has a pixel for |
| `SummaryImage.OnePicture` | src/core/worker/worker_process/processors/realizations/summary_image_processor.py:95-117 | The summary of one picture is its top left corner, in red, green and blue, on black |
| `SummaryImage.RoundNearest` | src/core/worker/worker_process/processors/realizations/summary_image_processor.py:47-50 | Binary32 rounding gives a number of 24 bits, none is nearer, ties go to the even one |
| `SummaryImage.SpacingExact` | src/core/worker/worker_process/processors/realizations/summary_image_processor.py:47-50 | Beyond 2^24 a number has between 2^23 and 2^24 spacings |
| `SummaryImage.StoredSumExact` | src/core/worker/worker_process/processors/realizations/summary_image_processor.py:95-99 | While at most 65,793 pictures cover a cell, binary32 accumulation holds the true sum over exactly the covering pictures |
| `SummaryImage.FirstLoss` | src/core/worker/worker_process/processors/realizations/summary_image_processor.py:95-99 | 65,794 concrete pictures whose sum the buffer loses |
| `SummaryImage.ExactReach` | src/core/worker/worker_process/processors/realizations/summary_image_processor.py:95-99 | k covering pictures are summed exactly, whatever they are, if and only if k <= 65,793 |
| `SummaryImage.TrueSumOrderFree` | src/core/worker/worker_process/processors/realizations/summary_image_processor.py:95-99 | The sum does not depend on the order of the pictures |
| `SummaryImage.SIContext.constructor` | src/core/worker/worker_process/processors/realizations/summary_image_processor.py:47-59 | A zero buffer holds the sum of no pictures |
| `SummaryImage.SIContext.Accumulate` | src/core/worker/worker_process/processors/realizations/summary_image_processor.py:97-99 | The in-place clipped addition makes the buffer the stored sum of one more picture |
| `SummaryImage.SIContext.Snapshot` | src/core/worker/worker_process/processors/realizations/summary_image_processor.py:117-117 | The buffer, cell for cell, is the stored sum of the session's pictures |
| `HeatmapImage.Gray` | src/core/worker/worker_process/processors/realizations/heatmap_image_processor.py:96-101 | Between 0 and 1; 0 exactly for black and 1 exactly for white |
| `HeatmapImage.GrayWeights` | src/core/worker/worker_process/processors/realizations/heatmap_image_processor.py:96-101 | A thousand times the brightness is 299, 587 and 114 times the red, green and blue parts |
| `HeatmapImage.HeatIsLuma` | src/core/worker/worker_process/processors/realizations/heatmap_image_processor.py:100-105 | The heat of a cell is the weighted sum of red, green and blue over exactly the pictures that have a pixel there |
| `HeatmapImage.AnswerIsLuma` | src/core/worker/worker_process/processors/realizations/heatmap_image_processor.py:37-43 | On the pixels themselves: the brightest cell shows as 255 and every other in proportion to its weighted sum |
| `HeatmapImage.BesideWhite` | src/core/worker/worker_process/processors/realizations/heatmap_image_processor.py:96-110 | With a white pixel in view a cell of a single picture shows 0.299, 0.587 and 0.114 parts of its red, green and blue, and 0 outside the picture |
| `HeatmapImage.NoMapWithoutCells` | src/core/worker/worker_process/processors/realizations/heatmap_image_processor.py:39-39 | There is a map exactly if the buffer has cells |
| `HeatmapImage.HeatBounds` | src/core/worker/worker_process/processors/realizations/heatmap_image_processor.py:103-105 | A cell lies between 0 and the number of pictures covering it |
| `HeatmapImage.HeatGrows` | src/core/worker/worker_process/processors/realizations/heatmap_image_processor.py:103-105 | More pictures never decrease a cell, and increase it by at most one each |
| `HeatmapImage.GridMax` | src/core/worker/worker_process/processors/realizations/heatmap_image_processor.py:39-39 | An attained upper bound of the cells |
| `HeatmapImage.HeatmapShape` | src/core/worker/worker_process/processors/realizations/heatmap_image_processor.py:37-43 | The map has the buffer's shape and lies in 0..255, attains 255 exactly unless the buffer is all zero, and orders cells as the buffer does, in both directions |
| `HeatmapImage.AnswerRanksHeat` | src/core/worker/worker_process/processors/realizations/heatmap_image_processor.py:100-110 | For any pictures, the map a client sees ranks two cells exactly as their accumulated heat does |
| `HeatmapImage.HIContext.Accumulate` | src/core/worker/worker_process/processors/realizations/heatmap_image_processor.py:103-105 | The in-place clipped addition makes the buffer the heat of one more picture |
| `HeatmapImage.HIContext.Snapshot` | src/core/worker/worker_process/processors/realizations/heatmap_image_processor.py:109-111 | The buffer, cell for cell, is the heat of the session's pictures |
| `Metrics.MetricsManager.constructor` | src/utils/metrics/manager.py:32-51 | One metric per name, all distinct, all at zero |
| `Metrics.MetricsManager.UpdateAverageMetric` | src/utils/metrics/manager.py:61-79 | Adds the sample, folding first at the limit; unknown names and divisions by zero change nothing; other metrics never change |
| `Metrics.MetricsManager.AverageOf` | src/utils/metrics/manager.py:92-94 | Reports the quotient, or 0 before the first sample |
| `Metrics.ReportBetweenSamples` | src/utils/metrics/manager.py:61-94 | Through any number of resets the report lies between the least and the greatest sample, and no update divides by zero |
| `Metrics.NeverLarge` | src/utils/metrics/manager.py:70-76 | With one unit per sample of at most m the denominator never exceeds 1,000,000 and the numerator never max(2m, 1,000,000 + m) |
| `Metrics.FirstReports` | src/utils/metrics/manager.py:92-94 | 0 is reported before the first sample, and the sample after it |
| `Metrics.FirstMillion` | src/utils/metrics/manager.py:70-76 | The first million samples are averaged exactly, unless their sum reaches a million |
| `Metrics.TrueBelowLimit` | src/utils/metrics/manager.py:61-79 | Until the limit is first reached sum and count are exact, whatever the denominators; the next rows give the exact conditions |
| `Metrics.CountsUntilFolded` | src/utils/metrics/manager.py:61-79 | Sum and count are exact if and only if no total of more than one unit has been folded; from then on the count is too small |
| `Metrics.ExactUpdate` | src/utils/metrics/manager.py:70-79 | One update reports the true average if and only if it does not fold, folds a single unit, or adds the average itself |
| `Metrics.ExactlyTrueAverages` | src/utils/metrics/manager.py:61-94 | The report is the true average after every sample if and only if, once a total of several units has been folded, every further sample equals the average so far |
| `Metrics.AverageLost` | src/utils/metrics/manager.py:61-94 | Three samples, one million and twice zero, after which the report is a quarter instead of a third of a million |
| `Metrics.ResetHalves` | src/utils/metrics/manager.py:70-76 | After a reset the next sample weighs as much as all before it |
| `Metrics.FailsExactly` | src/utils/metrics/manager.py:71-73 | An update divides by zero exactly at a large numerator over a zero denominator |
| `Metrics.FailureReached` | src/utils/metrics/manager.py:61-76 | One sample with denominator 0 reaches that state |

## Left out

- WebSocket sessions, FastAPI, message schemas, settings, logging, the wrappers of `CPUCommands`: plumbing around the parts above.
- Operating system processes, file descriptors, readers and wait threads, `stop_processes`: a process is a fresh identity with a sequential server, a pipe two queues.
- Real time: expiry, cancellation and sleeps are nondeterministic steps; only the counters are kept.
- The cancelled-waiter window of `asyncio.Lock`: leaving a queue and handing the wake-up on are one step.
- A worker that dies by itself, a full pipe at line 254 and unreadable bytes while an answer is received: in the step machine they are the interruption of a request, with or without restart.
- Messages and exceptions a worker could send that its code never sends; the manager's chunk branch in the step machine, which no announced message of the program reaches.
- Pickle: `dumps` is abstract, and a returned value is the dump of the answer message rather than the `data` field that `loads` extracts.
- Pillow: uploads are what Pillow decodes them to, answers the arrays before encoding; the `np.uint8` cast, mode "L" and JPEG quality are not modelled.
- `ReadNoCopyIO.seek` and `close`, gauge metrics, the text of the metrics report, the processor factory, the abort flag of the message loop, which nothing sets.
- HeatmapImage.Gray: grey levels and heat are real numbers, because binary32 rounding is not the point of the heatmap; the summary buffer is rounded exactly.
- Metrics.ReportBetweenSamples: floats are real numbers here as well.
- ManagerTables.WorkerProcessManager.StartProcess: pipes, transfer memory, event, wait thread and the start of the worker are not part of this class; the step machine gives every process its channel and memory.
- ManagerTables.WorkerProcessManager.BindToProcess: which of several least loaded processes is chosen depends on set and dictionary order in the program; here any of them may be.
- ManagerTables.WorkerProcessManager.CountLoads: dictionary loops visit the entries in any order, because the result does not depend on it.
- AnswerLoop.AwaitAnswer: objects arrive at wake-ups only, because between two waits the loop does not suspend.
- PipeTransport.ClearPipe: a pipe that stays readable but always raises BlockingIOError or EOFError would make the program's loop spin; the model's objects are consumed when they are received.
- ManagerTheorems.NoLostWakeup: says that a wake-up is never missed, not that a woken request is served before others, which the program does not promise; order is promised by the locks' queues only (ManagerFairness).
- ManagerAnswers.NeverStarves: says that something can always happen next, not that the scheduler lets it happen.
