/** The messages exchanged between the manager and a worker process. */
module Messages {
  import opened Wrappers
  import opened Pictures
  import HeatmapImage

  type SessionId = string

  /** The request/answer correlation key; the program draws a fresh uuid for every request. */
  type Rack = nat

  datatype Command = SummaryImage | HeatmapImage | GrayscaleImage

  datatype MessageType =
    // from manager to worker
    | Data | Clear | InitSession
    // from worker to manager
    | Ok | CheckSharedMemory | ChunkSharedMemory | ChunkSharedMemoryFin

  /** The `data` field. An uploaded picture is given by what Pillow decodes it to, if it can. */
  datatype Content =
    | Nothing
    | SessionShape(width: int, height: int)
    | Upload(decoded: Option<Image>)
    | Length(bytes: nat)
    | SummaryPicture(sums: seq<seq<seq<nat>>>)
    | HeatPicture(heat: HeatmapImage.Grid)
    | GrayPicture(source: Image)

  datatype WorkerMessage = WorkerMessage(
    kind: MessageType,
    rack: Rack,
    command: Option<Command>,
    content: Content,
    session: Option<SessionId>)

  /** What an exception means to the manager: only the first group makes it restart the process
      (BlockingIOError, BrokenPipeError, TimeoutError, UnidentifiedImageError and the other
      subclasses of OSError, WorkerCriticalError and PipeMessageReceiveTimeout). */
  datatype Error = Restarting | Other

  /** An object the worker puts into its pipe. */
  datatype Reply = Message(message: WorkerMessage) | Raised(error: Error)
}
