/**
 The sink server (`lab/tcp_sink.py`) as a concurrent program: handler threads, the
 serving thread, the snapshot thread and `quiesce`. One step is one lock-protected
 region; a run is any sequence of enabled steps.
 */
module SinkServer {
  import opened Outcomes
  import opened SinkConnection

  /** Where a handler thread stands between two regions. */
  datatype Stage = Unstarted | Receiving | Counted | Recorded(at: int) | AtEof | Closing | Finished | Popped

  /** `total` is what the handler has received, `natural` what it decided about its end. */
  datatype Handler = Handler(stage: Stage, total: nat, natural: bool)

  datatype Serving = Off | Idle | Spawning(id: nat) | SpawnFailed(id: nat) | SpawnRecorded(id: nat)

  datatype Lifecycle = Running | Quiescing | Quiesced | Failed

  datatype Quiesce =
    | NotCalled | StopAccepting | AwaitServing | Drain | JoinSnapshot | SetFlags | FinalFlush | Succeeding
    | Rescue | RescueFlush | Failing | Returned

  datatype SnapshotThread = Waiting | Flushing | Stopped

  datatype Owner = BySnapshotThread | ByFinalFlush | ByRescue

  datatype FlushStage = ReadRows | ReadLifecycle | ReadReceipts | Write | MarkRows(next: nat) | MarkLifecycle

  /** A flush in progress; `flush_lock` allows one at a time. */
  datatype Flush = Flush(
    owner: Owner, stage: FlushStage, count: nat, rows: seq<Row>, generations: seq<nat>, dirty: bool,
    quiesced: bool, finalized: bool, lifecycleGeneration: nat, receipts: seq<Receipt>)

  /** The progress file; the merged gap of a finalised snapshot is that of its `receipts`. */
  datatype Snapshot = Snapshot(quiesced: bool, finalized: bool, rows: seq<Row>, receipts: seq<Receipt>)

  /** `closed` says that the listening socket is closed, so nothing can be accepted any more. */
  datatype Server = Server(
    conns: seq<Connection>, handlers: seq<Handler>, active: set<nat>, receipts: seq<Receipt>,
    serving: Serving, lifecycle: Lifecycle, quiesced: bool, finalized: bool,
    lifecycleGeneration: nat, flushedLifecycle: int,
    stopSnapshot: bool, thread: SnapshotThread, quiesce: Quiesce, flush: Option<Flush>, disk: Snapshot, closed: bool)

  /** After the constructor's forced flush: an empty snapshot, nothing dirty. */
  const Initial := Server([], [], {}, [], Off, Running, false, false, 0, 0, false, Waiting, NotCalled, None, Snapshot(false, false, [], []), false)

  datatype Step =
    | StartServing | StopServing | Accept(wall: nat) | Spawn | SpawnFails | FailRecord(at: int, wall: nat) | FailPop
    | Receive(id: nat, bytes: nat) | RecordReceived(id: nat, at: int, wall: nat) | PublishReceipt(id: nat)
    | ReceiveFails(id: nat) | ReceiveEnds(id: nat) | CheckQuiescing(id: nat)
    | RecordFinal(id: nat, at: int, wall: nat) | Pop(id: nat)
    | CallQuiesce | CheckServing(own: bool) | ServingStopped | Drained | DrainTimeout | SnapshotJoined | JoinTimeout | Finalize
    | QuiesceReturns | CloseServer | SnapshotTick | SnapshotExit
    | BeginFlush(owner: Owner) | FlushStep | WriteSnapshot(ok: bool)

  // ----- steps of the serving thread -----

  function StepServing(s: Server, step: Step): Option<Server> {
    match step
    case StartServing => if s.serving.Off? && !s.closed then Some(s.(serving := Idle)) else None
    case StopServing => if s.serving.Idle? then Some(s.(serving := Off)) else None
    case Accept(wall) =>
      if s.serving.Idle? && !s.closed then
        var id := |s.conns|;
        Some(s.(conns := s.conns + [Fresh(wall)], handlers := s.handlers + [Handler(Unstarted, 0, false)], active := s.active + {id}, serving := Spawning(id)))
      else None
    case Spawn =>
      if s.serving.Spawning? && s.serving.id < |s.handlers| then
        Some(s.(handlers := s.handlers[s.serving.id := Handler(Receiving, 0, false)], serving := Idle))
      else None
    case SpawnFails => if s.serving.Spawning? then Some(s.(serving := SpawnFailed(s.serving.id))) else None
    case FailRecord(at, wall) =>
      if s.serving.SpawnFailed? && s.serving.id < |s.conns| then
        Some(s.(conns := Recording(s.conns, s.serving.id, 0, false, at, wall), serving := SpawnRecorded(s.serving.id)))
      else None
    case FailPop =>
      if s.serving.SpawnRecorded? && s.serving.id < |s.handlers| then
        Some(s.(active := s.active - {s.serving.id}, handlers := s.handlers[s.serving.id := Handler(Popped, 0, false)], serving := Idle))
      else None
    case _ => None
  }

  /** `record_progress`; a refused record raises and leaves the connection alone. */
  function Recording(conns: seq<Connection>, id: nat, total: nat, final: bool, at: int, wall: nat): seq<Connection>
    requires id < |conns|
  {
    match Record(conns[id], total, final, at, wall)
    case Ok(c) => conns[id := c]
    case Err(_) => conns
  }

  // ----- steps of a handler thread -----

  function Moved(s: Server, id: nat, h: Handler): Server
    requires id < |s.handlers|
  {
    s.(handlers := s.handlers[id := h])
  }

  function StepHandler(s: Server, id: nat, step: Step): Option<Server>
    requires id < |s.handlers| && id < |s.conns|
  {
    var h := s.handlers[id];
    match step
    case Receive(_, bytes) => if h.stage.Receiving? && bytes > 0 then Some(Moved(s, id, Handler(Counted, h.total + bytes, false))) else None
    case RecordReceived(_, at, wall) =>
      if h.stage.Counted? then
        var grew := Record(s.conns[id], h.total, false, at, wall).Ok?;
        Some(Moved(s, id, h.(stage := if grew then Recorded(at) else Closing)).(conns := Recording(s.conns, id, h.total, false, at, wall)))
      else None
    case PublishReceipt(_) =>
      if h.stage.Recorded? then
        Some(Moved(s, id, h.(stage := Receiving)).(receipts := s.receipts + [Receipt(h.stage.at, id, h.total)]))
      else None
    case ReceiveFails(_) => if h.stage.Receiving? then Some(Moved(s, id, h.(stage := Closing, natural := false))) else None
    case ReceiveEnds(_) => if h.stage.Receiving? then Some(Moved(s, id, h.(stage := AtEof))) else None
    case CheckQuiescing(_) => if h.stage.AtEof? then Some(Moved(s, id, h.(stage := Closing, natural := s.lifecycle.Running?))) else None
    case RecordFinal(_, at, wall) =>
      if h.stage.Closing? then
        Some(Moved(s, id, h.(stage := Finished)).(conns := Recording(s.conns, id, h.total, h.natural, at, wall)))
      else None
    case Pop(_) => if h.stage.Finished? then Some(Moved(s, id, h.(stage := Popped)).(active := s.active - {id})) else None
    case _ => None
  }

  // ----- steps of quiesce -----

  function StepQuiesce(s: Server, step: Step): Option<Server> {
    match step
    case CallQuiesce => if s.quiesce.NotCalled? && s.lifecycle.Running? then Some(s.(lifecycle := Quiescing, quiesce := StopAccepting)) else None
    case CheckServing(own) =>
      if s.quiesce.StopAccepting? then
        Some(s.(quiesce := if s.serving.Off? then Drain else if own then Rescue else AwaitServing, stopSnapshot := s.stopSnapshot || (!s.serving.Off? && own)))
      else None
    case ServingStopped => if s.quiesce.AwaitServing? && s.serving.Off? then Some(s.(quiesce := Drain)) else None
    case Drained => if s.quiesce.Drain? && s.active == {} then Some(s.(quiesce := JoinSnapshot, stopSnapshot := true)) else None
    case DrainTimeout => if s.quiesce.Drain? && s.active != {} then Some(s.(quiesce := Rescue, stopSnapshot := true)) else None
    case SnapshotJoined =>
      if !s.thread.Stopped? then None
      else if s.quiesce.JoinSnapshot? then Some(s.(quiesce := SetFlags))
      else if s.quiesce.Rescue? then Some(s.(quiesce := RescueFlush))
      else None
    case JoinTimeout =>
      if s.quiesce.JoinSnapshot? then Some(s.(quiesce := Rescue))
      else if s.quiesce.Rescue? then Some(s.(quiesce := Failing))
      else None
    case Finalize =>
      if s.quiesce.SetFlags? then
        Some(s.(quiesced := true, finalized := true, lifecycleGeneration := s.lifecycleGeneration + 1, quiesce := FinalFlush))
      else None
    case QuiesceReturns =>
      if s.quiesce.Succeeding? then Some(s.(lifecycle := Quiesced, quiesce := Returned))
      else if s.quiesce.Failing? then Some(s.(lifecycle := Failed, quiesce := Returned))
      else None
    case CloseServer => Some(s.(closed := true, stopSnapshot := s.stopSnapshot || s.lifecycle.Running?))
    case _ => None
  }

  // ----- the snapshot thread and the flush -----

  function MayFlush(s: Server, owner: Owner): bool {
    match owner
    case BySnapshotThread => s.thread.Flushing?
    case ByFinalFlush => s.quiesce.FinalFlush?
    case ByRescue => s.quiesce.RescueFlush?
  }

  /** The flush returns, or raises, to its caller. */
  function EndFlush(s: Server, owner: Owner, ok: bool): Server {
    var t := s.(flush := None);
    match owner
    case BySnapshotThread => t.(thread := Waiting)
    case ByFinalFlush => t.(quiesce := if ok then Succeeding else Rescue)
    case ByRescue => t.(quiesce := Failing)
  }

  function Marked(c: Connection, read: nat): Connection {
    if c.generation == read then c.(flushed := read) else c
  }

  function StepFlush(s: Server, step: Step): Option<Server> {
    match step
    case SnapshotTick => if s.thread.Waiting? && !s.stopSnapshot then Some(s.(thread := Flushing)) else None
    case SnapshotExit => if s.thread.Waiting? && s.stopSnapshot then Some(s.(thread := Stopped)) else None
    case BeginFlush(owner) =>
      if s.flush.None? && MayFlush(s, owner) then
        Some(s.(flush := Some(Flush(owner, ReadRows, |s.conns|, [], [], false, false, false, 0, []))))
      else None
    case FlushStep => if s.flush.Some? then FlushOn(s, s.flush.value) else None
    case WriteSnapshot(ok) =>
      if s.flush.Some? && s.flush.value.stage.Write? && (s.flush.value.dirty || !s.flush.value.owner.BySnapshotThread?) then
        var f := s.flush.value;
        if ok then
          Some(s.(disk := Snapshot(f.quiesced, f.finalized, f.rows, f.receipts), flush := Some(f.(stage := MarkRows(0)))))
        else Some(EndFlush(s, f.owner, false))
      else None
    case _ => None
  }

  predicate Reads(stage: FlushStage) {
    stage.ReadRows? || stage.ReadLifecycle? || stage.ReadReceipts?
  }

  /** `_snapshot_data`, one lock region at a time. */
  function ReadOn(s: Server, f: Flush): Flush
    requires Reads(f.stage)
  {
    match f.stage
    case ReadRows =>
      if |f.rows| < f.count && |f.rows| < |s.conns| then
        var c := s.conns[|f.rows|];
        f.(rows := f.rows + [c.row], generations := f.generations + [c.generation], dirty := f.dirty || c.generation != c.flushed)
      else f.(stage := ReadLifecycle)
    case ReadLifecycle =>
      f.(stage := if s.finalized then ReadReceipts else Write, quiesced := s.quiesced, finalized := s.finalized,
         lifecycleGeneration := s.lifecycleGeneration, dirty := f.dirty || s.lifecycleGeneration != s.flushedLifecycle)
    case ReadReceipts => f.(stage := Write, receipts := s.receipts)
  }

  /** The marking loop after a successful write. */
  function MarkOn(s: Server, f: Flush, i: nat): Server {
    if i < f.count && i < |s.conns| && i < |f.generations| then
      s.(conns := s.conns[i := Marked(s.conns[i], f.generations[i])], flush := Some(f.(stage := MarkRows(i + 1))))
    else s.(flush := Some(f.(stage := MarkLifecycle)))
  }

  function FlushOn(s: Server, f: Flush): Option<Server> {
    if Reads(f.stage) then Some(s.(flush := Some(ReadOn(s, f))))
    else match f.stage
      case Write => if !f.dirty && f.owner.BySnapshotThread? then Some(EndFlush(s, f.owner, true)) else None
      case MarkRows(i) => Some(MarkOn(s, f, i))
      case _ => Some(EndFlush(s.(flushedLifecycle := if s.lifecycleGeneration == f.lifecycleGeneration then f.lifecycleGeneration else s.flushedLifecycle), f.owner, true))
  }

  // ----- runs -----

  predicate ByHandler(step: Step) {
    step.Receive? || step.RecordReceived? || step.PublishReceipt? || step.ReceiveFails? || step.ReceiveEnds? || step.CheckQuiescing? || step.RecordFinal? || step.Pop?
  }

  predicate ByServing(step: Step) {
    step.StartServing? || step.StopServing? || step.Accept? || step.Spawn? || step.SpawnFails? || step.FailRecord? || step.FailPop?
  }

  predicate ByFlush(step: Step) {
    step.SnapshotTick? || step.SnapshotExit? || step.BeginFlush? || step.FlushStep? || step.WriteSnapshot?
  }

  /** The state after `step`, or nothing when the step is not enabled. */
  function Apply(s: Server, step: Step): Option<Server> {
    if ByServing(step) then StepServing(s, step)
    else if ByFlush(step) then StepFlush(s, step)
    else if ByHandler(step) then
      if step.id < |s.handlers| && step.id < |s.conns| then StepHandler(s, step.id, step) else None
    else StepQuiesce(s, step)
  }

  function Run(s: Server, steps: seq<Step>): Option<Server>
    decreases |steps|
  {
    if steps == [] then Some(s)
    else match Apply(s, steps[0])
      case Some(t) => Run(t, steps[1..])
      case None => None
  }
}
