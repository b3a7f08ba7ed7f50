/**
 The process of `src/app.rs` as a transition system: the shutdown supervisor, the
 configuration loop with its managed and unmanaged generation drivers, the packet worker
 and the management service. A step is at most one stretch of code between two awaits.
 */
module Process {
  import opened Outcomes
  import opened ConfigStore

  // ----- the generation control (`src/runtime/readiness.rs`) -----

  datatype Phase = Starting | Ready | Stopping | Failed

  datatype StopReason = ReloadRequested | ShutdownRequested

  datatype Generation = Generation(phase: Phase, stop: Option<StopReason>, retirement: bool, activated: bool)

  const NewGeneration := Generation(Starting, None, true, false)

  function MarkStopping(g: Generation): Generation {
    if g.phase.Starting? || g.phase.Ready? then g.(phase := Stopping) else g
  }

  function RequestShutdown(g: Generation): Generation {
    MarkStopping(g).(stop := Some(ShutdownRequested))
  }

  function RequestReload(g: Generation): Generation {
    var h := MarkStopping(g);
    if h.stop.None? then h.(stop := Some(ReloadRequested)) else h
  }

  function DeferRetirement(g: Generation): Generation {
    if g.stop.None? then g.(retirement := false) else g
  }

  function Activated(g: Generation): Generation {
    if g.phase.Ready? then g.(activated := true) else g
  }

  // ----- the state -----

  datatype Outcome = Stopped(reason: StopReason) | Crashed

  datatype Worker = Absent | Alive | Ended(outcome: Outcome)

  datatype Supervisor = Watching | Draining | Preserving | Aborting | Exited

  /** Why a managed generation is being taken down. */
  datatype Cause = Retiring(error: bool) | Completed(outcome: Outcome)

  datatype Pc =
    | Head | Arming | Preparing | Disarming(failed: bool) | Adopting
    | Managed | Publishing | Unpublishing(cause: Cause) | UnpublishSleep(cause: Cause) | Releasing(cause: Cause)
    | Authorizing(error: bool) | AwaitWorker(error: bool) | Cleaning(outcome: Outcome, error: bool)
    | Plain | AwaitRuntime(failed: bool) | Restarting | Returned(clean: bool) | Aborted

  /** How a revision became active. */
  datatype Activation = ByGeneration(revision: Revision) | ByLiveUpdate(revision: Revision)

  /** The shutdown request, the publication flag of the process, and the supervisor. */
  datatype Shield = Shield(requested: bool, protect: bool, supervisor: Supervisor)

  /**
   The configuration loop's variables. `base` is the revision the store was opened with and
   `log` what has been activated in it since; `begun` and `candidate` are the running
   generation's revision and whether it was pending when the generation began.
   */
  datatype Config = Config(runtimeRevision: Revision, store: Store, base: Revision, log: seq<Activation>, begun: Revision, candidate: bool)

  /** The variables of the generation driver. */
  datatype Driver = Driver(readiness: bool, activated: bool, managed: bool)

  /** `published` is the host's own state: whether it has the VPN published. */
  datatype State = State(shield: Shield, published: bool, pc: Pc, worker: Worker, generation: Generation, config: Config, driver: Driver)

  function Booted(revision: Revision): State {
    State(Shield(false, false, Watching), false, Head, Absent, NewGeneration, Config(revision, Opened(revision), revision, [], revision, false), Driver(true, false, false))
  }

  datatype Step =
    | Signal | OperationJoined | TeardownTimeout | Releasable | AbortTakesEffect
    | BecomesReady | BecomesFailed | WorkerCrashes | WorkerStops(reason: StopReason) | AskReload
    | Stage(revision: Revision) | StageUndone(revision: Revision) | LiveUpdate(revision: Revision)
    | HostPublishes
    | LoopHead(io: bool) | RaiseFlag | PrepareNothing | PrepareFails | Prepared | LowerFlag(io: bool) | Authorize
    | SeeWorkerEnd(io: bool, giveUp: bool) | SeeStop | SeeReady(io: bool)
    | PublishDone(ok: bool, io: bool) | UnpublishDone(ok: bool) | Slept | WorkerJoined(io: bool, giveUp: bool)
    | CleanupDone(ok: bool, io: bool, giveUp: bool) | RestartDelay(reopened: Option<Revision>) | RestartCut(io: bool)

  // ----- the supervisor -----

  predicate BySupervisor(step: Step) {
    step.Signal? || step.OperationJoined? || step.TeardownTimeout? || step.Releasable? || step.AbortTakesEffect?
  }

  function Supervise(s: State, step: Step): Option<State> {
    var g := s.shield;
    match step
    case Signal => if g.supervisor.Watching? then Some(s.(shield := g.(requested := true, supervisor := Draining))) else None
    case OperationJoined => if s.pc.Returned? && !g.supervisor.Aborting? then Some(s.(shield := g.(supervisor := Exited))) else None
    case TeardownTimeout => if g.supervisor.Draining? then Some(s.(shield := g.(supervisor := if g.protect then Preserving else Aborting))) else None
    case Releasable => if g.supervisor.Preserving? && !g.protect then Some(s.(shield := g.(supervisor := Aborting))) else None
    case AbortTakesEffect =>
      if g.supervisor.Aborting? then Some(s.(shield := g.(supervisor := Exited), pc := if s.pc.Returned? then s.pc else Aborted)) else None
    case _ => None
  }

  // ----- the worker -----

  predicate ByWorker(step: Step) {
    step.BecomesReady? || step.BecomesFailed? || step.WorkerCrashes? || step.WorkerStops? || step.AskReload?
  }

  /** A worker that stops on request waits for the retirement authorisation; one that fails does not. */
  function Work(s: State, step: Step): Option<State> {
    var g := s.generation;
    match step
    case BecomesReady => if g.phase.Starting? then Some(s.(generation := g.(phase := Ready))) else None
    case BecomesFailed => if g.phase.Starting? || g.phase.Ready? then Some(s.(generation := g.(phase := Failed))) else None
    case WorkerCrashes => Some(s.(worker := Ended(Crashed)))
    case WorkerStops(reason) => if g.stop.Some? && g.retirement then Some(s.(worker := Ended(Stopped(reason)))) else None
    case AskReload => Some(s.(generation := RequestReload(g)))
    case _ => None
  }

  // ----- the management service, which lives in the worker -----

  predicate ByManagement(step: Step) {
    step.Stage? || step.StageUndone? || step.LiveUpdate?
  }

  /** Applying a document: persisted for reload, undone after a failure, or activated live. */
  function Manage(c: Config, step: Step): Option<Config>
    requires ByManagement(step)
  {
    match Replace(c.store, c.store.revision, step.revision, true)
    case Err(_) => None
    case Ok(staged) =>
      match step
      case Stage(_) => Some(c.(store := staged))
      case StageUndone(revision) => if revision == c.store.revision then None else Some(c.(store := Rollback(staged)))
      case LiveUpdate(revision) =>
        if revision == c.store.revision then None
        else Some(c.(store := Opened(revision), runtimeRevision := revision, log := c.log + [ByLiveUpdate(revision)]))
  }

  function Rollback(s: Store): Store {
    match RollbackPending(s, true)
    case Ok(t) => t
    case Err(_) => s
  }

  // ----- the configuration loop -----

  datatype Terminal = Ran(outcome: Outcome, activated: bool) | ActivationFailed | GenerationError

  /** What the loop does once a generation has ended. */
  datatype Verdict = NextRound(config: Config) | Return(config: Config, clean: bool) | WaitToRestart(config: Config)

  /** `rollback_unactivated_desired`, then a clean return. */
  function RollbackAndReturn(c: Config, io: bool): Verdict {
    match RollbackPending(c.store, io)
    case Ok(store) => Return(c.(store := store), true)
    case Err(_) => Return(c, false)
  }

  predicate CandidatePending(c: Config) {
    c.candidate && c.store.pending.Some? && c.store.pending.value.desired == c.begun
  }

  /** `rollback_failed_candidate`, then the next round with the restored document. */
  function RestoreAndContinue(c: Config, io: bool): Verdict {
    match RollbackPending(c.store, io)
    case Ok(store) => NextRound(c.(store := store))
    case Err(_) => Return(c, false)
  }

  function AfterFailure(c: Config, requested: bool, io: bool, giveUp: bool): Verdict {
    if requested then RollbackAndReturn(c, io)
    else if c.store.pending.Some? then NextRound(c)
    else if giveUp then Return(c, false)
    else WaitToRestart(c)
  }

  /** One pass of the loop body after its generation has ended. */
  function Judge(c: Config, terminal: Terminal, requested: bool, io: bool, giveUp: bool): Verdict {
    match terminal
    case Ran(Stopped(ShutdownRequested), _) => RollbackAndReturn(c, io)
    case Ran(Stopped(ReloadRequested), _) => if requested then RollbackAndReturn(c, io) else NextRound(c)
    case Ran(Crashed, activated) => if !activated && CandidatePending(c) then RestoreAndContinue(c, io) else AfterFailure(c, requested, io, giveUp)
    case _ => if CandidatePending(c) then RestoreAndContinue(c, io) else Return(c, false)
  }

  /** A new generation control is made for every round. */
  function Conclude(s: State, verdict: Verdict): State {
    match verdict
    case NextRound(c) => s.(pc := Head, worker := Absent, generation := NewGeneration, config := c.(runtimeRevision := c.store.revision))
    case Return(c, clean) => s.(pc := Returned(clean), config := c)
    case WaitToRestart(c) => s.(pc := Restarting, config := c)
  }

  predicate ByLoop(step: Step) {
    step.LoopHead? || step.PrepareNothing? || step.PrepareFails? || step.Prepared? || step.RestartDelay? || step.RestartCut?
  }

  // ----- the host and the publication flag -----

  predicate ByFlag(step: Step) {
    step.HostPublishes? || step.RaiseFlag? || step.LowerFlag? || step.Authorize?
  }

  /** The host may publish while a preparation runs or a prepared generation has not been unpublished. */
  predicate HostMayPublish(pc: Pc) {
    pc.Preparing? || pc.Adopting? || pc.Managed? || pc.Publishing? || pc.Unpublishing? || pc.UnpublishSleep?
  }

  /** Stores of the flag and of the retirement authorisation, each on its own, and publication by the host. */
  function Flag(s: State, step: Step): Option<State> {
    match step
    case HostPublishes => if HostMayPublish(s.pc) then Some(s.(published := true)) else None
    case RaiseFlag =>
      var g := s.shield.(protect := true);
      if s.pc.Arming? then Some(s.(shield := g, pc := Preparing))
      else if s.pc.Adopting? then Some(s.(shield := g, pc := Managed, worker := Alive, driver := Driver(true, false, true)))
      else None
    case LowerFlag(io) =>
      var t := s.(shield := s.shield.(protect := false));
      if s.pc.Disarming? && s.pc.failed then Some(Conclude(t, Judge(s.config, GenerationError, s.shield.requested, io, true)))
      else if s.pc.Disarming? then Some(t.(pc := Plain, worker := Alive, driver := Driver(true, false, false)))
      else if s.pc.Releasing? then
        Some(t.(pc := if s.pc.cause.Retiring? then Authorizing(s.pc.cause.error) else Cleaning(s.pc.cause.outcome, false)))
      else None
    case Authorize => if s.pc.Authorizing? then Some(s.(generation := s.generation.(retirement := true), pc := AwaitWorker(s.pc.error))) else None
    case _ => None
  }

  /** The round's revision, and whether it is the pending one. */
  function Begin(c: Config): Config {
    c.(begun := c.runtimeRevision, candidate := c.store.pending.Some? && c.store.pending.value.desired == c.runtimeRevision)
  }

  function Reopen(c: Config, revision: Revision): Config {
    c.(store := Opened(revision), base := revision, log := [])
  }

  /** A preparation that yields nothing or fails certifies that nothing is published. */
  function Loop(s: State, step: Step): Option<State> {
    match step
    case LoopHead(io) =>
      if !s.pc.Head? then None
      else if s.shield.requested then Some(Conclude(s, RollbackAndReturn(s.config, io)))
      else Some(s.(config := Begin(s.config), pc := Arming))
    case PrepareNothing => if s.pc.Preparing? && !s.published then Some(s.(pc := Disarming(false))) else None
    case PrepareFails => if s.pc.Preparing? && !s.published then Some(s.(pc := Disarming(true))) else None
    case Prepared => if s.pc.Preparing? then Some(s.(generation := DeferRetirement(s.generation), pc := Adopting)) else None
    case RestartDelay(reopened) =>
      if !s.pc.Restarting? then None
      else if reopened.None? then Some(Conclude(s, Return(s.config, false)))
      else Some(Conclude(s, NextRound(Reopen(s.config, reopened.value))))
    case RestartCut(io) => if s.pc.Restarting? && s.shield.requested then Some(Conclude(s, RollbackAndReturn(s.config, io))) else None
    case _ => None
  }

  // ----- the generation drivers -----

  /** `activate_ready_generation`: nothing to do, activated, or an error. */
  function Activate(c: Config, io: bool): Result<Config, StoreError> {
    if c.store.active == c.runtimeRevision then Ok(c)
    else match ActivateDesired(c.store, c.runtimeRevision, io)
      case Ok(store) => Ok(c.(store := store, log := c.log + [ByGeneration(c.runtimeRevision)]))
      case Err(e) => Err(e)
  }

  function Retire(s: State, error: bool): State {
    s.(pc := Unpublishing(Retiring(error)))
  }

  function StopAndRetire(s: State, error: bool): State {
    s.(generation := RequestShutdown(s.generation), pc := Unpublishing(Retiring(error)))
  }

  function StopAndAwait(s: State, failed: bool): State {
    s.(generation := RequestShutdown(s.generation), pc := AwaitRuntime(failed))
  }

  /** The select of the managed driver, in its order: worker, shutdown, stop, readiness. */
  function DriveManaged(s: State, step: Step): Option<State> {
    match step
    case SeeStop =>
      if s.shield.requested then Some(StopAndRetire(s, false))
      else if !s.worker.Ended? && s.generation.stop.Some? then Some(Retire(s, false))
      else None
    case SeeWorkerEnd(_, _) => if s.worker.Ended? then Some(s.(pc := Unpublishing(Completed(s.worker.outcome)))) else None
    case SeeReady(_) =>
      if s.shield.requested || s.worker.Ended? || s.generation.stop.Some? || !s.driver.readiness || s.generation.phase.Starting? then None
      else if s.generation.phase.Ready? then Some(s.(driver := s.driver.(readiness := false), pc := Publishing))
      else Some(StopAndRetire(s.(driver := s.driver.(readiness := false)), false))
    case _ => None
  }

  /** What follows a publication that returned; a stop request may have raced with it. */
  function AfterPublish(s: State, ok: bool, io: bool): State {
    if !ok then StopAndRetire(s, true)
    else if s.shield.requested then StopAndRetire(s, false)
    else if s.generation.stop.Some? || !s.generation.phase.Ready? then Retire(s, false)
    else match Activate(s.config, io)
      case Ok(c) => s.(pc := Managed, config := c, generation := Activated(s.generation), driver := s.driver.(activated := true))
      case Err(_) => StopAndRetire(s, true)
  }

  function TakeDown(s: State, step: Step): Option<State> {
    match step
    case PublishDone(ok, io) => if s.pc.Publishing? then Some(AfterPublish(s.(published := s.published || ok), ok, io)) else None
    case UnpublishDone(ok) =>
      if !s.pc.Unpublishing? then None
      else if ok then Some(s.(published := false, pc := Releasing(s.pc.cause)))
      else Some(s.(pc := UnpublishSleep(s.pc.cause)))
    case Slept => if s.pc.UnpublishSleep? then Some(s.(pc := Unpublishing(s.pc.cause))) else None
    case WorkerJoined(io, giveUp) =>
      if !s.worker.Ended? then None
      else if s.pc.AwaitWorker? then Some(s.(pc := Cleaning(s.worker.outcome, s.pc.error)))
      else if s.pc.AwaitRuntime? then
        Some(Conclude(s, Judge(s.config, if s.pc.failed then ActivationFailed else Ran(s.worker.outcome, s.driver.activated), s.shield.requested, io, giveUp)))
      else None
    case CleanupDone(ok, io, giveUp) =>
      if s.pc.Cleaning? then
        Some(Conclude(s, Judge(s.config, if !ok || s.pc.error then GenerationError else Ran(s.pc.outcome, s.driver.activated), s.shield.requested, io, giveUp)))
      else None
    case _ => None
  }

  function DrivePlain(s: State, step: Step): Option<State> {
    match step
    case SeeStop => if s.shield.requested then Some(StopAndAwait(s, false)) else None
    case SeeWorkerEnd(io, giveUp) =>
      if s.worker.Ended? then Some(Conclude(s, Judge(s.config, Ran(s.worker.outcome, s.driver.activated), s.shield.requested, io, giveUp))) else None
    case SeeReady(io) =>
      if s.shield.requested || s.worker.Ended? || !s.driver.readiness || s.generation.phase.Starting? then None
      else Some(PlainReady(s.(driver := s.driver.(readiness := false)), io))
    case _ => None
  }

  function PlainReady(s: State, io: bool): State {
    if !s.generation.phase.Ready? then s
    else match Activate(s.config, io)
      case Ok(c) => s.(config := c, generation := Activated(s.generation), driver := s.driver.(activated := true))
      case Err(_) => StopAndAwait(s, true)
  }

  predicate BySelect(step: Step) {
    step.SeeStop? || step.SeeWorkerEnd? || step.SeeReady?
  }

  function Apply(s: State, step: Step): Option<State> {
    if BySupervisor(step) then Supervise(s, step)
    else if ByWorker(step) then
      if s.worker.Alive? && !s.pc.Aborted? then Work(s, step) else None
    else if ByManagement(step) then
      if s.worker.Alive? && !s.pc.Aborted? && Manage(s.config, step).Some? then Some(s.(config := Manage(s.config, step).value)) else None
    else if ByFlag(step) then
      if s.pc.Aborted? then None else Flag(s, step)
    else if ByLoop(step) then Loop(s, step)
    else if BySelect(step) then
      if s.pc.Managed? then DriveManaged(s, step) else if s.pc.Plain? then DrivePlain(s, step) else None
    else TakeDown(s, step)
  }

  function Run(s: State, steps: seq<Step>): Option<State>
    decreases |steps|
  {
    if steps == [] then Some(s)
    else match Apply(s, steps[0])
      case Some(t) => Run(t, steps[1..])
      case None => None
  }
}
