/** Which revision each round of the configuration loop runs, and what follows its end (`src/app.rs`). */
module ProcessRounds {
  import opened Outcomes
  import opened ConfigStore
  import opened Process
  import opened ProcessSafety

  // ----- the end of a round -----

  predicate Fails(terminal: Terminal) {
    !terminal.Ran? || terminal.outcome.Crashed?
  }

  /** The round ran a pending revision and ended badly before that revision was activated. */
  predicate CandidateFails(c: Config, terminal: Terminal) {
    Fails(terminal) && CandidatePending(c) && (terminal.Ran? ==> !terminal.activated)
  }

  /** The operation is to end: told so by the worker's own stop, or by a request seen after an ordinary end. */
  predicate EndsForShutdown(c: Config, terminal: Terminal, requested: bool) {
    terminal.Ran? && !CandidateFails(c, terminal) && (requested || terminal.outcome == Stopped(ShutdownRequested))
  }

  /** When each verdict is reached, and the store it leaves. */
  lemma {:induction false} JudgeMeans(c: Config, terminal: Terminal, requested: bool, io: bool, giveUp: bool)
    requires Accounted(c)
    ensures var v := Judge(c, terminal, requested, io, giveUp); var shutdown := EndsForShutdown(c, terminal, requested);
      && (v.NextRound? <==>
            || (CandidateFails(c, terminal) && io)
            || (!shutdown && terminal.Ran? && !terminal.outcome.Crashed?)
            || (!shutdown && terminal.Ran? && terminal.outcome.Crashed? && !CandidateFails(c, terminal) && c.store.pending.Some?))
      && (v.WaitToRestart? <==> !shutdown && terminal.Ran? && terminal.outcome.Crashed? && c.store.pending.None? && !giveUp)
      && (v.Return? && v.clean <==> shutdown && (io || c.store.pending.None?))
      && v.config == c.(store := if io && (shutdown || CandidateFails(c, terminal)) then Opened(c.store.active) else c.store)
  {
  }

  // ----- what a round runs -----

  /** The pending revision is the one this round runs, and nothing has been activated yet. */
  predicate Unproven(c: Config) {
    c.candidate && c.store.pending == Some(Pending(c.store.active, c.begun)) && c.runtimeRevision == c.begun
  }

  predicate Setting(pc: Pc) {
    pc.Arming? || pc.Preparing? || pc.Disarming? || pc.Adopting?
  }

  predicate Running(pc: Pc) {
    pc.Managed? || pc.Publishing? || TakingDown(pc) || pc.Authorizing? || pc.AwaitWorker? || pc.Cleaning? || pc.Plain? || pc.AwaitRuntime?
  }

  /** A round starts with the desired revision; it is a candidate exactly while an activation is pending. */
  predicate Starts(c: Config) {
    c.runtimeRevision == c.store.revision && c.begun == c.runtimeRevision && (c.candidate <==> c.store.pending.Some?)
  }

  /** A running generation runs the active revision, or the candidate that it has yet to prove. */
  predicate RunsWell(c: Config, activated: bool) {
    if c.candidate && !activated then Unproven(c) else c.store.active == c.runtimeRevision
  }

  predicate Coherent(s: State) {
    && (s.pc.Head? ==> s.config.runtimeRevision == s.config.store.revision)
    && (Setting(s.pc) ==> Starts(s.config) && !s.generation.activated)
    && (Running(s.pc) ==> RunsWell(s.config, s.driver.activated) && (s.generation.activated <==> s.driver.activated))
    && (s.generation.stop.Some? ==> s.generation.phase.Stopping? || s.generation.phase.Failed?)
  }

  lemma {:induction false} CoherentManage(s: State, step: Step, t: State)
    requires Guarded(s) && Booked(s) && Coherent(s) && s.worker.Alive? && ByManagement(step)
    requires Manage(s.config, step).Some? && t == s.(config := Manage(s.config, step).value)
    ensures Coherent(t)
  {
    if Unproven(s.config) {
      assert t.config == s.config;
    }
  }

  lemma {:induction false} CoherentFlag(s: State, step: Step, t: State)
    requires Guarded(s) && Booked(s) && Coherent(s) && Flag(s, step) == Some(t)
    ensures Coherent(t)
  {
    if step.LowerFlag? && s.pc.Disarming? && s.pc.failed {
      ConcludeCoherent(s.(shield := s.shield.(protect := false)), Judge(s.config, GenerationError, s.shield.requested, step.io, true));
    }
  }

  /** However a round ends, the next one starts with the desired revision. */
  lemma {:induction false} ConcludeCoherent(s: State, verdict: Verdict)
    requires s.generation.stop.Some? ==> s.generation.phase.Stopping? || s.generation.phase.Failed?
    ensures Coherent(Conclude(s, verdict))
  {
  }

  lemma {:induction false} CoherentLoop(s: State, step: Step, t: State)
    requires Guarded(s) && Booked(s) && Coherent(s) && Loop(s, step) == Some(t)
    ensures Coherent(t)
  {
  }

  lemma {:induction false} CoherentSelect(s: State, step: Step, t: State)
    requires Booked(s) && Coherent(s) && ((s.pc.Managed? && DriveManaged(s, step) == Some(t)) || (s.pc.Plain? && DrivePlain(s, step) == Some(t)))
    ensures Coherent(t)
  {
    if s.pc.Plain? && step.SeeWorkerEnd? {
      ConcludeCoherent(s, Judge(s.config, Ran(s.worker.outcome, s.driver.activated), s.shield.requested, step.io, step.giveUp));
    }
  }

  lemma {:induction false} CoherentTakeDown(s: State, step: Step, t: State)
    requires Booked(s) && Coherent(s) && TakeDown(s, step) == Some(t)
    ensures Coherent(t)
  {
    if step.WorkerJoined? && s.pc.AwaitRuntime? {
      ConcludeCoherent(s, Judge(s.config, if s.pc.failed then ActivationFailed else Ran(s.worker.outcome, s.driver.activated), s.shield.requested, step.io, step.giveUp));
    } else if step.CleanupDone? {
      ConcludeCoherent(s, Judge(s.config, if !step.ok || s.pc.error then GenerationError else Ran(s.pc.outcome, s.driver.activated), s.shield.requested, step.io, step.giveUp));
    }
  }

  lemma {:induction false} CoherentKept(s: State, step: Step, t: State)
    requires Guarded(s) && Booked(s) && Coherent(s) && Apply(s, step) == Some(t)
    ensures Coherent(t)
  {
    if BySupervisor(step) {
      assert t.config == s.config && t.driver == s.driver && t.generation == s.generation && (t.pc == s.pc || t.pc.Aborted?);
    } else if ByWorker(step) {
      assert t.config == s.config && t.driver == s.driver && t.pc == s.pc && t.generation.activated == s.generation.activated;
    } else if ByManagement(step) {
      CoherentManage(s, step, t);
    } else if ByFlag(step) {
      CoherentFlag(s, step, t);
    } else if ByLoop(step) {
      CoherentLoop(s, step, t);
    } else if BySelect(step) {
      CoherentSelect(s, step, t);
    } else {
      CoherentTakeDown(s, step, t);
    }
  }

  lemma {:induction false} RunCoherent(s: State, steps: seq<Step>, t: State)
    requires Guarded(s) && Booked(s) && Coherent(s) && Run(s, steps) == Some(t)
    ensures Guarded(t) && Booked(t) && Coherent(t)
    decreases |steps|
  {
    if steps != [] {
      var u := Apply(s, steps[0]).value;
      GuardKept(s, steps[0], u);
      BookKept(s, steps[0], u);
      CoherentKept(s, steps[0], u);
      RunCoherent(u, steps[1..], t);
    }
  }

  /** Over every run: a generation runs the active revision, or a pending candidate it has not proven yet. */
  lemma {:induction false} EveryRoundRunsActiveOrCandidate(revision: Revision, steps: seq<Step>, t: State)
    requires Run(Booted(revision), steps) == Some(t) && Running(t.pc)
    ensures t.config.runtimeRevision == t.config.store.active || Unproven(t.config)
    ensures t.driver.activated || !t.config.candidate ==> t.config.runtimeRevision == t.config.store.active
    ensures t.generation.stop.Some? ==> !t.generation.phase.Ready?
  {
    RunCoherent(Booted(revision), steps, t);
  }

  // ----- a candidate that fails, and one that succeeds -----

  /** The round ends here, with an error or a crash. */
  predicate EndsBadly(s: State, step: Step) {
    || (s.pc.Plain? && step.SeeWorkerEnd? && s.worker == Ended(Crashed))
    || (s.pc.AwaitRuntime? && step.WorkerJoined? && (s.pc.failed || s.worker == Ended(Crashed)))
    || (s.pc.Cleaning? && step.CleanupDone? && (!step.ok || s.pc.error || s.pc.outcome.Crashed?))
    || (s.pc == Disarming(true) && step.LowerFlag?)
  }

  /** The round ends here because its worker stopped as it was told. */
  predicate EndsStopped(s: State, step: Step, reason: StopReason) {
    || (s.pc.Plain? && step.SeeWorkerEnd? && s.worker == Ended(Stopped(reason)))
    || (s.pc == AwaitRuntime(false) && step.WorkerJoined? && s.worker == Ended(Stopped(reason)))
    || (s.pc == Cleaning(Stopped(reason), false) && step.CleanupDone? && step.ok)
  }

  lemma {:induction false} BadEndConcludes(s: State, step: Step, t: State)
    requires Booked(s) && EndsBadly(s, step) && Apply(s, step) == Some(t) && Unproven(s.config) && (Running(s.pc) ==> !s.driver.activated)
    ensures step.io ==> t.pc.Head? && t.config.store == Opened(s.config.store.active) && t.config.runtimeRevision == s.config.store.active
    ensures !step.io ==> t.pc == Returned(false) && t.config == s.config
  {
  }

  /**
   Over every run: a candidate whose round ends badly before it is activated is rolled back, and
   the next round runs the revision that was active; the process gives up only when the
   rollback itself cannot be stored.
   */
  lemma {:induction false} FailedCandidateFallsBack(revision: Revision, steps: seq<Step>, s: State, step: Step, t: State)
    requires Run(Booted(revision), steps) == Some(s) && Apply(s, step) == Some(t) && EndsBadly(s, step)
    requires s.config.candidate && (Running(s.pc) ==> !s.driver.activated)
    ensures step.io ==> t.pc.Head? && t.config.store == Opened(s.config.store.active) && t.config.runtimeRevision == s.config.store.active
    ensures !step.io ==> t.pc == Returned(false) && t.config == s.config
  {
    RunCoherent(Booted(revision), steps, s);
    assert Unproven(s.config);
    BadEndConcludes(s, step, t);
  }

  /** Over every run: a round stopped for a reload is followed by one with the desired revision, unless shutdown was requested. */
  lemma {:induction false} ReloadRunsDesired(revision: Revision, steps: seq<Step>, s: State, step: Step, t: State)
    requires Run(Booted(revision), steps) == Some(s) && Apply(s, step) == Some(t) && EndsStopped(s, step, ReloadRequested) && !s.shield.requested
    ensures t.pc.Head? && t.config.store == s.config.store && t.config.runtimeRevision == s.config.store.revision
  {
    RunCoherent(Booted(revision), steps, s);
  }

  lemma {:induction false} ShutdownStep(s: State, step: Step, reason: StopReason, t: State)
    requires Booked(s) && Apply(s, step) == Some(t) && EndsStopped(s, step, reason) && (s.shield.requested || reason == ShutdownRequested)
    ensures t.pc == Returned(step.io || s.config.store.pending.None?)
    ensures t.config.store == if step.io then Opened(s.config.store.active) else s.config.store
  {
  }

  /** Over every run: a round that ends for shutdown returns cleanly with nothing pending, unless the rollback cannot be stored. */
  lemma {:induction false} ShutdownReturns(revision: Revision, steps: seq<Step>, s: State, step: Step, reason: StopReason, t: State)
    requires Run(Booted(revision), steps) == Some(s) && Apply(s, step) == Some(t) && EndsStopped(s, step, reason)
    requires s.shield.requested || reason == ShutdownRequested
    ensures t.pc == Returned(step.io || s.config.store.pending.None?)
    ensures t.config.store == if step.io then Opened(s.config.store.active) else s.config.store
  {
    RunCoherent(Booted(revision), steps, s);
    ShutdownStep(s, step, reason, t);
  }

  /** A ready generation sees its readiness, or its publication succeeds, with no stop or shutdown in the way. */
  predicate Succeeds(s: State, step: Step) {
    && s.generation.phase.Ready? && !s.shield.requested && s.generation.stop.None?
    && ((s.pc.Publishing? && step.PublishDone? && step.ok) || (s.pc.Plain? && step.SeeReady? && s.driver.readiness && !s.worker.Ended?))
  }

  lemma {:induction false} SuccessStep(s: State, step: Step, t: State)
    requires Booked(s) && RunsWell(s.config, s.driver.activated) && Apply(s, step) == Some(t) && Succeeds(s, step) && step.io
    ensures t.pc == (if s.pc.Publishing? then Managed else Plain) && t.driver.activated && t.generation.activated
    ensures t.config == if s.config.candidate && !s.driver.activated
      then s.config.(store := Opened(s.config.begun), log := s.config.log + [ByGeneration(s.config.begun)])
      else s.config
  {
  }

  /** Over every run: a generation that succeeds runs the active revision from then on; a candidate becomes active there. */
  lemma {:induction false} SuccessActivates(revision: Revision, steps: seq<Step>, s: State, step: Step, t: State)
    requires Run(Booted(revision), steps) == Some(s) && Apply(s, step) == Some(t) && Succeeds(s, step) && step.io
    ensures t.pc == (if s.pc.Publishing? then Managed else Plain) && t.driver.activated && t.generation.activated
    ensures t.config.store.active == t.config.runtimeRevision == s.config.runtimeRevision
    ensures if s.config.candidate && !s.driver.activated
      then t.config.store == Opened(s.config.begun) && t.config.log == s.config.log + [ByGeneration(s.config.begun)]
      else t.config == s.config
  {
    RunCoherent(Booted(revision), steps, s);
    SuccessStep(s, step, t);
  }
}
