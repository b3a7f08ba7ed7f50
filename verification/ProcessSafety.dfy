/** What every run of the process keeps: VPN protection, and when revisions become active. */
module ProcessSafety {
  import opened Outcomes
  import opened ConfigStore
  import opened Process

  // ----- protection of a published VPN -----

  /** A published VPN is protected: the flag is raised before the host may publish and lowered after it no longer can. */
  predicate Protected(g: Shield, published: bool, pc: Pc) {
    && (HostMayPublish(pc) || pc.Disarming? || pc.Releasing? <==> g.protect)
    && (published ==> HostMayPublish(pc) || pc.Aborted?)
    && (g.supervisor.Draining? || g.supervisor.Preserving? || g.supervisor.Aborting? ==> g.requested)
    && (g.supervisor.Preserving? ==> !pc.Arming?)
  }

  predicate TakingDown(pc: Pc) {
    pc.Unpublishing? || pc.UnpublishSleep? || pc.Releasing?
  }

  predicate Staffed(pc: Pc, worker: Worker, g: Generation) {
    && (pc.Head? || pc.Arming? || pc.Preparing? || pc.Disarming? ==> g == NewGeneration && worker.Absent?)
    && (pc.Adopting? ==> worker.Absent?)
    && (pc.Returned? || pc.Restarting? ==> !worker.Alive?)
    && (pc.Cleaning? || (TakingDown(pc) && pc.cause.Completed?) ==> worker.Ended?)
    && (pc.Adopting? || pc.Managed? || pc.Publishing? || TakingDown(pc) || pc.Authorizing? ==>
          !g.retirement && (worker.Ended? ==> worker.outcome.Crashed?))
  }

  predicate Guarded(s: State) {
    && (s.pc.Aborted? || Protected(s.shield, s.published, s.pc)) && Staffed(s.pc, s.worker, s.generation)
    && (s.pc.Aborted? ==> s.shield.supervisor.Exited?)
  }

  lemma {:induction false} GuardSupervisor(s: State, step: Step, t: State)
    requires Guarded(s) && BySupervisor(step) && Supervise(s, step) == Some(t)
    ensures Guarded(t)
  {
  }

  lemma {:induction false} GuardWorker(s: State, step: Step, t: State)
    requires Guarded(s) && ByWorker(step) && s.worker.Alive? && Work(s, step) == Some(t)
    ensures Guarded(t)
  {
  }

  lemma {:induction false} GuardLoop(s: State, step: Step, t: State)
    requires Guarded(s) && Loop(s, step) == Some(t)
    ensures Guarded(t)
  {
  }

  lemma {:induction false} GuardFlag(s: State, step: Step, t: State)
    requires Guarded(s) && !s.pc.Aborted? && Flag(s, step) == Some(t)
    ensures Guarded(t)
  {
  }

  lemma {:induction false} GuardSelect(s: State, step: Step, t: State)
    requires Guarded(s) && ((s.pc.Managed? && DriveManaged(s, step) == Some(t)) || (s.pc.Plain? && DrivePlain(s, step) == Some(t)))
    ensures Guarded(t)
  {
  }

  lemma {:induction false} GuardTakeDown(s: State, step: Step, t: State)
    requires Guarded(s) && TakeDown(s, step) == Some(t)
    ensures Guarded(t)
  {
  }

  lemma {:induction false} GuardKept(s: State, step: Step, t: State)
    requires Guarded(s) && Apply(s, step) == Some(t)
    ensures Guarded(t)
  {
    if BySupervisor(step) {
      GuardSupervisor(s, step, t);
    } else if ByWorker(step) {
      GuardWorker(s, step, t);
    } else if ByManagement(step) {
    } else if ByFlag(step) {
      GuardFlag(s, step, t);
    } else if ByLoop(step) {
      GuardLoop(s, step, t);
    } else if BySelect(step) {
      GuardSelect(s, step, t);
    } else {
      GuardTakeDown(s, step, t);
    }
  }

  /** Retirement of a managed generation is authorised only once it is unpublished and the flag is lowered. */
  lemma {:induction false} RetirementNeedsUnpublish(s: State, step: Step, t: State)
    requires Guarded(s) && Apply(s, step) == Some(t) && !s.generation.retirement && t.generation.retirement
    ensures step.Authorize? || t.pc.Head?
    ensures !s.published && !t.published
  {
    if BySupervisor(step) {
    } else if ByWorker(step) {
    } else if ByManagement(step) {
    } else if ByFlag(step) {
    } else if ByLoop(step) {
    } else if BySelect(step) {
    } else {
    }
  }

  /** The only way to that authorisation: an unpublish that succeeds, then the flag lowered, then the authorisation. */
  lemma {:induction false} AuthorizationPath(s: State, step: Step, t: State)
    requires Apply(s, step) == Some(t)
    ensures t.pc.Releasing? && t.pc != s.pc ==> s.pc.Unpublishing? && step == UnpublishDone(true)
    ensures t.pc.Authorizing? && t.pc != s.pc ==> s.pc.Releasing? && step.LowerFlag?
    ensures t.pc.AwaitWorker? && t.pc != s.pc ==> s.pc.Authorizing? && step.Authorize?
  {
    if BySupervisor(step) {
    } else if ByWorker(step) {
    } else if ByManagement(step) {
    } else if ByFlag(step) {
    } else if ByLoop(step) {
    } else if BySelect(step) {
    } else {
    }
  }

  // ----- revisions -----

  function Latest(base: Revision, log: seq<Activation>): Revision {
    if log == [] then base else log[|log| - 1].revision
  }

  predicate Accounted(c: Config) {
    Consistent(c.store) && c.store.active == Latest(c.base, c.log)
  }

  predicate Booked(s: State) {
    && Accounted(s.config)
    && (s.pc == Returned(true) || s.pc.Restarting? ==> s.config.store.pending.None?)
    && (s.pc.Plain? ==> !s.driver.managed)
    && (s.pc.Managed? || s.pc.Publishing? ==> s.driver.managed)
  }

  /** The store is the same one, and what was activated in it stays activated. */
  predicate Extends(c: Config, d: Config) {
    d.base == c.base && c.log <= d.log
  }

  lemma {:induction false} JudgeAccounts(c: Config, terminal: Terminal, requested: bool, io: bool, giveUp: bool)
    requires Accounted(c)
    ensures var v := Judge(c, terminal, requested, io, giveUp);
      && Accounted(v.config) && v.config.base == c.base && v.config.log == c.log
      && ((v.Return? && v.clean) || v.WaitToRestart? ==> v.config.store.pending.None?)
  {
  }

  lemma {:induction false} ActivateAccounts(c: Config, io: bool)
    requires Accounted(c)
    ensures var r := Activate(c, io); r.Ok? ==> Accounted(r.value) && Extends(c, r.value)
  {
  }

  lemma {:induction false} ManageAccounts(c: Config, step: Step, d: Config)
    requires Accounted(c) && ByManagement(step) && Manage(c, step) == Some(d)
    ensures Accounted(d) && Extends(c, d)
  {
  }

  lemma {:induction false} BookLoop(s: State, step: Step, t: State)
    requires Booked(s) && Loop(s, step) == Some(t)
    ensures Booked(t)
    ensures !step.RestartDelay? ==> Extends(s.config, t.config)
  {
  }

  lemma {:induction false} BookFlag(s: State, step: Step, t: State)
    requires Booked(s) && Flag(s, step) == Some(t)
    ensures Booked(t) && t.config.log == s.config.log && t.config.base == s.config.base
  {
    if step.LowerFlag? && s.pc.Disarming? && s.pc.failed {
      JudgeAccounts(s.config, GenerationError, s.shield.requested, step.io, true);
    }
  }

  lemma {:induction false} BookSelect(s: State, step: Step, t: State)
    requires Booked(s) && ((s.pc.Managed? && DriveManaged(s, step) == Some(t)) || (s.pc.Plain? && DrivePlain(s, step) == Some(t)))
    ensures Booked(t) && Extends(s.config, t.config)
  {
    if s.pc.Plain? && step.SeeWorkerEnd? {
      JudgeAccounts(s.config, Ran(s.worker.outcome, s.driver.activated), s.shield.requested, step.io, step.giveUp);
    } else if s.pc.Plain? && step.SeeReady? && s.generation.phase.Ready? {
      ActivateAccounts(s.config, step.io);
    }
  }

  lemma {:induction false} BookTakeDown(s: State, step: Step, t: State)
    requires Booked(s) && TakeDown(s, step) == Some(t)
    ensures Booked(t) && Extends(s.config, t.config)
  {
    if step.WorkerJoined? && s.pc.AwaitRuntime? {
      JudgeAccounts(s.config, if s.pc.failed then ActivationFailed else Ran(s.worker.outcome, s.driver.activated), s.shield.requested, step.io, step.giveUp);
    } else if step.CleanupDone? {
      JudgeAccounts(s.config, if !step.ok || s.pc.error then GenerationError else Ran(s.pc.outcome, s.driver.activated), s.shield.requested, step.io, step.giveUp);
    } else if step.PublishDone? && !s.shield.requested && s.generation.phase.Ready? && step.ok {
      ActivateAccounts(s.config, step.io);
    }
  }

  lemma {:induction false} BookKept(s: State, step: Step, t: State)
    requires Guarded(s) && Booked(s) && Apply(s, step) == Some(t)
    ensures Booked(t)
    ensures !step.RestartDelay? ==> Extends(s.config, t.config)
  {
    if BySupervisor(step) {
      assert t.config == s.config && t.driver == s.driver && (t.pc == s.pc || t.pc.Aborted?);
    } else if ByWorker(step) {
      assert t.config == s.config && t.driver == s.driver && t.pc == s.pc;
    } else if ByManagement(step) {
      ManageAccounts(s.config, step, t.config);
    } else if ByFlag(step) {
      BookFlag(s, step, t);
    } else if ByLoop(step) {
      BookLoop(s, step, t);
    } else if BySelect(step) {
      BookSelect(s, step, t);
    } else {
      BookTakeDown(s, step, t);
    }
  }

  // ----- whole runs -----

  predicate Reopens(steps: seq<Step>) {
    exists i :: 0 <= i < |steps| && steps[i].RestartDelay?
  }

  lemma {:induction false} RunKeeps(s: State, steps: seq<Step>, t: State)
    requires Guarded(s) && Booked(s) && Run(s, steps) == Some(t)
    ensures Guarded(t) && Booked(t)
    ensures !Reopens(steps) ==> Extends(s.config, t.config)
    decreases |steps|
  {
    if steps != [] {
      var u := Apply(s, steps[0]).value;
      GuardKept(s, steps[0], u);
      BookKept(s, steps[0], u);
      RunKeeps(u, steps[1..], t);
      if !Reopens(steps) {
        assert forall i | 0 <= i < |steps| - 1 :: steps[1..][i] == steps[i + 1];
        assert !Reopens(steps[1..]);
        assert !steps[0].RestartDelay?;
      }
    }
  }

  /**
   In every run a published VPN is protected, the worker is not told to retire while it is
   published, and cleanup begins only when the worker has ended and nothing is published.
   */
  lemma {:induction false} EveryRunProtects(revision: Revision, steps: seq<Step>, t: State)
    requires Run(Booted(revision), steps) == Some(t) && !t.pc.Aborted?
    ensures t.published ==> t.shield.protect
    ensures t.published && !t.pc.Preparing? ==> !t.generation.retirement
    ensures t.published && t.worker.Ended? ==> t.worker.outcome.Crashed?
    ensures t.pc.Cleaning? ==> t.worker.Ended? && !t.published
  {
    RunKeeps(Booted(revision), steps, t);
  }

  // ----- aborting -----

  /** Shutdown is requested, the flag is down, and the loop has not just passed its check of the request. */
  predicate Quiet(s: State) {
    s.shield.requested && !s.published && (s.pc.Aborted? || (!s.shield.protect && !s.pc.Arming?))
  }

  lemma {:induction false} QuietStep(s: State, step: Step, t: State)
    requires Guarded(s) && Quiet(s) && Apply(s, step) == Some(t)
    ensures Quiet(t)
  {
    if BySupervisor(step) {
    } else if ByWorker(step) {
    } else if ByManagement(step) {
    } else if ByFlag(step) {
    } else if ByLoop(step) {
    } else if BySelect(step) {
    } else {
    }
  }

  /** Once quiet, nothing is published again. */
  lemma {:induction false} ReleaseIsFinal(s: State, steps: seq<Step>, t: State)
    requires Guarded(s) && Quiet(s) && Run(s, steps) == Some(t)
    ensures Quiet(t)
    decreases |steps|
  {
    if steps != [] {
      var u := Apply(s, steps[0]).value;
      GuardKept(s, steps[0], u);
      QuietStep(s, steps[0], u);
      ReleaseIsFinal(u, steps[1..], t);
    }
  }

  /** The supervisor decides to abort the operation. */
  predicate Decides(s: State, step: Step, t: State) {
    Apply(s, step) == Some(t) && !s.shield.supervisor.Aborting? && t.shield.supervisor.Aborting?
  }

  lemma {:induction false} DecisionIsQuiet(s: State, step: Step, t: State)
    requires Guarded(s) && Decides(s, step, t)
    ensures t.pc == s.pc && t.shield.requested && !t.shield.protect && !t.published
    ensures s.pc.Arming? ==> step.TeardownTimeout?
    ensures !s.pc.Arming? ==> Quiet(t)
  {
    if !BySupervisor(step) {
      OthersLeaveSupervisor(s, step, t);
    }
  }

  lemma {:induction false} OthersLeaveSupervisor(s: State, step: Step, t: State)
    requires Apply(s, step) == Some(t) && !BySupervisor(step)
    ensures t.shield.supervisor == s.shield.supervisor
  {
    if ByWorker(step) {
    } else if ByManagement(step) {
    } else if ByFlag(step) {
    } else if ByLoop(step) {
    } else if BySelect(step) {
    } else {
    }
  }

  /** The abort takes effect while the host has the VPN published. */
  predicate CutsPublished(s: State, steps: seq<Step>) {
    Run(s, steps).Some? && Run(s, steps).value.pc.Aborted? && Run(s, steps).value.published
  }

  lemma {:induction false} ArmingIsCut(t: State) returns (more: seq<Step>)
    requires t.pc.Arming? && t.shield.supervisor.Aborting?
    ensures CutsPublished(t, more)
  {
    more := [RaiseFlag, HostPublishes, AbortTakesEffect];
    var a := Apply(t, more[0]).value;
    var b := Apply(a, more[1]).value;
    assert more[1..][1..][1..] == [];
    assert Run(b, more[1..][1..]) == Apply(b, AbortTakesEffect);
    assert Run(a, more[1..]) == Apply(b, AbortTakesEffect);
  }

  /**
   An abort can meet a published VPN if and only if it was decided while the loop stood between
   its check of the shutdown request and the store of the flag.
   */
  lemma {:induction false} AbortMeetsPublicationIff(revision: Revision, steps: seq<Step>, s: State, step: Step, t: State)
    requires Run(Booted(revision), steps) == Some(s) && Decides(s, step, t)
    ensures (exists more :: CutsPublished(t, more)) <==> s.pc.Arming?
  {
    RunKeeps(Booted(revision), steps, s);
    GuardKept(s, step, t);
    DecisionIsQuiet(s, step, t);
    if s.pc.Arming? {
      var more := ArmingIsCut(t);
    } else {
      forall more ensures !CutsPublished(t, more) {
        if Run(t, more).Some? {
          ReleaseIsFinal(t, more, Run(t, more).value);
        }
      }
    }
  }

  /** The teardown timeout never expires between the check of the request and the store of the flag. */
  predicate Prompt(s: State, steps: seq<Step>)
    decreases |steps|
  {
    steps != [] && Apply(s, steps[0]).Some? ==> !(s.pc.Arming? && steps[0].TeardownTimeout?) && Prompt(Apply(s, steps[0]).value, steps[1..])
  }

  lemma {:induction false} PromptRunQuiet(s: State, steps: seq<Step>, t: State)
    requires Guarded(s) && (s.shield.supervisor.Aborting? || s.pc.Aborted? ==> Quiet(s))
    requires Run(s, steps) == Some(t) && Prompt(s, steps)
    ensures t.shield.supervisor.Aborting? || t.pc.Aborted? ==> Quiet(t)
    decreases |steps|
  {
    if steps != [] {
      var u := Apply(s, steps[0]).value;
      GuardKept(s, steps[0], u);
      if Quiet(s) {
        QuietStep(s, steps[0], u);
      } else if u.shield.supervisor.Aborting? {
        DecisionIsQuiet(s, steps[0], u);
      }
      PromptRunQuiet(u, steps[1..], t);
    }
  }

  /** In every such run an abort never meets a published VPN. */
  lemma {:induction false} PromptRunsAbortSafely(revision: Revision, steps: seq<Step>, t: State)
    requires Run(Booted(revision), steps) == Some(t) && Prompt(Booted(revision), steps)
    ensures t.shield.supervisor.Aborting? || t.pc.Aborted? ==> !t.published
  {
    PromptRunQuiet(Booted(revision), steps, t);
  }

  /** Without it: the timeout expires in that gap, and the abort cuts a published VPN. */
  lemma {:induction false} LateFlagRun(revision: Revision) returns (steps: seq<Step>)
    ensures CutsPublished(Booted(revision), steps)
  {
    steps := [LoopHead(true), Signal, TeardownTimeout, RaiseFlag, HostPublishes, AbortTakesEffect];
    var a := Apply(Booted(revision), steps[0]).value;
    var b := Apply(a, steps[1]).value;
    var c := Apply(b, steps[2]).value;
    var d := Apply(c, steps[3]).value;
    var e := Apply(d, steps[4]).value;
    var f := Apply(e, steps[5]).value;
    assert steps[1..][1..][1..][1..][1..][1..] == [];
    assert Run(e, steps[1..][1..][1..][1..][1..]) == Some(f);
    assert Run(d, steps[1..][1..][1..][1..]) == Some(f);
    assert Run(c, steps[1..][1..][1..]) == Some(f);
    assert Run(b, steps[1..][1..]) == Some(f);
    assert Run(a, steps[1..]) == Some(f);
  }

  // ----- activation -----

  /** A clean return leaves nothing pending, and the active revision is the last one activated. */
  lemma {:induction false} EveryRunAccounts(revision: Revision, steps: seq<Step>, t: State)
    requires Run(Booted(revision), steps) == Some(t)
    ensures t.pc == Returned(true) ==> t.config.store == Opened(t.config.store.active)
    ensures t.config.store.active == Latest(t.config.base, t.config.log)
  {
    RunKeeps(Booted(revision), steps, t);
  }

  /** What a generation's activation takes, in the state before the step. */
  predicate Earned(s: State, step: Step) {
    && s.generation.phase.Ready? && !s.shield.requested
    && (if s.driver.managed then s.pc.Publishing? && step.PublishDone? && step.ok && s.generation.stop.None? && s.shield.protect
        else s.pc.Plain? && step.SeeReady?)
  }

  /** A step appends at most one activation, earned by a generation or made live by the management service. */
  predicate Activates(s: State, step: Step, t: State) {
    && t.config.log != [] && t.config.log[..|t.config.log| - 1] == s.config.log
    && var a := t.config.log[|t.config.log| - 1];
       if a.ByLiveUpdate? then step == LiveUpdate(a.revision) && s.worker.Alive?
       else Earned(s, step) && a.revision == s.config.runtimeRevision == s.config.store.revision && (s.driver.managed ==> t.published)
  }

  lemma {:induction false} SelectEarns(s: State, step: Step, t: State)
    requires Booked(s) && ((s.pc.Managed? && DriveManaged(s, step) == Some(t)) || (s.pc.Plain? && DrivePlain(s, step) == Some(t)))
    ensures t.config.log == s.config.log || Activates(s, step, t)
  {
    if s.pc.Plain? && step.SeeWorkerEnd? {
      JudgeAccounts(s.config, Ran(s.worker.outcome, s.driver.activated), s.shield.requested, step.io, step.giveUp);
    }
  }

  lemma {:induction false} TakeDownEarns(s: State, step: Step, t: State)
    requires Guarded(s) && Booked(s) && TakeDown(s, step) == Some(t)
    ensures t.config.log == s.config.log || Activates(s, step, t)
  {
    if step.WorkerJoined? && s.pc.AwaitRuntime? {
      JudgeAccounts(s.config, if s.pc.failed then ActivationFailed else Ran(s.worker.outcome, s.driver.activated), s.shield.requested, step.io, step.giveUp);
    } else if step.CleanupDone? {
      JudgeAccounts(s.config, if !step.ok || s.pc.error then GenerationError else Ran(s.pc.outcome, s.driver.activated), s.shield.requested, step.io, step.giveUp);
    }
  }

  /**
   In every run and at every step: an activation by a generation happens only while it is ready
   with no shutdown requested and, if managed, as its publication succeeds; and it activates the
   revision that the generation runs and that was desired.
   */
  lemma {:induction false} EveryActivationIsEarned(revision: Revision, steps: seq<Step>, s: State, step: Step, t: State)
    requires Run(Booted(revision), steps) == Some(s) && Apply(s, step) == Some(t)
    ensures t.config.log == s.config.log || Activates(s, step, t) || (step.RestartDelay? && t.config.log == [])
  {
    RunKeeps(Booted(revision), steps, s);
    StepEarns(s, step, t);
  }

  lemma {:induction false} StepEarns(s: State, step: Step, t: State)
    requires Guarded(s) && Booked(s) && Apply(s, step) == Some(t)
    ensures t.config.log == s.config.log || Activates(s, step, t) || (step.RestartDelay? && t.config.log == [])
  {
    if BySupervisor(step) {
    } else if ByWorker(step) {
    } else if ByManagement(step) {
      ManageEarns(s, step, t);
    } else if ByFlag(step) {
      BookFlag(s, step, t);
    } else if ByLoop(step) {
      LoopEarns(s, step, t);
    } else if BySelect(step) {
      SelectEarns(s, step, t);
    } else {
      TakeDownEarns(s, step, t);
    }
  }

  lemma {:induction false} ManageEarns(s: State, step: Step, t: State)
    requires s.worker.Alive? && ByManagement(step) && Manage(s.config, step).Some? && t == s.(config := Manage(s.config, step).value)
    ensures t.config.log == s.config.log || Activates(s, step, t)
  {
  }

  lemma {:induction false} LoopEarns(s: State, step: Step, t: State)
    requires Loop(s, step) == Some(t)
    ensures t.config.log == s.config.log || (step.RestartDelay? && t.config.log == [])
  {
  }

  /** In one store, what has been activated is never rolled back: only a later activation replaces it. */
  lemma {:induction false} ActivationIsNeverRolledBack(revision: Revision, steps: seq<Step>, s: State, more: seq<Step>, t: State)
    requires Run(Booted(revision), steps) == Some(s) && Run(s, more) == Some(t) && !Reopens(more)
    ensures s.config.log <= t.config.log
    ensures t.config.log == s.config.log ==> t.config.store.active == s.config.store.active
  {
    RunKeeps(Booted(revision), steps, s);
    RunKeeps(s, more, t);
  }
}
