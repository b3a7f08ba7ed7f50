/**
 Start, stop and status of the embedded runtime (`src/android.rs`): the shared status of one
 runtime, and the bridge that any number of host threads call. One step is one region under
 the status or the bridge mutex.
 */
module AndroidBridge {
  import opened Outcomes

  // ----- the shared status -----

  datatype Phase = Stopped | Starting | Ready | Stopping | Failed

  predicate Terminal(p: Phase) {
    p.Stopped? || p.Failed?
  }

  function ToReady(p: Phase): Phase {
    if p.Starting? then Ready else p
  }

  function ToStopping(p: Phase): Phase {
    if p.Starting? || p.Ready? then Stopping else p
  }

  class SharedStatus {
    var phase: Phase
    var error: Option<string>

    constructor ()
      ensures phase == Starting && error == None
    {
      phase, error := Starting, None;
    }

    method Set(p: Phase, e: Option<string>)
      modifies this
      ensures phase == p && error == e
    {
      phase, error := p, e;
    }

    /** Readiness is published only while startup still owns the state. */
    method TransitionToReady() returns (changed: bool)
      modifies this
      ensures phase == ToReady(old(phase)) && (changed <==> old(phase) == Starting)
      ensures error == if changed then None else old(error)
    {
      if phase != Starting {
        return false;
      }
      phase, error := Ready, None;
      changed := true;
    }

    /** Teardown never overwrites a terminal result. */
    method TransitionToStopping() returns (changed: bool)
      modifies this
      ensures phase == ToStopping(old(phase)) && (changed <==> old(phase) == Starting || old(phase) == Ready)
      ensures error == if changed then None else old(error)
    {
      if !(phase == Starting || phase == Ready) {
        return false;
      }
      phase, error := Stopping, None;
      changed := true;
    }
  }

  // ----- one runtime -----

  /** The readiness task: not started, waiting, past its one report, or dropped with the runtime. */
  datatype Watch = Unborn | Pending | Reported | Gone

  /** The worker thread; `Dropped` follows the drop of its executor, `Published` its last status. */
  datatype Worker = Launching | Running | Aborting(ok: bool) | Dropped(ok: bool) | Published

  datatype Runtime = Runtime(phase: Phase, watch: Watch, worker: Worker)

  const NewRuntime := Runtime(Starting, Unborn, Launching)

  datatype Event = Launch(ok: bool) | SeesReady | SeesFailure | SeesNothing | Returns(ok: bool) | Drops | Publishes

  function React(r: Runtime, e: Event): Option<Runtime> {
    match e
    case Launch(ok) => if r.worker.Launching? then Some(if ok then r.(watch := Pending, worker := Running) else r.(worker := Dropped(false))) else None
    case SeesReady => if r.watch.Pending? then Some(r.(phase := ToReady(r.phase), watch := Reported)) else None
    case SeesFailure => if r.watch.Pending? then Some(r.(phase := Failed, watch := Reported)) else None
    case SeesNothing => if r.watch.Pending? then Some(r.(watch := Reported)) else None
    case Returns(ok) => if r.worker.Running? then Some(r.(worker := Aborting(ok))) else None
    case Drops => if r.worker.Aborting? then Some(r.(watch := Gone, worker := Dropped(r.worker.ok))) else None
    case Publishes => if r.worker.Dropped? then Some(r.(phase := if r.worker.ok then Stopped else Failed, worker := Published)) else None
  }

  // ----- the bridge and its callers -----

  datatype Caller = Idle | Holding | Waiting(id: nat) | Expired(id: nat) | Cancelling | Watching(id: nat) | Taking(id: nat) | Done(ok: bool)

  /** `owner` records who made the reservation; the bridge itself does not know. */
  datatype Bridge = Bridge(runtimes: seq<Runtime>, active: Option<nat>, reserved: bool, owner: nat, callers: seq<Caller>)

  function NewBridge(callers: nat): Bridge {
    Bridge([], None, false, 0, seq(callers, _ => Idle))
  }

  datatype Step =
    | Internal(id: nat, event: Event)
    | Reserve(caller: nat) | CompileFails(caller: nat) | Register(caller: nat, spawned: bool)
    | Observe(caller: nat) | TimesOut(caller: nat) | StopsExpired(caller: nat) | Cancel(caller: nat)
    | CallStop(caller: nat) | StopGivesUp(caller: nat) | Take(caller: nat) | Query | NextCall(caller: nat)

  /** `reap_finished_runtime`: a runtime whose worker thread has ended is unregistered. */
  function Reap(b: Bridge): Bridge {
    if b.active.Some? && b.active.value < |b.runtimes| && b.runtimes[b.active.value].worker.Published? then b.(active := None) else b
  }

  function Moved(b: Bridge, c: nat, to: Caller): Bridge
    requires c < |b.callers|
  {
    b.(callers := b.callers[c := to])
  }

  /** `transition_to_stopping` on a runtime's status. */
  function Halted(b: Bridge, id: nat): Bridge {
    if id < |b.runtimes| then b.(runtimes := b.runtimes[id := b.runtimes[id].(phase := ToStopping(b.runtimes[id].phase))]) else b
  }

  function Registered(b: Bridge, c: nat, spawned: bool): Bridge
    requires c < |b.callers|
  {
    if !b.reserved || b.active.Some? || !spawned then Moved(b.(reserved := false), c, Cancelling)
    else Moved(b.(runtimes := b.runtimes + [NewRuntime], active := Some(|b.runtimes|), reserved := false), c, Waiting(|b.runtimes|))
  }

  function Start(b: Bridge, c: nat, step: Step): Option<Bridge>
    requires c < |b.callers|
  {
    var caller := b.callers[c];
    match step
    case Reserve(_) =>
      if !caller.Idle? then None
      else
        var r := Reap(b);
        Some(if r.active.Some? || r.reserved then Moved(r, c, Done(false)) else Moved(r.(reserved := true, owner := c), c, Holding))
    case CompileFails(_) => if caller.Holding? then Some(Moved(b, c, Cancelling)) else None
    case Register(_, spawned) => if caller.Holding? then Some(Registered(b, c, spawned)) else None
    case Observe(_) =>
      if !caller.Waiting? || caller.id >= |b.runtimes| then None
      else if b.runtimes[caller.id].phase.Ready? then Some(Moved(b, c, Done(true)))
      else if Terminal(b.runtimes[caller.id].phase) then Some(Moved(b, c, Cancelling))
      else None
    case TimesOut(_) => if caller.Waiting? then Some(Moved(b, c, Expired(caller.id))) else None
    case StopsExpired(_) => if caller.Expired? then Some(Moved(Halted(b, caller.id), c, Cancelling)) else None
    case Cancel(_) => if caller.Cancelling? then Some(Moved(b.(reserved := false), c, Done(false))) else None
    case _ => None
  }

  /** The join in `Take` ends only with the worker thread, and the bridge mutex is held meanwhile. */
  function Stop(b: Bridge, c: nat, step: Step): Option<Bridge>
    requires c < |b.callers|
  {
    var caller := b.callers[c];
    match step
    case CallStop(_) =>
      if !caller.Idle? then None
      else
        var r := Reap(b);
        Some(if r.active.None? then Moved(r, c, Done(true)) else Moved(Halted(r, r.active.value), c, Watching(r.active.value)))
    case StopGivesUp(_) => if caller.Watching? then Some(Moved(b, c, Done(false))) else None
    case Observe(_) =>
      if caller.Watching? && caller.id < |b.runtimes| && Terminal(b.runtimes[caller.id].phase) then Some(Moved(b, c, Taking(caller.id))) else None
    case Take(_) =>
      if !caller.Taking? then None
      else if b.active.None? then Some(Moved(b, c, Done(true)))
      else if b.active.value < |b.runtimes| && b.runtimes[b.active.value].worker.Published? then Some(Moved(b.(active := None), c, Done(true)))
      else None
    case NextCall(_) => if caller.Done? then Some(Moved(b, c, Idle)) else None
    case _ => None
  }

  function Apply(b: Bridge, step: Step): Option<Bridge> {
    match step
    case Internal(id, event) =>
      if id < |b.runtimes| && React(b.runtimes[id], event).Some? then Some(b.(runtimes := b.runtimes[id := React(b.runtimes[id], event).value])) else None
    case Query => Some(Reap(b))
    case _ =>
      if step.caller >= |b.callers| then None
      else if Start(b, step.caller, step).Some? then Start(b, step.caller, step)
      else Stop(b, step.caller, step)
  }

  function Run(b: Bridge, steps: seq<Step>): Option<Bridge>
    decreases |steps|
  {
    if steps == [] then Some(b)
    else match Apply(b, steps[0])
      case Some(a) => Run(a, steps[1..])
      case None => None
  }

  // ----- what a runtime's phase may do -----

  function Rank(p: Phase): nat {
    match p
    case Starting => 0
    case Ready => 1
    case Stopping => 2
    case _ => 3
  }

  predicate Sane(r: Runtime) {
    && (r.watch.Pending? ==> r.worker.Running? || r.worker.Aborting?)
    && (r.worker.Published? ==> Terminal(r.phase))
  }

  /** One change of a runtime: Ready only from Starting, never back from Stopping, final once published. */
  predicate Advances(r: Runtime, s: Runtime) {
    && Rank(r.phase) <= Rank(s.phase)
    && (s.phase.Ready? && !r.phase.Ready? ==> r.phase.Starting?)
    && (r.worker.Published? ==> s == r)
  }

  lemma {:induction false} ReactAdvances(r: Runtime, e: Event)
    requires Sane(r) && React(r, e).Some?
    ensures Sane(React(r, e).value) && Advances(r, React(r, e).value)
  {
  }

  // ----- the invariant of the bridge -----

  /** No reservation beside a registered runtime, and only the registered runtime can still be alive. */
  predicate Orderly(b: Bridge) {
    && !(b.active.Some? && b.reserved)
    && (b.active.Some? ==> b.active.value + 1 == |b.runtimes|)
    && (b.reserved ==> b.owner < |b.callers| && (b.callers[b.owner].Holding? || b.callers[b.owner].Cancelling?))
    && (forall c | 0 <= c < |b.callers| && b.callers[c].Taking? :: b.callers[c].id < |b.runtimes|)
    && (forall i | 0 <= i < |b.runtimes| :: Sane(b.runtimes[i]))
    && (forall i | 0 <= i < |b.runtimes| :: b.runtimes[i].worker.Published? || b.active == Some(i))
  }

  predicate Progress(b: Bridge, c: Bridge) {
    |b.runtimes| <= |c.runtimes| && forall i | 0 <= i < |b.runtimes| :: Advances(b.runtimes[i], c.runtimes[i])
  }

  lemma {:induction false} ReapOrderly(b: Bridge)
    requires Orderly(b)
    ensures Orderly(Reap(b)) && Reap(b).runtimes == b.runtimes && Reap(b).callers == b.callers && Reap(b).reserved == b.reserved
  {
  }

  lemma {:induction false} HaltedOrderly(b: Bridge, id: nat)
    requires Orderly(b)
    ensures Orderly(Halted(b, id)) && Progress(b, Halted(b, id)) && |Halted(b, id).callers| == |b.callers|
  {
  }

  lemma {:induction false} StartOrderly(b: Bridge, c: nat, step: Step, a: Bridge)
    requires Orderly(b) && c < |b.callers| && Start(b, c, step) == Some(a)
    ensures Orderly(a) && Progress(b, a)
  {
    if step.Reserve? {
      ReapOrderly(b);
    } else if step.StopsExpired? {
      HaltedOrderly(b, b.callers[c].id);
    }
  }

  lemma {:induction false} StopOrderly(b: Bridge, c: nat, step: Step, a: Bridge)
    requires Orderly(b) && c < |b.callers| && Stop(b, c, step) == Some(a)
    ensures Orderly(a) && Progress(b, a)
  {
    if step.CallStop? {
      ReapOrderly(b);
      if Reap(b).active.Some? {
        HaltedOrderly(Reap(b), Reap(b).active.value);
      }
    }
  }

  lemma {:induction false} StepOrderly(b: Bridge, step: Step, c: Bridge)
    requires Orderly(b) && Apply(b, step) == Some(c)
    ensures Orderly(c) && Progress(b, c)
  {
    if step.Internal? {
      ReactAdvances(b.runtimes[step.id], step.event);
    } else if step.Query? {
      ReapOrderly(b);
    } else if Start(b, step.caller, step).Some? {
      StartOrderly(b, step.caller, step, c);
    } else {
      StopOrderly(b, step.caller, step, c);
    }
  }

  /** Along every run the phases of every runtime only advance. */
  lemma {:induction false} RunOrderly(b: Bridge, steps: seq<Step>, c: Bridge)
    requires Orderly(b) && Run(b, steps) == Some(c)
    ensures Orderly(c) && |b.runtimes| <= |c.runtimes|
    ensures forall i | 0 <= i < |b.runtimes| :: Rank(b.runtimes[i].phase) <= Rank(c.runtimes[i].phase)
    ensures forall i | 0 <= i < |b.runtimes| && b.runtimes[i].worker.Published? :: c.runtimes[i] == b.runtimes[i]
    decreases |steps|
  {
    if steps != [] {
      var a := Apply(b, steps[0]).value;
      StepOrderly(b, steps[0], a);
      RunOrderly(a, steps[1..], c);
      assert forall i | 0 <= i < |b.runtimes| :: Advances(b.runtimes[i], a.runtimes[i]);
    }
  }

  /** Every run of the host: never both registered and reserved, at most one live worker, terminal states final. */
  lemma {:induction false} EveryRunIsOrderly(callers: nat, steps: seq<Step>, b: Bridge)
    requires Run(NewBridge(callers), steps) == Some(b)
    ensures !(b.active.Some? && b.reserved)
    ensures forall i, j | 0 <= i < |b.runtimes| && 0 <= j < |b.runtimes| && !b.runtimes[i].worker.Published? && !b.runtimes[j].worker.Published? :: i == j
    ensures forall i | 0 <= i < |b.runtimes| && b.runtimes[i].worker.Published? :: Terminal(b.runtimes[i].phase)
  {
    RunOrderly(NewBridge(callers), steps, b);
    assert forall i | 0 <= i < |b.runtimes| :: Sane(b.runtimes[i]);
  }

  /** Once a runtime is stopping it is never ready again, whatever follows. */
  lemma {:induction false} NeverReadyAfterStopping(callers: nat, steps: seq<Step>, b: Bridge, more: seq<Step>, c: Bridge, i: nat)
    requires Run(NewBridge(callers), steps) == Some(b) && Run(b, more) == Some(c)
    requires i < |b.runtimes| && Rank(b.runtimes[i].phase) >= Rank(Stopping)
    ensures i < |c.runtimes| && !c.runtimes[i].phase.Ready? && !c.runtimes[i].phase.Starting?
  {
    RunOrderly(NewBridge(callers), steps, b);
    RunOrderly(b, more, c);
    assert Rank(b.runtimes[i].phase) <= Rank(c.runtimes[i].phase);
  }

  // ----- what one caller can do to another -----

  /** A stop unregisters a runtime other than the one it stopped if and only if that one was started since. */
  lemma {:induction false} TakesAnotherIff(callers: nat, steps: seq<Step>, b: Bridge, c: nat, a: Bridge)
    requires Run(NewBridge(callers), steps) == Some(b)
    requires c < |b.callers| && b.callers[c].Taking? && Apply(b, Take(c)) == Some(a)
    ensures a.active.None? && b.callers[c].id < |b.runtimes|
    ensures b.active.Some? && b.active.value != b.callers[c].id <==> b.active.Some? && b.callers[c].id + 1 < |b.runtimes|
    ensures b.active.Some? ==> b.runtimes[b.active.value].worker.Published?
  {
    RunOrderly(NewBridge(callers), steps, b);
  }

  /** A pending reservation ends if and only if some caller, not only its owner, cancels or registers. */
  lemma {:induction false} ReservationEndsIff(callers: nat, steps: seq<Step>, b: Bridge, step: Step, a: Bridge)
    requires Run(NewBridge(callers), steps) == Some(b) && b.reserved && Apply(b, step) == Some(a)
    ensures !a.reserved <==> step.Cancel? || step.Register?
    ensures a.reserved ==> a.owner == b.owner
  {
    RunOrderly(NewBridge(callers), steps, b);
  }

  /** Registering succeeds if and only if some reservation is pending, whoever made it, and the thread spawns. */
  lemma {:induction false} RegistersIff(callers: nat, steps: seq<Step>, b: Bridge, c: nat, spawned: bool, a: Bridge)
    requires Run(NewBridge(callers), steps) == Some(b) && Apply(b, Register(c, spawned)) == Some(a)
    ensures |a.runtimes| == |b.runtimes| + 1 <==> b.reserved && spawned
    ensures |a.runtimes| == |b.runtimes| + 1 ==> a.active == Some(|b.runtimes|) && a.callers[c] == Waiting(|b.runtimes|)
    ensures |a.runtimes| != |b.runtimes| + 1 ==> a == b.(reserved := false, callers := b.callers[c := Cancelling])
  {
    RunOrderly(NewBridge(callers), steps, b);
  }

  lemma {:induction false} RunOn(b: Bridge, step: Step, a: Bridge, rest: seq<Step>)
    requires Apply(b, step) == Some(a)
    ensures Run(b, [step] + rest) == Run(a, rest)
  {
    assert ([step] + rest)[1..] == rest;
  }

  lemma {:induction false} RunAppend(b: Bridge, first: seq<Step>, a: Bridge, rest: seq<Step>)
    requires Run(b, first) == Some(a)
    ensures Run(b, first + rest) == Run(a, rest)
    decreases |first|
  {
    if first == [] {
      assert first + rest == rest;
    } else {
      assert (first + rest)[1..] == first[1..] + rest;
      RunAppend(Apply(b, first[0]).value, first[1..], a, rest);
    }
  }

  const Dead := Runtime(Failed, Unborn, Published)
  const Failing := Runtime(Starting, Unborn, Dropped(false))

  lemma {:induction false} Pair(x: Caller, y: Caller, z: Caller)
    ensures [x, y][0 := z] == [z, y] && [x, y][1 := z] == [x, z]
  {
  }

  /** One caller's start, from an idle bridge to a worker that failed to launch. */
  lemma {:induction false} StartFails(rs: seq<Runtime>, owner: nat, other: Caller) returns (steps: seq<Step>)
    requires forall i | 0 <= i < |rs| :: rs[i].worker.Published?
    ensures Run(Bridge(rs, None, false, owner, [Idle, other]), steps) == Some(Bridge(rs + [Dead], Some(|rs|), false, 0, [Waiting(|rs|), other]))
  {
    var n := |rs|;
    var b0 := Bridge(rs, None, false, owner, [Idle, other]);
    var b1 := Bridge(rs, None, true, 0, [Holding, other]);
    var b2 := Bridge(rs + [NewRuntime], Some(n), false, 0, [Waiting(n), other]);
    var b3 := Bridge(rs + [Failing], Some(n), false, 0, [Waiting(n), other]);
    var b4 := Bridge(rs + [Dead], Some(n), false, 0, [Waiting(n), other]);
    Pair(Idle, other, Holding);
    Pair(Holding, other, Waiting(n));
    assert (rs + [NewRuntime])[n := Failing] == rs + [Failing] && (rs + [Failing])[n := Dead] == rs + [Dead];
    RunOn(b3, Internal(n, Publishes), b4, []);
    RunOn(b2, Internal(n, Launch(false)), b3, [Internal(n, Publishes)] + []);
    RunOn(b1, Register(0, true), b2, [Internal(n, Launch(false))] + ([Internal(n, Publishes)] + []));
    RunOn(b0, Reserve(0), b1, [Register(0, true)] + ([Internal(n, Launch(false))] + ([Internal(n, Publishes)] + [])));
    steps := [Reserve(0)] + ([Register(0, true)] + ([Internal(n, Launch(false))] + ([Internal(n, Publishes)] + [])));
  }

  /** A failed start is cancelled after another caller has reserved: that reservation is gone, and its start will fail. */
  lemma {:induction false} CancelHitsAnother() returns (steps: seq<Step>, b: Bridge)
    ensures Run(NewBridge(2), steps) == Some(b) && b.reserved && b.owner == 1 && b.callers == [Cancelling, Holding]
    ensures Apply(b, Cancel(0)) == Some(b.(reserved := false, callers := [Done(false), Holding]))
  {
    assert NewBridge(2).callers == [Idle, Idle];
    var first := StartFails([], 0, Idle);
    var a := Bridge([Dead], Some(0), false, 0, [Waiting(0), Idle]);
    assert [] + [Dead] == [Dead];
    var c := a.(callers := [Cancelling, Idle]);
    b := Bridge([Dead], None, true, 1, [Cancelling, Holding]);
    Pair(Waiting(0), Idle, Cancelling);
    Pair(Cancelling, Idle, Holding);
    Pair(Cancelling, Holding, Done(false));
    RunOn(c, Reserve(1), b, []);
    RunOn(a, Observe(0), c, [Reserve(1)] + []);
    RunAppend(NewBridge(2), first, a, [Observe(0)] + ([Reserve(1)] + []));
    steps := first + ([Observe(0)] + ([Reserve(1)] + []));
  }

  /** The second caller stops the first one's runtime and is about to unregister it, while the first is back at rest. */
  lemma {:induction false} StopPending(b: Bridge) returns (steps: seq<Step>)
    requires b == Bridge([Failing], Some(0), false, 0, [Waiting(0), Idle])
    ensures Run(b, steps) == Some(Bridge([Dead], Some(0), false, 0, [Done(false), Taking(0)]))
  {
    var stopping := Failing.(phase := Stopping);
    var b1 := Bridge([stopping], Some(0), false, 0, [Waiting(0), Watching(0)]);
    var b2 := Bridge([Dead], Some(0), false, 0, [Waiting(0), Watching(0)]);
    var b3 := b2.(callers := [Waiting(0), Taking(0)]);
    var b4 := b2.(callers := [Cancelling, Taking(0)]);
    var b5 := b2.(callers := [Done(false), Taking(0)]);
    assert [Failing][0 := stopping] == [stopping] && [stopping][0 := Dead] == [Dead];
    Pair(Waiting(0), Idle, Watching(0));
    Pair(Waiting(0), Watching(0), Taking(0));
    Pair(Waiting(0), Taking(0), Cancelling);
    Pair(Cancelling, Taking(0), Done(false));
    RunOn(b4, Cancel(0), b5, []);
    RunOn(b3, Observe(0), b4, [Cancel(0)] + []);
    RunOn(b2, Observe(1), b3, [Observe(0)] + ([Cancel(0)] + []));
    RunOn(b1, Internal(0, Publishes), b2, [Observe(1)] + ([Observe(0)] + ([Cancel(0)] + [])));
    RunOn(b, CallStop(1), b1, [Internal(0, Publishes)] + ([Observe(1)] + ([Observe(0)] + ([Cancel(0)] + []))));
    steps := [CallStop(1)] + ([Internal(0, Publishes)] + ([Observe(1)] + ([Observe(0)] + ([Cancel(0)] + []))));
  }

  lemma {:induction false} FirstLaunchFails() returns (steps: seq<Step>)
    ensures Run(NewBridge(2), steps) == Some(Bridge([Failing], Some(0), false, 0, [Waiting(0), Idle]))
  {
    var b0 := NewBridge(2);
    assert b0.callers == [Idle, Idle];
    var b1 := Bridge([], None, true, 0, [Holding, Idle]);
    var b2 := Bridge([NewRuntime], Some(0), false, 0, [Waiting(0), Idle]);
    var b3 := Bridge([Failing], Some(0), false, 0, [Waiting(0), Idle]);
    Pair(Idle, Idle, Holding);
    Pair(Holding, Idle, Waiting(0));
    assert [] + [NewRuntime] == [NewRuntime] && [NewRuntime][0 := Failing] == [Failing];
    RunOn(b2, Internal(0, Launch(false)), b3, []);
    RunOn(b1, Register(0, true), b2, [Internal(0, Launch(false))] + []);
    RunOn(b0, Reserve(0), b1, [Register(0, true)] + ([Internal(0, Launch(false))] + []));
    steps := [Reserve(0)] + ([Register(0, true)] + ([Internal(0, Launch(false))] + []));
  }

  /** The stop of one runtime unregisters the next one, which nobody asked to stop. */
  lemma {:induction false} StopHitsAnother() returns (steps: seq<Step>, b: Bridge)
    ensures Run(NewBridge(2), steps) == Some(b) && b.callers == [Waiting(1), Taking(0)] && b.active == Some(1)
    ensures Apply(b, Take(1)).Some? && Apply(b, Take(1)).value.active.None?
  {
    var first := FirstLaunchFails();
    var a := Bridge([Failing], Some(0), false, 0, [Waiting(0), Idle]);
    var second := StopPending(a);
    var c := Bridge([Dead], Some(0), false, 0, [Done(false), Taking(0)]);
    RunAppend(NewBridge(2), first, a, second);
    var d := c.(callers := [Idle, Taking(0)]);
    var e := d.(active := None);
    Pair(Done(false), Taking(0), Idle);
    RunOn(d, Query, e, []);
    RunOn(c, NextCall(0), d, [Query] + []);
    RunAppend(NewBridge(2), first + second, c, [NextCall(0)] + ([Query] + []));
    var before := first + second + ([NextCall(0)] + ([Query] + []));
    var third := StartFails([Dead], 0, Taking(0));
    b := Bridge([Dead] + [Dead], Some(1), false, 0, [Waiting(1), Taking(0)]);
    RunAppend(NewBridge(2), before, e, third);
    steps := before + third;
  }
}
