/** What the answers of the Android runtime bridge say (`src/android.rs`). */
module BridgeCalls {
  import opened Outcomes
  import opened AndroidBridge

  /** A worker is registered and has not published its last status. */
  predicate Live(b: Bridge) {
    b.active.Some? && b.active.value < |b.runtimes| && !b.runtimes[b.active.value].worker.Published?
  }

  // ----- the last status of a runtime -----

  /** The worker of runtime `id` has returned without an error. */
  predicate ReturnedWell(steps: seq<Step>, id: nat) {
    Internal(id, Returns(true)) in steps
  }

  predicate ToldWell(steps: seq<Step>, r: Runtime, id: nat) {
    match r.worker
    case Aborting(ok) => ok <==> ReturnedWell(steps, id)
    case Dropped(ok) => ok <==> ReturnedWell(steps, id)
    case Published => r.phase == (if ReturnedWell(steps, id) then Stopped else Failed) && !r.watch.Pending?
    case _ => !ReturnedWell(steps, id)
  }

  ghost predicate History(steps: seq<Step>, b: Bridge) {
    && (forall i: nat | i < |b.runtimes| :: ToldWell(steps, b.runtimes[i], i) && Sane(b.runtimes[i]))
    && (forall i: nat | i >= |b.runtimes| :: !ReturnedWell(steps, i))
  }

  lemma {:induction false} ReactHistory(steps: seq<Step>, r: Runtime, id: nat, e: Event)
    requires Sane(r) && ToldWell(steps, r, id) && React(r, e).Some?
    ensures Sane(React(r, e).value) && ToldWell(steps + [Internal(id, e)], React(r, e).value, id)
  {
    assert ReturnedWell(steps + [Internal(id, e)], id) <==> ReturnedWell(steps, id) || e == Returns(true);
  }

  lemma {:induction false} Unsaid(steps: seq<Step>, step: Step, id: nat)
    requires step != Internal(id, Returns(true))
    ensures ReturnedWell(steps + [step], id) <==> ReturnedWell(steps, id)
  {
  }

  /** A call adds at most one new runtime and only moves phases towards stopping. */
  predicate Called(r: Runtime, s: Runtime) {
    s == r || s == r.(phase := ToStopping(r.phase))
  }

  lemma {:induction false} CallsTouch(b: Bridge, step: Step, a: Bridge)
    requires !step.Internal? && Apply(b, step) == Some(a)
    ensures |b.runtimes| <= |a.runtimes| <= |b.runtimes| + 1
    ensures forall i | 0 <= i < |b.runtimes| :: Called(b.runtimes[i], a.runtimes[i])
    ensures |a.runtimes| > |b.runtimes| ==> a.runtimes[|b.runtimes|] == NewRuntime
  {
  }

  lemma {:induction false} HistoryStep(steps: seq<Step>, b: Bridge, step: Step, a: Bridge)
    requires History(steps, b) && Apply(b, step) == Some(a)
    ensures History(steps + [step], a)
  {
    if step.Internal? {
      ReactHistory(steps, b.runtimes[step.id], step.id, step.event);
    } else {
      CallsTouch(b, step, a);
    }
    forall i: nat | i < |a.runtimes| ensures ToldWell(steps + [step], a.runtimes[i], i) && Sane(a.runtimes[i]) {
      if !(step.Internal? && step.id == i) {
        Unsaid(steps, step, i);
        assert i < |b.runtimes| ==> ToldWell(steps, b.runtimes[i], i);
      }
    }
    forall i: nat | i >= |a.runtimes| ensures !ReturnedWell(steps + [step], i) {
      Unsaid(steps, step, i);
    }
  }

  lemma {:induction false} HistoryRun(before: seq<Step>, b: Bridge, steps: seq<Step>, a: Bridge)
    requires History(before, b) && Run(b, steps) == Some(a)
    ensures History(before + steps, a)
    decreases |steps|
  {
    if steps == [] {
      assert before + steps == before;
    } else {
      var c := Apply(b, steps[0]).value;
      HistoryStep(before, b, steps[0], c);
      HistoryRun(before + [steps[0]], c, steps[1..], a);
      assert before + [steps[0]] + steps[1..] == before + steps;
    }
  }

  /** Over every run: a worker's last status is Stopped exactly when it returned without an error, and Failed otherwise. */
  lemma {:induction false} LastStatusTells(callers: nat, steps: seq<Step>, b: Bridge, id: nat)
    requires Run(NewBridge(callers), steps) == Some(b) && id < |b.runtimes| && b.runtimes[id].worker.Published?
    ensures b.runtimes[id].phase == if ReturnedWell(steps, id) then Stopped else Failed
  {
    HistoryRun([], NewBridge(callers), steps, b);
    assert [] + steps == steps;
    assert ToldWell(steps, b.runtimes[id], id);
  }

  // ----- the answers to callers -----

  /** How a call can succeed: its runtime is seen ready, or nothing is registered any more. */
  predicate Deserved(b: Bridge, step: Step, a: Bridge, c: nat)
    requires c < |b.callers|
  {
    match b.callers[c]
    case Waiting(id) => step == Observe(c) && id < |b.runtimes| && b.runtimes[id].phase.Ready?
    case Idle => step == CallStop(c) && !Live(b) && a.active.None?
    case Taking(_) => step == Take(c) && !Live(b) && a.active.None?
    case _ => false
  }

  /** How a call can fail: the bridge is taken, the start was given up, or the stop was. */
  predicate Refused(b: Bridge, step: Step, c: nat)
    requires c < |b.callers|
  {
    match b.callers[c]
    case Idle => step == Reserve(c) && (b.reserved || Live(b))
    case Cancelling => step == Cancel(c)
    case Watching(_) => step == StopGivesUp(c)
    case _ => false
  }

  /** Over every run: a call succeeds or fails only as it deserves, and other callers are left alone. */
  lemma {:induction false} AnswersAreEarned(callers: nat, steps: seq<Step>, b: Bridge, step: Step, a: Bridge, c: nat)
    requires Run(NewBridge(callers), steps) == Some(b) && Apply(b, step) == Some(a) && c < |b.callers|
    ensures |a.callers| == |b.callers|
    ensures a.callers[c] == Done(true) && a.callers[c] != b.callers[c] ==> Deserved(b, step, a, c)
    ensures a.callers[c] == Done(false) && a.callers[c] != b.callers[c] ==> Refused(b, step, c)
    ensures step.Internal? || step.Query? || step.caller != c ==> a.callers[c] == b.callers[c]
  {
    RunOrderly(NewBridge(callers), steps, b);
    if step.Internal? || step.Query? {
    } else if Start(b, step.caller, step).Some? {
    } else {
    }
  }

  /** Over every run: a start is let in exactly when nothing is reserved and no worker is alive. */
  lemma {:induction false} ReservesIff(callers: nat, steps: seq<Step>, b: Bridge, c: nat, a: Bridge)
    requires Run(NewBridge(callers), steps) == Some(b) && Apply(b, Reserve(c)) == Some(a)
    ensures a.callers[c].Holding? <==> !b.reserved && !Live(b)
    ensures a.callers[c].Holding? ==> a.reserved && a.owner == c && a.active.None?
    ensures !a.callers[c].Holding? ==> a.callers[c] == Done(false) && a.reserved == b.reserved && Live(a) == Live(b)
  {
    RunOrderly(NewBridge(callers), steps, b);
  }

  /** Over every run: a stop that finds a live worker leaves its runtime stopping or terminal and waits for that runtime. */
  lemma {:induction false} StopReaches(callers: nat, steps: seq<Step>, b: Bridge, c: nat, a: Bridge)
    requires Run(NewBridge(callers), steps) == Some(b) && c < |b.callers| && Apply(b, CallStop(c)) == Some(a)
    ensures Live(b) ==> a.callers[c] == Watching(b.active.value) && a.active == b.active && Rank(a.runtimes[a.active.value].phase) >= Rank(Stopping)
    ensures !Live(b) ==> a.callers[c] == Done(true) && a.active.None? && a.runtimes == b.runtimes
  {
    RunOrderly(NewBridge(callers), steps, b);
  }
}
