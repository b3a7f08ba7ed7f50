/** How long a finalised snapshot stays complete (`lab/tcp_sink.py`). */
module SinkFinal {
  import opened Outcomes
  import opened SinkConnection
  import opened SinkServer
  import opened SinkSafety

  // ----- a complete snapshot without further connections -----

  /** The finalised file is complete, and every handler is gone. */
  predicate Settled(s: Server) {
    Good(s) && s.disk.finalized && FinalSnapshotComplete(s)
  }

  lemma {:induction false} SettledStep(s: Server, step: Step, t: Server)
    requires Settled(s) && !step.Accept? && Apply(s, step) == Some(t)
    ensures Settled(t)
  {
    StepGood(s, step, t);
    if ByServing(step) {
      assert t.handlers == s.handlers && t.receipts == s.receipts;
    } else if ByFlush(step) {
      FlushKeepsRows(s, step, t);
    } else if ByHandler(step) {
      HandlerEffect(s, step.id, step, t);
    } else {
      assert t.handlers == s.handlers && t.receipts == s.receipts;
    }
  }

  lemma {:induction false} ClosedForGood(s: Server, step: Step, t: Server)
    requires s.closed && Apply(s, step) == Some(t)
    ensures t.closed && !step.Accept?
  {
    if ByServing(step) {
    } else if ByFlush(step) {
      if step.FlushStep? {
        FlushLeavesClosed(s, s.flush.value, t);
      }
    } else if ByHandler(step) {
    } else {
    }
  }

  lemma {:induction false} FlushLeavesClosed(s: Server, f: Flush, t: Server)
    requires FlushOn(s, f) == Some(t)
    ensures t.closed == s.closed
  {
  }

  lemma {:induction false} ClosedRunSettled(s: Server, steps: seq<Step>, t: Server)
    requires Settled(s) && s.closed && Run(s, steps) == Some(t)
    ensures Settled(t)
    decreases |steps|
  {
    if steps != [] {
      var u := Apply(s, steps[0]).value;
      ClosedForGood(s, steps[0], u);
      SettledStep(s, steps[0], u);
      ClosedRunSettled(u, steps[1..], t);
    }
  }

  // ----- one more connection -----

  lemma {:induction false} RunOn(s: Server, step: Step, t: Server, rest: seq<Step>)
    requires Apply(s, step) == Some(t)
    ensures Run(s, [step] + rest) == Run(t, rest)
  {
    assert ([step] + rest)[1..] == rest;
  }

  lemma {:induction false} AcceptBreaks(s: Server, t: Server)
    requires Settled(s) && Apply(s, Accept(0)) == Some(t)
    ensures !FinalSnapshotComplete(t) && Run(s, [Accept(0)]) == Some(t)
  {
    RunOn(s, Accept(0), t, []);
    assert [Accept(0)] + [] == [Accept(0)];
  }

  /** While the socket is open, the loop can run and accept a connection that the file does not list. */
  lemma {:induction false} OpenCanBreak(s: Server) returns (more: seq<Step>)
    requires Settled(s) && !s.closed
    ensures Run(s, more).Some? && !FinalSnapshotComplete(Run(s, more).value)
  {
    assert s.serving.Off? || s.serving.Idle?;
    if s.serving.Idle? {
      more := [Accept(0)];
      AcceptBreaks(s, Apply(s, Accept(0)).value);
    } else {
      var u := Apply(s, StartServing).value;
      SettledStep(s, StartServing, u);
      AcceptBreaks(u, Apply(u, Accept(0)).value);
      more := [StartServing] + [Accept(0)];
      RunOn(s, StartServing, u, [Accept(0)]);
    }
  }

  /** Some continuation makes the finalised file incomplete. */
  ghost predicate Breakable(s: Server) {
    exists more :: Run(s, more).Some? && !FinalSnapshotComplete(Run(s, more).value)
  }

  /** A complete finalised file can become incomplete if and only if the listening socket is still open. */
  lemma {:induction false} BreakableIff(steps: seq<Step>, s: Server)
    requires Run(Initial, steps) == Some(s) && s.disk.finalized && FinalSnapshotComplete(s)
    ensures Breakable(s) <==> !s.closed
  {
    RunGood(Initial, steps, s);
    if s.closed {
      forall more | Run(s, more).Some? ensures FinalSnapshotComplete(Run(s, more).value) {
        ClosedRunSettled(s, more, Run(s, more).value);
      }
    } else {
      var more := OpenCanBreak(s);
    }
  }

  // ----- a run in which that happens -----

  /** What is left of an idle server between the steps of quiesce. */
  predicate Bare(s: Server) {
    s.conns == [] && s.handlers == [] && s.active == {} && s.receipts == [] && s.flush.None? && s.serving.Off? && !s.closed
  }

  lemma {:induction false} QuiesceStops() returns (steps: seq<Step>, t: Server)
    ensures Run(Initial, steps) == Some(t) && Bare(t) && t.quiesce.JoinSnapshot? && t.stopSnapshot && t.thread.Waiting?
  {
    var a := Apply(Initial, CallQuiesce).value;
    var b := Apply(a, CheckServing(false)).value;
    t := Apply(b, Drained).value;
    steps := [CallQuiesce] + ([CheckServing(false)] + ([Drained] + []));
    RunOn(b, Drained, t, []);
    RunOn(a, CheckServing(false), b, [Drained] + []);
    RunOn(Initial, CallQuiesce, a, [CheckServing(false)] + ([Drained] + []));
  }

  lemma {:induction false} QuiesceJoins(s: Server) returns (steps: seq<Step>, t: Server)
    requires Bare(s) && s.quiesce.JoinSnapshot? && s.stopSnapshot && s.thread.Waiting?
    ensures Run(s, steps) == Some(t) && Bare(t) && t.quiesce.FinalFlush? && t.finalized && t.quiesced
  {
    var a := Apply(s, SnapshotExit).value;
    var b := Apply(a, SnapshotJoined).value;
    t := Apply(b, Finalize).value;
    steps := [SnapshotExit] + ([SnapshotJoined] + ([Finalize] + []));
    RunOn(b, Finalize, t, []);
    RunOn(a, SnapshotJoined, b, [Finalize] + []);
    RunOn(s, SnapshotExit, a, [SnapshotJoined] + ([Finalize] + []));
  }

  lemma {:induction false} ReadEmpty(s: Server) returns (steps: seq<Step>, t: Server)
    requires Bare(s) && s.quiesce.FinalFlush? && s.finalized && s.quiesced
    ensures Run(s, steps) == Some(t) && t == s.(flush := t.flush) && t.flush.Some?
    ensures t.flush.value.stage.ReadReceipts? && t.flush.value.owner.ByFinalFlush? && t.flush.value.rows == []
    ensures t.flush.value.quiesced && t.flush.value.finalized
  {
    var a := Apply(s, BeginFlush(ByFinalFlush)).value;
    var b := Apply(a, FlushStep).value;
    t := Apply(b, FlushStep).value;
    steps := [BeginFlush(ByFinalFlush)] + ([FlushStep] + ([FlushStep] + []));
    RunOn(b, FlushStep, t, []);
    RunOn(a, FlushStep, b, [FlushStep] + []);
    RunOn(s, BeginFlush(ByFinalFlush), a, [FlushStep] + ([FlushStep] + []));
  }

  lemma {:induction false} WriteEmpty(s: Server) returns (steps: seq<Step>, t: Server)
    requires s.flush.Some? && s.flush.value.stage.ReadReceipts? && s.flush.value.owner.ByFinalFlush? && s.flush.value.rows == []
    requires s.flush.value.quiesced && s.flush.value.finalized && s.handlers == []
    ensures Run(s, steps) == Some(t) && t.disk.finalized && FinalSnapshotComplete(t) && t.closed == s.closed
  {
    var a := Apply(s, FlushStep).value;
    t := Apply(a, WriteSnapshot(true)).value;
    steps := [FlushStep] + ([WriteSnapshot(true)] + []);
    RunOn(a, WriteSnapshot(true), t, []);
    RunOn(s, FlushStep, a, [WriteSnapshot(true)] + []);
  }

  lemma {:induction false} RunAppend(s: Server, a: seq<Step>, t: Server, b: seq<Step>)
    requires Run(s, a) == Some(t)
    ensures Run(s, a + b) == Run(t, b)
    decreases |a|
  {
    if a == [] {
      assert a + b == b;
    } else {
      assert (a + b)[1..] == a[1..] + b;
      RunAppend(Apply(s, a[0]).value, a[1..], t, b);
    }
  }

  /** An idle server is quiesced and its final snapshot written; serving then starts and accepts a connection. */
  lemma {:induction false} ServedAfterQuiesce() returns (steps: seq<Step>, t: Server)
    ensures Run(Initial, steps) == Some(t) && t.disk.finalized && !FinalSnapshotComplete(t)
  {
    var first, a := QuiesceStops();
    var second, b := QuiesceJoins(a);
    RunAppend(Initial, first, a, second);
    var third, c := ReadEmpty(b);
    RunAppend(Initial, first + second, b, third);
    var fourth, d := WriteEmpty(c);
    RunAppend(Initial, first + second + third, c, fourth);
    steps := first + second + third + fourth;
    RunGood(Initial, steps, d);
    var more := OpenCanBreak(d);
    RunAppend(Initial, steps, d, more);
    steps, t := steps + more, Run(d, more).value;
    RunGood(d, more, t);
  }
}
