/** What the sink's rows and events say about the steps of the run behind them (`lab/tcp_sink.py`). */
module SinkHistory {
  import opened Outcomes
  import opened SinkConnection
  import opened SinkServer
  import opened SinkSafety

  // ----- what happened to a connection -----

  /** All bytes its handler received. */
  function Received(steps: seq<Step>, id: nat): nat {
    if steps == [] then 0
    else
      var last := steps[|steps| - 1];
      Received(steps[..|steps| - 1], id) + if last.Receive? && last.id == id then last.bytes else 0
  }

  /** Its recorded receive events: when, and how many bytes by then. */
  function Events(steps: seq<Step>, id: nat): seq<Receipt> {
    if steps == [] then []
    else
      var before, last := steps[..|steps| - 1], steps[|steps| - 1];
      Events(before, id) + if last.RecordReceived? && last.id == id then [Receipt(last.at, id, Received(before, id))] else []
  }

  /** Its handler saw the end of the stream before `quiesce` was called. */
  predicate EndedFirst(steps: seq<Step>, id: nat) {
    exists k | 0 <= k < |steps| :: steps[k] == CheckQuiescing(id) && CallQuiesce !in steps[..k]
  }

  function EventsOf(receipts: seq<Receipt>, id: nat): seq<Receipt> {
    if receipts == [] then []
    else
      var last := receipts[|receipts| - 1];
      EventsOf(receipts[..|receipts| - 1], id) + if last.id == id then [last] else []
  }

  /** No event came later than the one before it. */
  ghost predicate NoPause(events: seq<Receipt>) {
    forall i | 0 < i < |events| :: Pause(events, i) <= 0
  }

  /** The row shows the pause before event `k`, the first widest one, with the byte counts on either side. */
  ghost predicate Shows(row: Row, events: seq<Receipt>, k: nat) {
    && FirstWidest(events, k, |events|)
    && row.gap == Pause(events, k) && row.gapStart == events[k - 1].total && row.gapEnd == events[k].total
  }

  ghost predicate ShowsWidest(row: Row, events: seq<Receipt>) {
    (exists k: nat :: Shows(row, events, k)) || (NoPause(events) && row.gap == 0 && row.gapStart == 0 && row.gapEnd == 0)
  }

  ghost predicate Measures(c: Connection, events: seq<Receipt>) {
    && c.lastReceive == (if events == [] then None else Some(events[|events| - 1].at))
    && c.row.bytes == (if events == [] then 0 else events[|events| - 1].total)
    && ShowsWidest(c.row, events)
  }

  lemma {:induction false} PausesKept(events: seq<Receipt>, r: Receipt)
    ensures forall i | 0 < i < |events| :: Pause(events + [r], i) == Pause(events, i)
  {
  }

  /** One more event: the gap moves exactly when the new pause is wider than every pause before it. */
  lemma {:induction false} ShowsOn(row: Row, events: seq<Receipt>, r: Receipt, after: Row)
    requires ShowsWidest(row, events) && events != []
    requires if r.at - events[|events| - 1].at > row.gap
      then after.gap == r.at - events[|events| - 1].at && after.gapStart == events[|events| - 1].total && after.gapEnd == r.total
      else after.gap == row.gap && after.gapStart == row.gapStart && after.gapEnd == row.gapEnd
    ensures ShowsWidest(after, events + [r])
  {
    var more, n := events + [r], |events|;
    PausesKept(events, r);
    assert Pause(more, n) == r.at - events[n - 1].at;
    if k: nat :| Shows(row, events, k) {
      assert Shows(after, more, if Pause(more, n) > row.gap then n else k);
    } else if Pause(more, n) > 0 {
      assert Shows(after, more, n);
    } else {
      assert NoPause(more);
    }
  }

  lemma {:induction false} MeasuresOn(c: Connection, events: seq<Receipt>, id: nat, total: nat, at: int, wall: nat)
    requires Measures(c, events) && total > c.row.bytes && Record(c, total, false, at, wall).Ok?
    ensures Measures(Record(c, total, false, at, wall).value, events + [Receipt(at, id, total)])
  {
    var r, d := Receipt(at, id, total), Record(c, total, false, at, wall).value;
    if events == [] {
      assert NoPause([r]);
      assert NoPause(events) && !(exists k: nat :: Shows(c.row, events, k));
      assert events + [r] == [r];
    } else {
      ShowsOn(c.row, events, r, d.row);
    }
  }

  lemma {:induction false} SameGap(row: Row, after: Row, events: seq<Receipt>)
    requires ShowsWidest(row, events) && after.gap == row.gap && after.gapStart == row.gapStart && after.gapEnd == row.gapEnd
    ensures ShowsWidest(after, events)
  {
    if k: nat :| Shows(row, events, k) {
      assert Shows(after, events, k);
    }
  }

  lemma {:induction false} MeasuresQuiet(c: Connection, events: seq<Receipt>, final: bool, at: int, wall: nat)
    requires Measures(c, events) && Record(c, c.row.bytes, final, at, wall).Ok?
    ensures Measures(Record(c, c.row.bytes, final, at, wall).value, events)
  {
    SameGap(c.row, Record(c, c.row.bytes, final, at, wall).value.row, events);
  }

  // ----- what every run keeps -----

  /** The handler has not decided about its end yet. */
  predicate Early(stage: Stage) {
    stage.Unstarted? || stage.Receiving? || stage.Counted? || stage.Recorded? || stage.AtEof?
  }

  /** A connection and its handler against the steps so far; an event may be recorded but not published yet. */
  ghost predicate Traced(steps: seq<Step>, h: Handler, c: Connection, receipts: seq<Receipt>, id: nat) {
    && h.total == Received(steps, id)
    && (h.natural <==> EndedFirst(steps, id))
    && Measures(c, Events(steps, id))
    && Events(steps, id) == (if h.stage.Recorded? then EventsOf(receipts, id) + [Receipt(h.stage.at, id, h.total)] else EventsOf(receipts, id))
    && (Early(h.stage) ==> !h.natural)
  }

  ghost predicate Untouched(steps: seq<Step>, receipts: seq<Receipt>, id: nat) {
    Received(steps, id) == 0 && Events(steps, id) == [] && !EndedFirst(steps, id) && EventsOf(receipts, id) == []
  }

  ghost predicate History(steps: seq<Step>, s: Server) {
    && |s.handlers| == |s.conns|
    && (s.lifecycle.Running? <==> CallQuiesce !in steps)
    && (forall id: nat | id < |s.handlers| :: Traced(steps, s.handlers[id], s.conns[id], s.receipts, id))
    && (forall id: nat | id >= |s.handlers| :: Untouched(steps, s.receipts, id))
  }

  lemma {:induction false} Snoc(steps: seq<Step>, step: Step, id: nat)
    ensures Received(steps + [step], id) == Received(steps, id) + (if step.Receive? && step.id == id then step.bytes else 0)
    ensures Events(steps + [step], id) == if step.RecordReceived? && step.id == id then Events(steps, id) + [Receipt(step.at, id, Received(steps, id))] else Events(steps, id)
    ensures EndedFirst(steps + [step], id) <==> EndedFirst(steps, id) || (step == CheckQuiescing(id) && CallQuiesce !in steps)
  {
    var more := steps + [step];
    assert more[..|steps|] == steps && more[|steps|] == step;
    if EndedFirst(steps, id) {
      var k :| 0 <= k < |steps| && steps[k] == CheckQuiescing(id) && CallQuiesce !in steps[..k];
      assert more[k] == steps[k] && more[..k] == steps[..k];
    }
    if EndedFirst(more, id) {
      var k :| 0 <= k < |more| && more[k] == CheckQuiescing(id) && CallQuiesce !in more[..k];
      if k < |steps| {
        assert steps[k] == more[k] && steps[..k] == more[..k];
      }
    }
  }

  lemma {:induction false} ReceiptsSnoc(receipts: seq<Receipt>, r: Receipt, id: nat)
    ensures EventsOf(receipts + [r], id) == if r.id == id then EventsOf(receipts, id) + [r] else EventsOf(receipts, id)
  {
    assert (receipts + [r])[..|receipts|] == receipts;
  }

  /** A step that says nothing about a connection leaves what is traced of it. */
  lemma {:induction false} ElsewhereTraced(steps: seq<Step>, step: Step, h: Handler, c: Connection, receipts: seq<Receipt>, id: nat)
    requires Traced(steps, h, c, receipts, id) && !(ByHandler(step) && step.id == id)
    ensures Traced(steps + [step], h, c, receipts, id)
  {
    Snoc(steps, step, id);
  }

  lemma {:induction false} ElsewhereUntouched(steps: seq<Step>, step: Step, receipts: seq<Receipt>, id: nat)
    requires Untouched(steps, receipts, id) && !(ByHandler(step) && step.id == id)
    ensures Untouched(steps + [step], receipts, id)
  {
    Snoc(steps, step, id);
  }

  /** A received count is recorded as one event. */
  lemma {:induction false} RecordedTraced(steps: seq<Step>, h: Handler, c: Connection, receipts: seq<Receipt>, id: nat, at: int, wall: nat)
    requires Traced(steps, h, c, receipts, id) && h.stage.Counted? && Synced(h, c)
    ensures Record(c, h.total, false, at, wall).Ok?
    ensures Traced(steps + [RecordReceived(id, at, wall)], h.(stage := Recorded(at)), Record(c, h.total, false, at, wall).value, receipts, id)
  {
    Snoc(steps, RecordReceived(id, at, wall), id);
    MeasuresOn(c, Events(steps, id), id, h.total, at, wall);
  }

  lemma {:induction false} FinalTraced(steps: seq<Step>, h: Handler, c: Connection, receipts: seq<Receipt>, id: nat, at: int, wall: nat)
    requires Traced(steps, h, c, receipts, id) && h.stage.Closing? && Synced(h, c)
    ensures Record(c, h.total, h.natural, at, wall).Ok?
    ensures Traced(steps + [RecordFinal(id, at, wall)], h.(stage := Finished), Record(c, h.total, h.natural, at, wall).value, receipts, id)
  {
    Snoc(steps, RecordFinal(id, at, wall), id);
    MeasuresQuiet(c, Events(steps, id), h.natural, at, wall);
  }

  lemma {:induction false} MovedTraced(steps: seq<Step>, h: Handler, g: Handler, c: Connection, receipts: seq<Receipt>, id: nat, step: Step)
    requires Traced(steps, h, c, receipts, id) && !step.RecordReceived? && !h.stage.Recorded? && !g.stage.Recorded?
    requires g.total == h.total + (if step.Receive? && step.id == id then step.bytes else 0)
    requires g.natural <==> h.natural || (step == CheckQuiescing(id) && CallQuiesce !in steps)
    requires Early(g.stage) ==> !g.natural
    ensures Traced(steps + [step], g, c, receipts, id)
  {
    Snoc(steps, step, id);
  }

  predicate Records(step: Step) {
    step.RecordReceived? || step.RecordFinal?
  }

  lemma {:induction false} RecordsTraced(steps: seq<Step>, s: Server, id: nat, step: Step, t: Server)
    requires id < |s.handlers| == |s.conns| && Records(step) && step.id == id && StepHandler(s, id, step) == Some(t)
    requires Synced(s.handlers[id], s.conns[id]) && Traced(steps, s.handlers[id], s.conns[id], s.receipts, id)
    ensures |t.handlers| == |t.conns| == |s.conns| && Traced(steps + [step], t.handlers[id], t.conns[id], t.receipts, id)
  {
    var h, c := s.handlers[id], s.conns[id];
    if step.RecordReceived? {
      RecordedTraced(steps, h, c, s.receipts, id, step.at, step.wall);
    } else {
      FinalTraced(steps, h, c, s.receipts, id, step.at, step.wall);
    }
  }

  lemma {:induction false} PublishTraced(steps: seq<Step>, h: Handler, c: Connection, receipts: seq<Receipt>, id: nat)
    requires Traced(steps, h, c, receipts, id) && h.stage.Recorded?
    ensures Traced(steps + [PublishReceipt(id)], h.(stage := Receiving), c, receipts + [Receipt(h.stage.at, id, h.total)], id)
  {
    Snoc(steps, PublishReceipt(id), id);
    ReceiptsSnoc(receipts, Receipt(h.stage.at, id, h.total), id);
  }

  /** The handler's own step: one receive is counted, recorded and published once. */
  lemma {:induction false} HandlerTraced(steps: seq<Step>, s: Server, id: nat, step: Step, t: Server)
    requires id < |s.handlers| == |s.conns| && ByHandler(step) && step.id == id && StepHandler(s, id, step) == Some(t)
    requires Synced(s.handlers[id], s.conns[id]) && Traced(steps, s.handlers[id], s.conns[id], s.receipts, id)
    requires s.lifecycle.Running? <==> CallQuiesce !in steps
    ensures |t.handlers| == |t.conns| == |s.conns| && Traced(steps + [step], t.handlers[id], t.conns[id], t.receipts, id)
  {
    if Records(step) {
      RecordsTraced(steps, s, id, step, t);
    } else if step.PublishReceipt? {
      PublishTraced(steps, s.handlers[id], s.conns[id], s.receipts, id);
    } else {
      var g := t.handlers[id];
      MovedTraced(steps, s.handlers[id], g, s.conns[id], s.receipts, id, step);
    }
  }

  lemma {:induction false} ReceiptsElsewhere(s: Server, id: nat, step: Step, t: Server, other: nat)
    requires id < |s.handlers| && id < |s.conns| && StepHandler(s, id, step) == Some(t) && other != id
    ensures EventsOf(t.receipts, other) == EventsOf(s.receipts, other)
  {
    if step.PublishReceipt? {
      ReceiptsSnoc(s.receipts, Receipt(s.handlers[id].stage.at, id, s.handlers[id].total), other);
    }
  }

  /** What is traced depends on the row, the time of the last event and the connection's own published events. */
  lemma {:induction false} TracedLike(steps: seq<Step>, h: Handler, c: Connection, d: Connection, receipts: seq<Receipt>, more: seq<Receipt>, id: nat)
    requires Traced(steps, h, c, receipts, id) && d.row == c.row && d.lastReceive == c.lastReceive && EventsOf(more, id) == EventsOf(receipts, id)
    ensures Traced(steps, h, d, more, id)
  {
  }

  ghost predicate ReceiptsAlike(receipts: seq<Receipt>, more: seq<Receipt>, id: nat) {
    EventsOf(more, id) == EventsOf(receipts, id)
  }

  /** Only connection `me` moved. */
  lemma {:induction false} HistoryElsewhere(steps: seq<Step>, s: Server, me: nat, step: Step, t: Server)
    requires History(steps, s) && ByHandler(step) && step.id == me < |s.handlers| && t.lifecycle == s.lifecycle
    requires |t.handlers| == |t.conns| == |s.handlers| && t.handlers == s.handlers[me := t.handlers[me]] && t.conns == s.conns[me := t.conns[me]]
    requires forall id: nat | id != me :: ReceiptsAlike(s.receipts, t.receipts, id)
    requires Traced(steps + [step], t.handlers[me], t.conns[me], t.receipts, me)
    ensures History(steps + [step], t)
  {
    forall id: nat | id < |t.handlers| ensures Traced(steps + [step], t.handlers[id], t.conns[id], t.receipts, id) {
      if id != me {
        assert ReceiptsAlike(s.receipts, t.receipts, id);
        TracedLike(steps, s.handlers[id], s.conns[id], t.conns[id], s.receipts, t.receipts, id);
        ElsewhereTraced(steps, step, t.handlers[id], t.conns[id], t.receipts, id);
      }
    }
    forall id: nat | id >= |t.handlers| ensures Untouched(steps + [step], t.receipts, id) {
      assert Untouched(steps, s.receipts, id);
      assert ReceiptsAlike(s.receipts, t.receipts, id);
      ElsewhereUntouched(steps, step, t.receipts, id);
    }
  }

  lemma {:induction false} HandlerHistory(steps: seq<Step>, s: Server, step: Step, t: Server)
    requires Good(s) && History(steps, s) && ByHandler(step) && Apply(s, step) == Some(t)
    ensures History(steps + [step], t)
  {
    var me := step.id;
    assert t.lifecycle == s.lifecycle by {
      ThreadsKeepLifecycle(s, step, t);
    }
    HandlerEffect(s, me, step, t);
    assert Traced(steps + [step], t.handlers[me], t.conns[me], t.receipts, me) by {
      assert Synced(s.handlers[me], s.conns[me]) && Traced(steps, s.handlers[me], s.conns[me], s.receipts, me);
      HandlerTraced(steps, s, me, step, t);
    }
    forall id: nat | id != me ensures ReceiptsAlike(s.receipts, t.receipts, id) {
      ReceiptsElsewhere(s, me, step, t, id);
    }
    HistoryElsewhere(steps, s, me, step, t);
  }

  /** A connection is accepted with nothing behind it; a failed spawn records nothing. */
  lemma {:induction false} ServingTraced(steps: seq<Step>, s: Server, step: Step, t: Server, id: nat)
    requires Good(s) && History(steps, s) && ByServing(step) && Apply(s, step) == Some(t) && id < |t.handlers|
    ensures |t.handlers| == |t.conns| && Traced(steps, t.handlers[id], t.conns[id], t.receipts, id)
  {
    if step.Accept? && id == |s.conns| {
      assert Untouched(steps, s.receipts, id);
      assert NoPause([]);
    } else {
      assert Traced(steps, s.handlers[id], s.conns[id], s.receipts, id);
      if step.FailRecord? && id == s.serving.id {
        assert Synced(s.handlers[id], s.conns[id]);
        MeasuresQuiet(s.conns[id], Events(steps, id), false, step.at, step.wall);
      }
    }
  }

  lemma {:induction false} ServingHistory(steps: seq<Step>, s: Server, step: Step, t: Server)
    requires Good(s) && History(steps, s) && ByServing(step) && Apply(s, step) == Some(t)
    ensures History(steps + [step], t)
  {
    ThreadsKeepLifecycle(s, step, t);
    AttachedServing(s, step, t);
    forall id: nat | id < |t.handlers| ensures Traced(steps + [step], t.handlers[id], t.conns[id], t.receipts, id) {
      ServingTraced(steps, s, step, t, id);
      ElsewhereTraced(steps, step, t.handlers[id], t.conns[id], t.receipts, id);
    }
    forall id: nat | id >= |t.handlers| ensures Untouched(steps + [step], t.receipts, id) {
      ElsewhereUntouched(steps, step, t.receipts, id);
    }
  }

  lemma {:induction false} OtherHistory(steps: seq<Step>, s: Server, step: Step, t: Server)
    requires History(steps, s) && !ByServing(step) && !ByHandler(step) && RowsKept(s, t)
    requires t.lifecycle.Running? <==> s.lifecycle.Running? && step != CallQuiesce
    ensures History(steps + [step], t)
  {
    forall id: nat | id < |t.handlers| ensures Traced(steps + [step], t.handlers[id], t.conns[id], t.receipts, id) {
      TracedLike(steps, s.handlers[id], s.conns[id], t.conns[id], s.receipts, t.receipts, id);
      ElsewhereTraced(steps, step, t.handlers[id], t.conns[id], t.receipts, id);
    }
    forall id: nat | id >= |t.handlers| ensures Untouched(steps + [step], t.receipts, id) {
      ElsewhereUntouched(steps, step, t.receipts, id);
    }
  }

  lemma {:induction false} FlushKeepsRunning(s: Server, step: Step, t: Server)
    requires StepFlush(s, step) == Some(t)
    ensures t.lifecycle == s.lifecycle
  {
    if step.FlushStep? && s.flush.value.stage.MarkRows? {
      assert t == MarkOn(s, s.flush.value, s.flush.value.stage.next);
    }
  }

  lemma {:induction false} OthersKeepRows(s: Server, step: Step, t: Server)
    requires Ordered(s) && !ByServing(step) && !ByHandler(step) && Apply(s, step) == Some(t)
    ensures RowsKept(s, t)
    ensures t.lifecycle.Running? <==> s.lifecycle.Running? && step != CallQuiesce
  {
    if ByFlush(step) {
      FlushKeepsRows(s, step, t);
      FlushKeepsRunning(s, step, t);
    }
  }

  lemma {:induction false} HistoryStep(steps: seq<Step>, s: Server, step: Step, t: Server)
    requires Good(s) && History(steps, s) && Apply(s, step) == Some(t)
    ensures History(steps + [step], t)
  {
    if ByServing(step) {
      ServingHistory(steps, s, step, t);
    } else if ByHandler(step) {
      HandlerHistory(steps, s, step, t);
    } else {
      OthersKeepRows(s, step, t);
      OtherHistory(steps, s, step, t);
    }
  }

  lemma {:induction false} HistoryRun(before: seq<Step>, s: Server, steps: seq<Step>, t: Server)
    requires Good(s) && History(before, s) && Run(s, steps) == Some(t)
    ensures History(before + steps, t)
    decreases |steps|
  {
    if steps == [] {
      assert before + steps == before;
    } else {
      var u := Apply(s, steps[0]).value;
      HistoryStep(before, s, steps[0], u);
      StepGood(s, steps[0], u);
      HistoryRun(before + [steps[0]], u, steps[1..], t);
      assert before + [steps[0]] + steps[1..] == before + steps;
    }
  }

  /** What a published row says about the run: every byte, the kind of end, and the widest pause. */
  ghost predicate Tells(steps: seq<Step>, row: Row, receipts: seq<Receipt>, id: nat) {
    && row.bytes == Received(steps, id)
    && (row.final <==> EndedFirst(steps, id))
    && EventsOf(receipts, id) == Events(steps, id)
    && ShowsWidest(row, Events(steps, id))
  }

  lemma {:induction false} RunHistory(steps: seq<Step>, t: Server)
    requires Run(Initial, steps) == Some(t)
    ensures History(steps, t)
  {
    assert History([], Initial);
    HistoryRun([], Initial, steps, t);
    assert [] + steps == steps;
  }

  /** Once its handler is gone, a connection's row and events tell its whole run. */
  lemma {:induction false} RowsTellTheRun(steps: seq<Step>, t: Server, id: nat)
    requires Run(Initial, steps) == Some(t) && id < |t.handlers|
    ensures |t.conns| == |t.handlers|
    ensures t.handlers[id].stage.Popped? ==> Tells(steps, t.conns[id].row, t.receipts, id)
  {
    RunGood(Initial, steps, t);
    RunHistory(steps, t);
    assert Synced(t.handlers[id], t.conns[id]) && Traced(steps, t.handlers[id], t.conns[id], t.receipts, id);
  }

  /** The finalised snapshot on disk tells the run of every connection. */
  lemma {:induction false} FinalSnapshotTellsTheRun(steps: seq<Step>, t: Server, id: nat)
    requires Run(Initial, steps) == Some(t) && AcceptsInTime(Initial, steps) && t.disk.finalized
    ensures |t.disk.rows| == |t.conns|
    ensures id < |t.disk.rows| ==> Tells(steps, t.disk.rows[id], t.disk.receipts, id)
  {
    EveryRunIsSafe(steps, t);
    RunGood(Initial, steps, t);
    RunClosed(Initial, steps, t);
    if id < |t.disk.rows| {
      RowsTellTheRun(steps, t, id);
    }
  }

  // ----- no byte is lost or counted twice -----

  /** All bytes received in a run, by whichever handler. */
  function AllBytes(steps: seq<Step>): nat {
    if steps == [] then 0
    else AllBytes(steps[..|steps| - 1]) + if steps[|steps| - 1].Receive? then steps[|steps| - 1].bytes else 0
  }

  /** Bytes received by the first `n` connections. */
  function ReceivedBy(steps: seq<Step>, n: nat): nat {
    if n == 0 then 0 else ReceivedBy(steps, n - 1) + Received(steps, n - 1)
  }

  lemma {:induction false} ReceivedSnoc(steps: seq<Step>, step: Step, id: nat)
    ensures Received(steps + [step], id) == Received(steps, id) + (if step.Receive? && step.id == id then step.bytes else 0)
  {
    assert (steps + [step])[..|steps|] == steps;
  }

  lemma {:induction false} ReceivedBySnoc(steps: seq<Step>, step: Step, n: nat)
    ensures ReceivedBy(steps + [step], n) == ReceivedBy(steps, n) + if step.Receive? && step.id < n then step.bytes else 0
  {
    if n > 0 {
      ReceivedBySnoc(steps, step, n - 1);
      ReceivedSnoc(steps, step, n - 1);
    }
  }

  lemma {:induction false} NoneReceived(n: nat)
    ensures ReceivedBy([], n) == 0
  {
    if n > 0 {
      NoneReceived(n - 1);
    }
  }

  predicate NamesBelow(steps: seq<Step>, n: nat) {
    forall k | 0 <= k < |steps| :: steps[k].Receive? ==> steps[k].id < n
  }

  lemma {:induction false} AllBytesAreReceived(steps: seq<Step>, n: nat)
    requires NamesBelow(steps, n)
    ensures AllBytes(steps) == ReceivedBy(steps, n)
    decreases |steps|
  {
    if steps == [] {
      NoneReceived(n);
    } else {
      var k := |steps| - 1;
      AllBytesAreReceived(steps[..k], n);
      ReceivedBySnoc(steps[..k], steps[k], n);
      assert steps[..k] + [steps[k]] == steps;
    }
  }

  /** A receive that happened counts, so its connection was accepted. */
  lemma {:induction false} ReceivedPositive(steps: seq<Step>, k: nat)
    requires k < |steps| && steps[k].Receive? && steps[k].bytes > 0
    ensures Received(steps, steps[k].id) > 0
    decreases |steps|
  {
    var n := |steps| - 1;
    if k < n {
      ReceivedPositive(steps[..n], k);
    }
  }

  lemma {:induction false} ReceivesArePositive(s: Server, steps: seq<Step>, k: nat)
    requires Run(s, steps).Some? && k < |steps| && steps[k].Receive?
    ensures steps[k].bytes > 0
    decreases |steps|
  {
    if k > 0 {
      ReceivesArePositive(Apply(s, steps[0]).value, steps[1..], k - 1);
    }
  }

  /** Conservation over every run: the connections together hold exactly the bytes of all receive steps. */
  lemma {:induction false} NoByteLost(steps: seq<Step>, t: Server)
    requires Run(Initial, steps) == Some(t)
    ensures AllBytes(steps) == ReceivedBy(steps, |t.handlers|)
    ensures forall id: nat | id < |t.handlers| :: t.handlers[id].total == Received(steps, id)
  {
    RunHistory(steps, t);
    forall id: nat | id < |t.handlers| ensures t.handlers[id].total == Received(steps, id) {
      assert Traced(steps, t.handlers[id], t.conns[id], t.receipts, id);
    }
    forall k | 0 <= k < |steps| && steps[k].Receive? ensures steps[k].id < |t.handlers| {
      ReceivesArePositive(Initial, steps, k);
      ReceivedPositive(steps, k);
      assert steps[k].id >= |t.handlers| ==> Untouched(steps, t.receipts, steps[k].id);
    }
    AllBytesAreReceived(steps, |t.handlers|);
  }
}
