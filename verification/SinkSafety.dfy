/** What every run of the sink server keeps, and what a finalised snapshot means. */
module SinkSafety {
  import opened Outcomes
  import opened SinkConnection
  import opened SinkServer

  // ----- connections and their handlers -----

  predicate Synced(h: Handler, c: Connection) {
    match h.stage
    case Unstarted => h.total == 0 && c.row.bytes == 0 && !c.row.final
    case Counted => c.row.bytes < h.total && !c.row.final
    case Finished => c.row.bytes == h.total && c.row.final == h.natural
    case Popped => c.row.bytes == h.total && c.row.final == h.natural
    case _ => c.row.bytes == h.total && !c.row.final
  }

  predicate Attached(s: Server) {
    && |s.handlers| == |s.conns|
    && (forall i | 0 <= i < |s.conns| :: Synced(s.handlers[i], s.conns[i]))
    && (forall i | 0 <= i < |s.conns| :: i in s.active <==> !s.handlers[i].stage.Popped?)
    && (forall i | i in s.active :: i < |s.conns|)
    && (s.serving.Spawning? || s.serving.SpawnFailed? || s.serving.SpawnRecorded? ==>
          s.serving.id < |s.handlers| && s.handlers[s.serving.id] == Handler(Unstarted, 0, false))
  }

  lemma {:induction false} AttachedServing(s: Server, step: Step, t: Server)
    requires Attached(s) && ByServing(step) && StepServing(s, step) == Some(t)
    ensures Attached(t)
  {
    if step.Accept? {
      assert forall i | 0 <= i < |s.conns| :: t.handlers[i] == s.handlers[i] && t.conns[i] == s.conns[i];
    } else if step.FailRecord? {
      assert Synced(s.handlers[s.serving.id], s.conns[s.serving.id]);
    }
  }

  /** A handler's step changes its own stage and connection, and may leave the active set. */
  lemma {:induction false} HandlerEffect(s: Server, id: nat, step: Step, t: Server)
    requires Attached(s) && id < |s.conns| && StepHandler(s, id, step) == Some(t)
    ensures |t.handlers| == |s.handlers| && |t.conns| == |s.conns| && t.serving == s.serving
    ensures t.handlers == s.handlers[id := t.handlers[id]] && t.conns == s.conns[id := t.conns[id]]
    ensures Synced(t.handlers[id], t.conns[id]) && !s.handlers[id].stage.Unstarted? && !s.handlers[id].stage.Popped?
    ensures t.active == if t.handlers[id].stage.Popped? then s.active - {id} else s.active
  {
    assert Synced(s.handlers[id], s.conns[id]);
  }

  lemma {:induction false} AttachedHandler(s: Server, id: nat, step: Step, t: Server)
    requires Attached(s) && id < |s.conns| && StepHandler(s, id, step) == Some(t)
    ensures Attached(t)
  {
    HandlerEffect(s, id, step, t);
    AttachedElsewhere(s, id, t);
  }

  lemma {:induction false} AttachedElsewhere(s: Server, id: nat, t: Server)
    requires Attached(s) && id < |s.conns| && |t.handlers| == |s.handlers| && |t.conns| == |s.conns| && t.serving == s.serving
    requires t.handlers == s.handlers[id := t.handlers[id]] && t.conns == s.conns[id := t.conns[id]]
    requires Synced(t.handlers[id], t.conns[id]) && !s.handlers[id].stage.Unstarted? && !s.handlers[id].stage.Popped?
    requires t.active == if t.handlers[id].stage.Popped? then s.active - {id} else s.active
    ensures Attached(t)
  {
    assert forall i | 0 <= i < |s.conns| && i != id :: t.handlers[i] == s.handlers[i] && t.conns[i] == s.conns[i];
  }

  /** A flush changes no row, no handler and no event. */
  predicate RowsKept(s: Server, t: Server) {
    && t.handlers == s.handlers && t.active == s.active && t.serving == s.serving && t.receipts == s.receipts
    && |t.conns| == |s.conns|
    && (forall i | 0 <= i < |s.conns| :: t.conns[i].row == s.conns[i].row && t.conns[i].lastReceive == s.conns[i].lastReceive && t.conns[i].generation == s.conns[i].generation)
  }

  lemma {:induction false} MarkKeepsRows(s: Server, f: Flush, i: nat)
    ensures RowsKept(s, MarkOn(s, f, i)) && MarkOn(s, f, i).finalized == s.finalized && MarkOn(s, f, i).quiesce == s.quiesce
  {
  }

  lemma {:induction false} FlushOnKeepsRows(s: Server, f: Flush, t: Server)
    requires FlushOn(s, f) == Some(t)
    ensures RowsKept(s, t) && t.finalized == s.finalized
  {
    if f.stage.MarkRows? {
      MarkKeepsRows(s, f, f.stage.next);
    } else if !Reads(f.stage) {
      EndKeepsRows(s, s.flushedLifecycle, f.owner, true);
      EndKeepsRows(s, f.lifecycleGeneration, f.owner, true);
    }
  }

  lemma {:induction false} EndKeepsRows(s: Server, flushed: int, owner: Owner, ok: bool)
    ensures RowsKept(s, EndFlush(s.(flushedLifecycle := flushed), owner, ok))
    ensures EndFlush(s.(flushedLifecycle := flushed), owner, ok).finalized == s.finalized
  {
  }

  lemma {:induction false} FlushKeepsRows(s: Server, step: Step, t: Server)
    requires StepFlush(s, step) == Some(t)
    ensures RowsKept(s, t) && t.finalized == s.finalized
  {
    if step.FlushStep? {
      FlushOnKeepsRows(s, s.flush.value, t);
    } else if step.WriteSnapshot? && !step.ok {
      EndKeepsRows(s, s.flushedLifecycle, s.flush.value.owner, false);
    } else {
      assert t.conns == s.conns && t.handlers == s.handlers;
    }
  }

  lemma {:induction false} AttachedRows(s: Server, t: Server)
    requires Attached(s) && RowsKept(s, t)
    ensures Attached(t)
  {
    forall i | 0 <= i < |t.conns| ensures Synced(t.handlers[i], t.conns[i]) {
      assert Synced(s.handlers[i], s.conns[i]);
    }
  }

  lemma {:induction false} AttachedKept(s: Server, step: Step, t: Server)
    requires Attached(s) && Apply(s, step) == Some(t)
    ensures Attached(t)
  {
    if ByServing(step) {
      AttachedServing(s, step, t);
    } else if ByFlush(step) {
      FlushKeepsRows(s, step, t);
      AttachedRows(s, t);
    } else if ByHandler(step) {
      AttachedHandler(s, step.id, step, t);
    } else {
      assert t.conns == s.conns && t.handlers == s.handlers && t.active == s.active && t.serving == s.serving;
    }
  }

  // ----- the dirty check -----

  /** A connection whose generation was flushed is on disk exactly as it is in memory. */
  predicate Clean(conns: seq<Connection>, disk: seq<Row>, i: nat)
    requires i < |conns|
  {
    && conns[i].flushed <= conns[i].generation
    && (conns[i].flushed == conns[i].generation ==> i < |disk| && disk[i] == conns[i].row)
    && (i >= |disk| ==> conns[i].flushed == -1)
  }

  /** A row that an unfinished flush has read is current unless the generation moved on. */
  predicate ReadBack(conns: seq<Connection>, f: Flush, i: nat)
    requires i < |conns| && i < |f.rows| && i < |f.generations|
  {
    && conns[i].flushed <= f.generations[i] <= conns[i].generation
    && (f.generations[i] == conns[i].generation ==> f.rows[i] == conns[i].row)
  }

  predicate AllClean(conns: seq<Connection>, disk: seq<Row>) {
    |disk| <= |conns| && forall i | 0 <= i < |conns| :: Clean(conns, disk, i)
  }

  predicate Marks(stage: FlushStage) {
    stage.MarkRows? || stage.MarkLifecycle?
  }

  predicate Flushable(conns: seq<Connection>, disk: seq<Row>, f: Flush) {
    && |disk| <= f.count <= |conns|
    && |f.rows| == |f.generations| <= f.count
    && (!f.stage.ReadRows? ==> |f.rows| == f.count)
    && (Marks(f.stage) ==> disk == f.rows)
    && (!f.dirty && !Marks(f.stage) ==> f.rows <= disk)
    && (forall i | 0 <= i < |f.rows| :: ReadBack(conns, f, i))
  }

  predicate Tracked(s: Server) {
    && AllClean(s.conns, s.disk.rows)
    && (s.flush.Some? ==> Flushable(s.conns, s.disk.rows, s.flush.value))
  }

  /** Recording moves connections forward; new connections have never been flushed. */
  predicate Forward(before: seq<Connection>, after: seq<Connection>) {
    && |before| <= |after|
    && (forall i | 0 <= i < |before| ::
          after[i].flushed == before[i].flushed && before[i].generation <= after[i].generation
          && (after[i].generation == before[i].generation ==> after[i].row == before[i].row))
    && (forall i | |before| <= i < |after| :: after[i].flushed == -1)
  }

  lemma {:induction false} TrackedForward(s: Server, t: Server)
    requires Tracked(s) && Forward(s.conns, t.conns) && t.flush == s.flush && t.disk == s.disk
    ensures Tracked(t)
  {
    forall i | 0 <= i < |t.conns| ensures Clean(t.conns, t.disk.rows, i) {
      if i < |s.conns| {
        assert Clean(s.conns, s.disk.rows, i);
      }
    }
    if s.flush.Some? {
      forall i | 0 <= i < |s.flush.value.rows| ensures ReadBack(t.conns, s.flush.value, i) {
        assert ReadBack(s.conns, s.flush.value, i);
      }
    }
  }

  lemma {:induction false} WriteKeepsClean(conns: seq<Connection>, disk: seq<Row>, f: Flush)
    requires AllClean(conns, disk) && Flushable(conns, disk, f) && !f.stage.ReadRows?
    ensures AllClean(conns, f.rows)
  {
    forall i | 0 <= i < |conns| ensures Clean(conns, f.rows, i) {
      assert Clean(conns, disk, i);
      if i < f.count {
        assert ReadBack(conns, f, i);
      }
    }
  }

  lemma {:induction false} WriteKeepsFlushable(conns: seq<Connection>, disk: seq<Row>, f: Flush, g: Flush)
    requires Flushable(conns, disk, f) && !f.stage.ReadRows? && g == f.(stage := MarkRows(0))
    ensures Flushable(conns, f.rows, g)
  {
    forall i | 0 <= i < |f.rows| ensures ReadBack(conns, g, i) {
      assert ReadBack(conns, f, i);
    }
  }

  lemma {:induction false} ReadKeepsFlushable(s: Server, disk: seq<Row>, f: Flush)
    requires Flushable(s.conns, disk, f) && AllClean(s.conns, disk) && Reads(f.stage)
    ensures Flushable(s.conns, disk, ReadOn(s, f))
  {
    var g := ReadOn(s, f);
    if g.rows != f.rows {
      assert Clean(s.conns, disk, |f.rows|);
    }
    assert !g.dirty ==> forall i | 0 <= i < |g.rows| :: i < |disk| && g.rows[i] == disk[i];
    forall i | 0 <= i < |g.rows| ensures ReadBack(s.conns, g, i) {
      assert Clean(s.conns, disk, i);
      if i < |f.rows| {
        assert ReadBack(s.conns, f, i);
      }
    }
  }

  /** Marking is sound even though the connection may have moved on since it was read. */
  lemma {:induction false} MarkKeepsTracked(conns: seq<Connection>, disk: seq<Row>, f: Flush, k: nat, after: seq<Connection>)
    requires AllClean(conns, disk) && Flushable(conns, disk, f) && f.rows == disk && k < |f.rows|
    requires after == conns[k := Marked(conns[k], f.generations[k])]
    ensures AllClean(after, disk)
    ensures forall i | 0 <= i < |f.rows| :: ReadBack(after, f, i)
  {
    forall i | 0 <= i < |after| ensures Clean(after, disk, i) {
      assert Clean(conns, disk, i);
      assert ReadBack(conns, f, k);
    }
    forall i | 0 <= i < |f.rows| ensures ReadBack(after, f, i) {
      assert ReadBack(conns, f, i);
    }
  }

  lemma {:induction false} TrackedMark(s: Server, f: Flush, i: nat)
    requires Tracked(s) && s.flush == Some(f) && f.stage == MarkRows(i)
    ensures Tracked(MarkOn(s, f, i))
  {
    var t := MarkOn(s, f, i);
    var g := t.flush.value;
    if i < f.count {
      MarkKeepsTracked(s.conns, s.disk.rows, f, i, t.conns);
    }
    forall j | 0 <= j < |g.rows| ensures ReadBack(t.conns, g, j) {
      assert ReadBack(t.conns, f, j);
    }
  }

  lemma {:induction false} StepForward(s: Server, step: Step, t: Server)
    requires !ByFlush(step) && Apply(s, step) == Some(t)
    ensures Forward(s.conns, t.conns) && t.flush == s.flush && t.disk == s.disk
  {
    if ByServing(step) {
    } else if ByHandler(step) {
    } else {
    }
  }

  lemma {:induction false} TrackedWrite(s: Server, ok: bool, t: Server)
    requires Tracked(s) && StepFlush(s, WriteSnapshot(ok)) == Some(t)
    ensures Tracked(t)
  {
    var f := s.flush.value;
    WriteKeepsClean(s.conns, s.disk.rows, f);
    WriteKeepsFlushable(s.conns, s.disk.rows, f, f.(stage := MarkRows(0)));
  }

  lemma {:induction false} TrackedFlushStep(s: Server, f: Flush, t: Server)
    requires Tracked(s) && s.flush == Some(f) && FlushOn(s, f) == Some(t)
    ensures Tracked(t)
  {
    if Reads(f.stage) {
      ReadKeepsFlushable(s, s.disk.rows, f);
    } else if f.stage.MarkRows? {
      TrackedMark(s, f, f.stage.next);
    }
  }

  lemma {:induction false} TrackedKept(s: Server, step: Step, t: Server)
    requires Tracked(s) && Apply(s, step) == Some(t)
    ensures Tracked(t)
  {
    if !ByFlush(step) {
      StepForward(s, step, t);
      TrackedForward(s, t);
    } else if step.WriteSnapshot? {
      TrackedWrite(s, step.ok, t);
    } else if step.FlushStep? {
      TrackedFlushStep(s, s.flush.value, t);
    }
  }

  // ----- the order of quiesce, the snapshot thread and the flush -----

  predicate Owned(s: Server, f: Flush) {
    && MayFlush(s, f.owner)
    && f.finalized == (s.finalized && !f.stage.ReadRows? && !f.stage.ReadLifecycle?)
    && (f.stage.ReadReceipts? ==> s.finalized)
    && (Marks(f.stage) ==> s.disk.finalized == f.finalized)
  }

  /** No flush will write again: one is marking after its write, or quiesce is past its last flush. */
  predicate LastWriteDone(s: Server) {
    && s.thread.Stopped?
    && (s.quiesce.Succeeding? || s.quiesce.Failing? || s.quiesce.Returned? || (s.flush.Some? && Marks(s.flush.value.stage)))
  }

  predicate Ordered(s: Server) {
    && (s.lifecycle.Running? <==> s.quiesce.NotCalled?)
    && (s.lifecycle.Quiesced? ==> s.disk.finalized)
    && (s.quiesce.Succeeding? ==> s.disk.finalized)
    && (s.quiesce.SetFlags? || s.quiesce.RescueFlush? ==> s.thread.Stopped?)
    && (s.quiesce.FinalFlush? || s.quiesce.Succeeding? ==> s.finalized)
    && (s.quiesce.NotCalled? || s.quiesce.StopAccepting? || s.quiesce.AwaitServing? || s.quiesce.Drain? || s.quiesce.JoinSnapshot? || s.quiesce.SetFlags? ==> !s.finalized)
    && (s.finalized ==> s.thread.Stopped?)
    && (s.flush.Some? ==> Owned(s, s.flush.value))
    && (s.disk.finalized ==> s.finalized && LastWriteDone(s))
  }

  predicate LifecycleKept(s: Server, t: Server) {
    && t.lifecycle == s.lifecycle && t.quiesce == s.quiesce && t.finalized == s.finalized && t.thread == s.thread
    && t.flush == s.flush && t.disk == s.disk && t.quiesced == s.quiesced && t.stopSnapshot == s.stopSnapshot
  }

  lemma {:induction false} ThreadsKeepLifecycle(s: Server, step: Step, t: Server)
    requires ByServing(step) || ByHandler(step)
    requires Apply(s, step) == Some(t)
    ensures LifecycleKept(s, t)
    ensures ByHandler(step) ==> t.serving == s.serving
    ensures |t.conns| == |s.conns| + if step.Accept? then 1 else 0
  {
    if ByServing(step) {
    } else {
    }
  }

  lemma {:induction false} OrderedQuiesce(s: Server, step: Step, t: Server)
    requires Ordered(s) && StepQuiesce(s, step) == Some(t)
    ensures Ordered(t) && t.disk == s.disk && t.flush == s.flush && t.conns == s.conns && t.serving == s.serving
  {
  }

  lemma {:induction false} OrderedRead(s: Server, f: Flush, t: Server)
    requires Ordered(s) && s.flush == Some(f) && Reads(f.stage) && t == s.(flush := Some(ReadOn(s, f)))
    ensures Ordered(t) && !s.disk.finalized
  {
  }

  lemma {:induction false} OrderedMarkRow(s: Server, f: Flush, i: nat)
    requires Ordered(s) && s.flush == Some(f) && f.stage == MarkRows(i)
    ensures Ordered(MarkOn(s, f, i)) && MarkOn(s, f, i).disk == s.disk
  {
    var t := MarkOn(s, f, i);
    OrderedMarking(s, f, t.conns, t.flush.value.stage);
  }

  lemma {:induction false} OrderedMarking(s: Server, f: Flush, conns: seq<Connection>, stage: FlushStage)
    requires Ordered(s) && s.flush == Some(f) && f.stage.MarkRows? && (stage.MarkRows? || stage.MarkLifecycle?)
    ensures Ordered(s.(conns := conns, flush := Some(f.(stage := stage))))
  {
  }

  lemma {:induction false} OrderedEnd(s: Server, f: Flush, t: Server)
    requires Ordered(s) && s.flush == Some(f) && !Reads(f.stage) && !f.stage.MarkRows? && FlushOn(s, f) == Some(t)
    ensures Ordered(t) && t.disk == s.disk
  {
  }

  lemma {:induction false} OrderedMark(s: Server, f: Flush, t: Server)
    requires Ordered(s) && s.flush == Some(f) && !Reads(f.stage) && FlushOn(s, f) == Some(t)
    ensures Ordered(t) && t.disk == s.disk
  {
    if f.stage.MarkRows? {
      OrderedMarkRow(s, f, f.stage.next);
    } else {
      OrderedEnd(s, f, t);
    }
  }

  lemma {:induction false} OrderedFlush(s: Server, step: Step, t: Server)
    requires Ordered(s) && ByFlush(step) && !step.FlushStep? && StepFlush(s, step) == Some(t)
    ensures Ordered(t)
    ensures s.disk.finalized ==> t.disk == s.disk
  {
  }

  lemma {:induction false} OrderedKept(s: Server, step: Step, t: Server)
    requires Ordered(s) && Apply(s, step) == Some(t)
    ensures Ordered(t)
    ensures s.disk.finalized ==> t.disk == s.disk
  {
    if ByServing(step) || ByHandler(step) {
      ThreadsKeepLifecycle(s, step, t);
    } else if step.FlushStep? {
      if Reads(s.flush.value.stage) {
        OrderedRead(s, s.flush.value, t);
      } else {
        OrderedMark(s, s.flush.value, t);
      }
    } else if ByFlush(step) {
      OrderedFlush(s, step, t);
    } else {
      OrderedQuiesce(s, step, t);
    }
  }

  // ----- the final snapshot -----

  /** Quiesce has seen every handler gone and is on its way to the final flush, or past it. */
  predicate Sealed(s: Server) {
    s.finalized || s.quiesce.JoinSnapshot? || s.quiesce.SetFlags? || s.quiesce.FinalFlush? || s.quiesce.Succeeding?
  }

  predicate Lists(rows: seq<Row>, conns: seq<Connection>) {
    |rows| <= |conns| && forall i | 0 <= i < |rows| :: rows[i] == conns[i].row
  }

  predicate Current(s: Server, f: Flush) {
    && f.count == |s.conns|
    && Lists(f.rows, s.conns)
    && (f.stage.Write? || Marks(f.stage) ==> f.receipts == s.receipts)
  }

  predicate Closed(s: Server) {
    && (Sealed(s) ==> s.active == {})
    && (s.finalized && s.flush.Some? ==> Current(s, s.flush.value))
    && (s.disk.finalized ==> |s.disk.rows| == |s.conns| && Lists(s.disk.rows, s.conns) && s.disk.receipts == s.receipts)
  }

  lemma {:induction false} SealedFreezesThreads(s: Server, step: Step, t: Server)
    requires Attached(s) && s.active == {} && Apply(s, step) == Some(t)
    requires ByServing(step) || ByHandler(step)
    ensures step.Accept? || (t.conns == s.conns && t.handlers == s.handlers && t.active == s.active && t.receipts == s.receipts)
  {
    assert forall i | 0 <= i < |s.conns| :: s.handlers[i].stage.Popped?;
  }

  lemma {:induction false} ClosedQuiesce(s: Server, step: Step, t: Server)
    requires Ordered(s) && Closed(s) && StepQuiesce(s, step) == Some(t)
    ensures Closed(t)
  {
    assert t.conns == s.conns && t.receipts == s.receipts && t.active == s.active && t.disk == s.disk && t.flush == s.flush;
    assert step.Finalize? ==> s.flush.None?;
  }

  lemma {:induction false} ClosedRead(s: Server, f: Flush, t: Server)
    requires Tracked(s) && Closed(s) && s.flush == Some(f) && Reads(f.stage) && t == s.(flush := Some(ReadOn(s, f)))
    ensures Closed(t)
  {
  }

  lemma {:induction false} ClosedWrite(s: Server, ok: bool, t: Server)
    requires Ordered(s) && Tracked(s) && Closed(s) && StepFlush(s, WriteSnapshot(ok)) == Some(t)
    ensures Closed(t)
  {
  }

  lemma {:induction false} ClosedMark(s: Server, f: Flush, t: Server)
    requires Ordered(s) && Closed(s) && s.flush == Some(f) && !Reads(f.stage) && FlushOn(s, f) == Some(t) && RowsKept(s, t)
    ensures Closed(t)
  {
    assert forall rows: seq<Row> :: Lists(rows, s.conns) ==> Lists(rows, t.conns);
    assert t.finalized == s.finalized && t.disk == s.disk && (Sealed(t) ==> Sealed(s));
  }

  lemma {:induction false} ClosedFlush(s: Server, step: Step, t: Server)
    requires Ordered(s) && Tracked(s) && Closed(s) && ByFlush(step) && StepFlush(s, step) == Some(t)
    ensures Closed(t)
  {
    if step.WriteSnapshot? {
      ClosedWrite(s, step.ok, t);
    } else if step.FlushStep? {
      FlushKeepsRows(s, step, t);
      if Reads(s.flush.value.stage) {
        ClosedRead(s, s.flush.value, t);
      } else {
        ClosedMark(s, s.flush.value, t);
      }
    }
  }

  lemma {:induction false} ClosedKept(s: Server, step: Step, t: Server)
    requires Attached(s) && Ordered(s) && Tracked(s) && Closed(s)
    requires Apply(s, step) == Some(t) && !(step.Accept? && Sealed(s))
    ensures Closed(t)
  {
    if ByServing(step) || ByHandler(step) {
      ThreadsKeepLifecycle(s, step, t);
      if Sealed(s) {
        SealedFreezesThreads(s, step, t);
      }
    } else if ByFlush(step) {
      ClosedFlush(s, step, t);
    } else {
      ClosedQuiesce(s, step, t);
    }
  }

  // ----- whole runs -----

  predicate Good(s: Server) {
    Attached(s) && Tracked(s) && Ordered(s)
  }

  function Accepts(steps: seq<Step>): nat {
    if steps == [] then 0 else (if steps[0].Accept? then 1 else 0) + Accepts(steps[1..])
  }

  lemma {:induction false} StepGood(s: Server, step: Step, t: Server)
    requires Good(s) && Apply(s, step) == Some(t)
    ensures Good(t)
    ensures s.disk.finalized ==> t.disk == s.disk
    ensures |t.conns| == |s.conns| + if step.Accept? then 1 else 0
  {
    AttachedKept(s, step, t);
    TrackedKept(s, step, t);
    OrderedKept(s, step, t);
    if ByFlush(step) {
      FlushKeepsRows(s, step, t);
    } else if ByServing(step) || ByHandler(step) {
      ThreadsKeepLifecycle(s, step, t);
    } else {
      OrderedQuiesce(s, step, t);
    }
  }

  lemma {:induction false} RunGood(s: Server, steps: seq<Step>, t: Server)
    requires Good(s) && Run(s, steps) == Some(t)
    ensures Good(t)
    ensures s.disk.finalized ==> t.disk == s.disk
    ensures |t.conns| == |s.conns| + Accepts(steps)
    decreases |steps|
  {
    if steps != [] {
      var u := Apply(s, steps[0]).value;
      StepGood(s, steps[0], u);
      RunGood(u, steps[1..], t);
    }
  }

  /** No connection is accepted once quiesce has seen the handlers gone. */
  predicate AcceptsInTime(s: Server, steps: seq<Step>)
    decreases |steps|
  {
    steps == [] || Apply(s, steps[0]).None? ||
    (!(steps[0].Accept? && Sealed(s)) && AcceptsInTime(Apply(s, steps[0]).value, steps[1..]))
  }

  lemma {:induction false} RunClosed(s: Server, steps: seq<Step>, t: Server)
    requires Good(s) && Closed(s) && Run(s, steps) == Some(t) && AcceptsInTime(s, steps)
    ensures Closed(t)
    decreases |steps|
  {
    if steps != [] {
      var u := Apply(s, steps[0]).value;
      StepGood(s, steps[0], u);
      ClosedKept(s, steps[0], u);
      RunClosed(u, steps[1..], t);
    }
  }

  /** A finalised snapshot lists every connection ever accepted, finished, as its handler left it. */
  predicate FinalSnapshotComplete(s: Server) {
    s.disk.finalized ==>
      && |s.disk.rows| == |s.handlers|
      && s.disk.receipts == s.receipts
      && forall i | 0 <= i < |s.handlers| ::
           s.handlers[i].stage.Popped? && s.disk.rows[i].bytes == s.handlers[i].total && s.disk.rows[i].final == s.handlers[i].natural
  }

  lemma {:induction false} ClosedIsComplete(s: Server)
    requires Good(s) && Closed(s)
    ensures FinalSnapshotComplete(s)
  {
    if s.disk.finalized {
      forall i | 0 <= i < |s.handlers|
        ensures s.handlers[i].stage.Popped? && s.disk.rows[i].bytes == s.handlers[i].total && s.disk.rows[i].final == s.handlers[i].natural
      {
        assert Synced(s.handlers[i], s.conns[i]);
        assert i !in s.active;
      }
    }
  }

  /** Main safety theorem: over every interleaving from the constructor on. */
  lemma {:induction false} EveryRunIsSafe(steps: seq<Step>, t: Server)
    requires Run(Initial, steps) == Some(t)
    ensures forall i | 0 <= i < |t.conns| && t.conns[i].flushed == t.conns[i].generation ::
      i < |t.disk.rows| && t.disk.rows[i] == t.conns[i].row
    ensures t.lifecycle.Quiesced? ==> t.disk.finalized
    ensures AcceptsInTime(Initial, steps) ==> FinalSnapshotComplete(t)
  {
    RunGood(Initial, steps, t);
    forall i | 0 <= i < |t.conns| && t.conns[i].flushed == t.conns[i].generation
      ensures i < |t.disk.rows| && t.disk.rows[i] == t.conns[i].row
    {
      assert Clean(t.conns, t.disk.rows, i);
    }
    if AcceptsInTime(Initial, steps) {
      RunClosed(Initial, steps, t);
      ClosedIsComplete(t);
    }
  }

  /** Once written, a finalised snapshot never changes, and it stays complete exactly while nothing more is accepted. */
  lemma {:induction false} FinalSnapshotStaysIff(steps: seq<Step>, s: Server, more: seq<Step>, t: Server)
    requires Run(Initial, steps) == Some(s) && AcceptsInTime(Initial, steps) && s.disk.finalized
    requires Run(s, more) == Some(t)
    ensures t.disk == s.disk
    ensures FinalSnapshotComplete(t) <==> Accepts(more) == 0
  {
    RunGood(Initial, steps, s);
    RunClosed(Initial, steps, s);
    RunGood(s, more, t);
    if Accepts(more) == 0 {
      NoAcceptIsInTime(s, more);
      RunClosed(s, more, t);
      ClosedIsComplete(t);
    }
  }

  lemma {:induction false} NoAcceptIsInTime(s: Server, steps: seq<Step>)
    requires Accepts(steps) == 0
    ensures AcceptsInTime(s, steps)
    decreases |steps|
  {
    if steps != [] && Apply(s, steps[0]).Some? {
      NoAcceptIsInTime(Apply(s, steps[0]).value, steps[1..]);
    }
  }

  /** The runtime errors of `record_progress` are unreachable in the handlers. */
  lemma {:induction false} RecordNeverRefused(steps: seq<Step>, t: Server, id: nat, at: int, wall: nat)
    requires Run(Initial, steps) == Some(t) && id < |t.handlers|
    ensures |t.conns| == |t.handlers|
    ensures t.handlers[id].stage.Counted? ==> Record(t.conns[id], t.handlers[id].total, false, at, wall).Ok?
    ensures t.handlers[id].stage.Closing? ==> Record(t.conns[id], t.handlers[id].total, t.handlers[id].natural, at, wall).Ok?
  {
    RunGood(Initial, steps, t);
    assert Synced(t.handlers[id], t.conns[id]);
  }

  /** The dirty check loses no update: a skipped flush would have written the rows already on disk. */
  lemma {:induction false} SkippedFlushLosesNothing(steps: seq<Step>, t: Server)
    requires Run(Initial, steps) == Some(t) && t.flush.Some? && t.flush.value.stage.Write? && !t.flush.value.dirty
    ensures t.flush.value.rows == t.disk.rows
  {
    RunGood(Initial, steps, t);
  }

  // ----- when connections are accepted in time -----

  /** `serve_forever` is not entered after quiesce has found the server idle. */
  predicate ServesInTime(s: Server, steps: seq<Step>)
    decreases |steps|
  {
    steps == [] || Apply(s, steps[0]).None? ||
    ((steps[0].StartServing? ==> s.quiesce.NotCalled? || s.quiesce.StopAccepting? || s.quiesce.AwaitServing?)
     && ServesInTime(Apply(s, steps[0]).value, steps[1..]))
  }

  predicate Parked(s: Server) {
    s.quiesce.Drain? || Sealed(s) ==> s.serving.Off?
  }

  lemma {:induction false} FlushKeepsSealed(s: Server, step: Step, t: Server)
    requires Ordered(s) && StepFlush(s, step) == Some(t)
    ensures Sealed(t) || t.quiesce.Drain? ==> Sealed(s) || s.quiesce.Drain?
  {
    if step.FlushStep? {
      FlushOnKeepsSealed(s, s.flush.value, t);
    }
  }

  lemma {:induction false} FlushOnKeepsSealed(s: Server, f: Flush, t: Server)
    requires Ordered(s) && s.flush == Some(f) && FlushOn(s, f) == Some(t)
    ensures Sealed(t) || t.quiesce.Drain? ==> Sealed(s) || s.quiesce.Drain?
  {
    if f.stage.MarkRows? {
      MarkKeepsRows(s, f, f.stage.next);
    }
  }

  lemma {:induction false} ParkedKept(s: Server, step: Step, t: Server)
    requires Ordered(s) && Parked(s) && Apply(s, step) == Some(t)
    requires step.StartServing? ==> s.quiesce.NotCalled? || s.quiesce.StopAccepting? || s.quiesce.AwaitServing?
    ensures Parked(t)
  {
    if ByServing(step) || ByHandler(step) {
      ThreadsKeepLifecycle(s, step, t);
    } else if ByFlush(step) {
      FlushKeepsRows(s, step, t);
      FlushKeepsSealed(s, step, t);
    } else {
      OrderedQuiesce(s, step, t);
    }
  }

  lemma {:induction false} ServesInTimeSuffices(s: Server, steps: seq<Step>)
    requires Good(s) && Parked(s) && ServesInTime(s, steps)
    ensures AcceptsInTime(s, steps)
    decreases |steps|
  {
    if steps != [] && Apply(s, steps[0]).Some? {
      var u := Apply(s, steps[0]).value;
      StepGood(s, steps[0], u);
      ParkedKept(s, steps[0], u);
      ServesInTimeSuffices(u, steps[1..]);
    }
  }

  /** In particular when the server is not entered again after quiesce found it idle, as in `main`. */
  lemma {:induction false} PromptServingIsSafe(steps: seq<Step>, t: Server)
    requires Run(Initial, steps) == Some(t) && ServesInTime(Initial, steps)
    ensures FinalSnapshotComplete(t)
  {
    ServesInTimeSuffices(Initial, steps);
    EveryRunIsSafe(steps, t);
  }
}
