/** From the sink's handlers to the verdict on an upload row: what an exact row says about the run. */
module UploadObserver {
  import opened Outcomes
  import SinkConnection
  import SinkServer
  import SinkSafety
  import SinkHistory
  import opened Enrichment

  /** The progress file as the enrichment reads it; connection ids count from zero. */
  function Published(rows: seq<SinkConnection.Row>): (r: seq<Connection>)
    ensures |r| == |rows|
  {
    seq(|rows|, i requires 0 <= i < |rows| =>
      Connection(Value(i), Value(rows[i].bytes), Some(rows[i].final), Value(rows[i].updatedAt), ReceiveGap(rows[i].gap, rows[i].gapStart, rows[i].gapEnd)))
  }

  function AsRead(disk: SinkServer.Snapshot, updatedAt: nat, merged: nat): Snapshot {
    Snapshot(2, disk.quiesced, disk.finalized, Some(Published(disk.rows)), Value(updatedAt), Value(merged))
  }

  /** All bytes the handlers received. */
  function AllReceived(handlers: seq<SinkServer.Handler>): nat {
    if handlers == [] then 0 else AllReceived(handlers[..|handlers| - 1]) + handlers[|handlers| - 1].total
  }

  lemma {:induction false} PublishedTotal(rows: seq<SinkConnection.Row>, handlers: seq<SinkServer.Handler>)
    requires |rows| == |handlers| && forall i | 0 <= i < |rows| :: rows[i].bytes == handlers[i].total
    ensures TotalBytes(Published(rows)) == AllReceived(handlers)
    decreases |rows|
  {
    if rows != [] {
      var n := |rows| - 1;
      PublishedTotal(rows[..n], handlers[..n]);
      assert Published(rows)[..n] == Published(rows[..n]);
    }
  }

  /** Every stream has its own handler, and each ended at the sender's own end of stream. */
  predicate AllEndedNaturally(handlers: seq<SinkServer.Handler>, row: Row) {
    row.streams == Value(|handlers|) && forall i | 0 <= i < |handlers| :: handlers[i].stage.Popped? && handlers[i].natural
  }

  /**
   Over every run of the sink that ends in a finalised snapshot: the enriched row is exact
   exactly when one handler per stream ended naturally, together they received every byte
   the probe had accepted, and the probe's own accounting and clocks were clean.
   */
  lemma {:induction false} ExactRowMeansExactRun(steps: seq<SinkServer.Step>, t: SinkServer.Server, row: Row, observerElapsed: real, updatedAt: nat, merged: nat)
    requires SinkServer.Run(SinkServer.Initial, steps) == Some(t) && SinkSafety.AcceptsInTime(SinkServer.Initial, steps) && t.disk.finalized
    requires Consistent(row, AsRead(t.disk, updatedAt, merged), Some(observerElapsed))
    ensures IsExact(Enriched(row, AsRead(t.disk, updatedAt, merged), observerElapsed)) <==>
      && AllEndedNaturally(t.handlers, row)
      && AllReceived(t.handlers) > 0 && row.accepted == Value(AllReceived(t.handlers))
      && row.ack == True && row.errors == Errors(0) && NoObserverError(row) && row.elapsed.value > 0.0000005
  {
    SinkSafety.EveryRunIsSafe(steps, t);
    var snapshot := AsRead(t.disk, updatedAt, merged);
    var connections := Published(t.disk.rows);
    ExactExactlyWhen(row, snapshot, observerElapsed);
    PublishedTotal(t.disk.rows, t.handlers);
    assert forall i | 0 <= i < |connections| :: connections[i].final == Some(t.handlers[i].natural);
    assert AllStreamsFinal(row, snapshot) <==> AllEndedNaturally(t.handlers, row);
  }

  lemma {:induction false} HandlersHoldReceived(handlers: seq<SinkServer.Handler>, steps: seq<SinkServer.Step>, n: nat)
    requires n <= |handlers| && forall id: nat | id < |handlers| :: handlers[id].total == SinkHistory.Received(steps, id)
    ensures AllReceived(handlers[..n]) == SinkHistory.ReceivedBy(steps, n)
  {
    if n > 0 {
      HandlersHoldReceived(handlers, steps, n - 1);
      assert handlers[..n][..n - 1] == handlers[..n - 1];
    }
  }

  /** The sink accepted one connection per stream, and each ended by itself before the sink was told to stop. */
  predicate EveryStreamEnded(steps: seq<SinkServer.Step>, row: Row) {
    row.streams == Value(SinkSafety.Accepts(steps)) && forall id: nat | id < SinkSafety.Accepts(steps) :: SinkHistory.EndedFirst(steps, id)
  }

  lemma {:induction false} HandlersHoldAllBytes(steps: seq<SinkServer.Step>, t: SinkServer.Server)
    requires SinkServer.Run(SinkServer.Initial, steps) == Some(t)
    ensures AllReceived(t.handlers) == SinkHistory.AllBytes(steps)
  {
    SinkHistory.NoByteLost(steps, t);
    HandlersHoldReceived(t.handlers, steps, |t.handlers|);
    assert t.handlers[..|t.handlers|] == t.handlers;
  }

  lemma {:induction false} NaturalMeansFirst(steps: seq<SinkServer.Step>, t: SinkServer.Server, id: nat)
    requires SinkServer.Run(SinkServer.Initial, steps) == Some(t) && id < |t.handlers|
    ensures t.handlers[id].natural <==> SinkHistory.EndedFirst(steps, id)
  {
    SinkHistory.RunHistory(steps, t);
    assert SinkHistory.Traced(steps, t.handlers[id], t.conns[id], t.receipts, id);
  }

  lemma {:induction false} EndsAgree(steps: seq<SinkServer.Step>, t: SinkServer.Server, row: Row)
    requires SinkServer.Run(SinkServer.Initial, steps) == Some(t)
    requires forall i | 0 <= i < |t.handlers| :: t.handlers[i].stage.Popped?
    ensures AllEndedNaturally(t.handlers, row) <==> EveryStreamEnded(steps, row)
  {
    SinkSafety.RunGood(SinkServer.Initial, steps, t);
    forall id: nat | id < |t.handlers| ensures t.handlers[id].natural <==> SinkHistory.EndedFirst(steps, id) {
      NaturalMeansFirst(steps, t, id);
    }
  }

  /** The same verdict read off the steps of the run alone: accepts, receives, ends of stream and the call to stop. */
  lemma {:induction false} ExactRowMeansExactHistory(steps: seq<SinkServer.Step>, t: SinkServer.Server, row: Row, observerElapsed: real, updatedAt: nat, merged: nat)
    requires SinkServer.Run(SinkServer.Initial, steps) == Some(t) && SinkSafety.AcceptsInTime(SinkServer.Initial, steps) && t.disk.finalized
    requires Consistent(row, AsRead(t.disk, updatedAt, merged), Some(observerElapsed))
    ensures IsExact(Enriched(row, AsRead(t.disk, updatedAt, merged), observerElapsed)) <==>
      && EveryStreamEnded(steps, row)
      && SinkHistory.AllBytes(steps) > 0 && row.accepted == Value(SinkHistory.AllBytes(steps))
      && row.ack == True && row.errors == Errors(0) && NoObserverError(row) && row.elapsed.value > 0.0000005
  {
    ExactRowMeansExactRun(steps, t, row, observerElapsed, updatedAt, merged);
    HandlersHoldAllBytes(steps, t);
    SinkSafety.EveryRunIsSafe(steps, t);
    EndsAgree(steps, t, row);
  }
}
