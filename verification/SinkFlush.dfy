/** `flush_progress` run without interference, on the connection objects themselves. */
module SinkFlush {
  import opened Outcomes
  import opened SinkConnection
  import opened SinkServer

  ghost predicate Dirty(conns: seq<Connection>, generation: nat, flushed: int) {
    generation != flushed || exists i :: 0 <= i < |conns| && conns[i].generation != conns[i].flushed
  }

  function RowsOf(conns: seq<Connection>): seq<Row> {
    seq(|conns|, i requires 0 <= i < |conns| => conns[i].row)
  }

  class Progress {
    var connections: seq<ConnectionProgress>
    var quiesced: bool
    var finalized: bool
    var lifecycleGeneration: nat
    var flushedLifecycle: int
    var receipts: seq<Receipt>
    var disk: Snapshot

    constructor ()
      ensures connections == [] && !quiesced && !finalized && receipts == []
      ensures lifecycleGeneration == 0 && flushedLifecycle == 0 && disk == Initial.disk
    {
      connections := [];
      quiesced, finalized := false, false;
      lifecycleGeneration, flushedLifecycle := 0, 0;
      receipts := [];
      disk := Snapshot(false, false, [], []);
    }

    function Views(): seq<Connection>
      reads this, connections
    {
      seq(|connections|, i requires 0 <= i < |connections| reads this, connections => connections[i].View())
    }

    /** `_snapshot_data`: the rows, the generations they belong to, and whether anything changed. */
    method ReadAll() returns (rows: seq<Row>, generations: seq<nat>, dirty: bool)
      ensures rows == RowsOf(Views())
      ensures |generations| == |connections| && forall i | 0 <= i < |connections| :: generations[i] == connections[i].generation
      ensures dirty <==> Dirty(Views(), lifecycleGeneration, flushedLifecycle)
    {
      rows, generations, dirty := [], [], false;
      var k := 0;
      while k < |connections|
        invariant 0 <= k <= |connections| && |rows| == |generations| == k
        invariant forall i | 0 <= i < k :: rows[i] == connections[i].View().row && generations[i] == connections[i].generation
        invariant dirty <==> exists i :: 0 <= i < k && connections[i].generation != connections[i].flushed
      {
        var c := connections[k];
        rows := rows + [c.View().row];
        generations := generations + [c.generation];
        dirty := dirty || c.generation != c.flushed;
        k := k + 1;
      }
      dirty := dirty || lifecycleGeneration != flushedLifecycle;
      assert forall i | 0 <= i < |connections| :: Views()[i] == connections[i].View();
    }

    method MarkAll(generations: seq<nat>)
      requires |generations| == |connections|
      requires forall i | 0 <= i < |connections| :: generations[i] == connections[i].generation
      modifies connections
      ensures forall i | 0 <= i < |connections| :: connections[i].View() == old(connections[i].View()).(flushed := connections[i].generation)
    {
      var k := 0;
      while k < |connections|
        invariant 0 <= k <= |connections|
        invariant forall i | 0 <= i < |connections| ::
          connections[i].View() == old(connections[i].View()) || connections[i].View() == old(connections[i].View()).(flushed := old(connections[i].generation))
        invariant forall i | 0 <= i < k :: connections[i].flushed == connections[i].generation
      {
        connections[k].MarkFlushed(generations[k]);
        k := k + 1;
      }
    }

    /**
     `writable` says whether the atomic replace succeeds. A flush that is neither forced nor
     dirty changes nothing, a failed write changes nothing, and a successful one leaves the
     file equal to memory and nothing dirty.
     */
    method FlushProgress(force: bool, writable: bool) returns (outcome: Option<bool>)
      modifies this`disk, this`flushedLifecycle, connections
      ensures outcome == Some(false) <==> !force && !old(Dirty(Views(), lifecycleGeneration, flushedLifecycle))
      ensures outcome == None <==> !writable && (force || old(Dirty(Views(), lifecycleGeneration, flushedLifecycle)))
      ensures outcome != Some(true) ==> Views() == old(Views()) && disk == old(disk) && flushedLifecycle == old(flushedLifecycle)
      ensures outcome == Some(true) ==> disk == Snapshot(quiesced, finalized, RowsOf(Views()), if finalized then receipts else [])
      ensures outcome == Some(true) ==> !Dirty(Views(), lifecycleGeneration, flushedLifecycle)
      ensures RowsOf(Views()) == RowsOf(old(Views()))
    {
      var rows, generations, dirty := ReadAll();
      if !force && !dirty {
        return Some(false);
      }
      if !writable {
        return None;
      }
      disk := Snapshot(quiesced, finalized, rows, if finalized then receipts else []);
      MarkAll(generations);
      flushedLifecycle := lifecycleGeneration;
      outcome := Some(true);
      assert forall i | 0 <= i < |connections| :: Views()[i].row == old(connections[i].View().row) && Views()[i].flushed == Views()[i].generation;
      assert RowsOf(Views()) == RowsOf(old(Views()));
    }
  }
}
