/**
 Connection accounting of the lab TCP sink (`lab/tcp_sink.py`): what one
 `record_progress` call does to a connection, and the receive-gap summary.
 */
module SinkConnection {
  import opened Outcomes

  /** What a snapshot publishes about a connection. Times are nanoseconds. */
  datatype Row = Row(bytes: nat, final: bool, updatedAt: nat, gap: nat, gapStart: nat, gapEnd: nat)

  datatype Connection = Connection(row: Row, lastReceive: Option<int>, generation: nat, flushed: int)

  datatype RecordError = CountDecreased | FinalizedChanged

  function Fresh(wall: nat): Connection {
    Connection(Row(0, false, wall, 0, 0, 0), None, 0, -1)
  }

  function Gap(from: int, to: int): nat {
    if to > from then to - from else 0
  }

  /** The connection after recording `total` bytes, seen at time `at`. */
  function Record(c: Connection, total: nat, final: bool, at: int, wall: nat): (r: Result<Connection, RecordError>)
    ensures r.Ok? ==> r.value.row.bytes == total && r.value.row.final == final && r.value.flushed == c.flushed
    ensures r.Ok? ==> c.generation <= r.value.generation
    ensures r.Ok? ==> (r.value.generation == c.generation <==> total == c.row.bytes && final == c.row.final)
    ensures r.Ok? && r.value.generation == c.generation ==> r.value.row == c.row
  {
    var row := c.row;
    if total < row.bytes then Err(CountDecreased)
    else if row.final && (!final || total != row.bytes) then Err(FinalizedChanged)
    else
      var grew := total > row.bytes;
      var widest := grew && c.lastReceive.Some? && Gap(c.lastReceive.value, at) > row.gap;
      var gapped := if widest then row.(gap := Gap(c.lastReceive.value, at), gapStart := row.bytes, gapEnd := total) else row;
      var changed := total != row.bytes || final != row.final;
      Ok(Connection(
        gapped.(bytes := total, final := final, updatedAt := if changed then wall else row.updatedAt),
        if grew then Some(at) else c.lastReceive,
        if changed then c.generation + 1 else c.generation,
        c.flushed))
  }

  /** A receive event of the merged timeline. */
  datatype Receipt = Receipt(at: int, id: nat, total: nat)

  /** The mutable connection record; its lock makes each method one atomic region. */
  class ConnectionProgress {
    var bytes: nat
    var final: bool
    var updatedAt: nat
    var lastReceive: Option<int>
    var gap: nat
    var gapStart: nat
    var gapEnd: nat
    var generation: nat
    var flushed: int

    function View(): Connection
      reads this
    {
      Connection(Row(bytes, final, updatedAt, gap, gapStart, gapEnd), lastReceive, generation, flushed)
    }

    constructor (wall: nat)
      ensures View() == Fresh(wall)
    {
      bytes, final, updatedAt := 0, false, wall;
      lastReceive := None;
      gap, gapStart, gapEnd := 0, 0, 0;
      generation, flushed := 0, -1;
    }

    method RecordProgress(id: nat, total: nat, last: bool, at: int, wall: nat)
      returns (error: Option<RecordError>, receipt: Option<Receipt>)
      modifies this
      ensures match Record(old(View()), total, last, at, wall)
        case Ok(c) => error == None && View() == c
        case Err(e) => error == Some(e) && View() == old(View())
      ensures receipt == if error.None? && total > old(bytes) then Some(Receipt(at, id, total)) else None
    {
      receipt := None;
      if total < bytes {
        return Some(CountDecreased), None;
      }
      if final && (!last || total != bytes) {
        return Some(FinalizedChanged), None;
      }
      if total > bytes {
        if lastReceive.Some? {
          var g := Gap(lastReceive.value, at);
          if g > gap {
            gap, gapStart, gapEnd := g, bytes, total;
          }
        }
        lastReceive := Some(at);
        receipt := Some(Receipt(at, id, total));
      }
      var changed := total != bytes || last != final;
      bytes := total;
      final := last;
      if changed {
        updatedAt := wall;
        generation := generation + 1;
      }
      error := None;
    }

    /** The flush marks a row clean only if nothing happened since the row was read. */
    method MarkFlushed(read: nat)
      modifies this`flushed
      ensures flushed == if generation == read then read else old(flushed)
    {
      if generation == read {
        flushed := read;
      }
    }
  }

  // ----- the merged receive gap -----

  datatype MergedGap = MergedGap(gap: nat, start: Receipt, end: Receipt)

  /** How long after the event before it an event came. */
  function Pause(events: seq<Receipt>, i: nat): int
    requires 0 < i < |events|
  {
    events[i].at - events[i - 1].at
  }

  /** Position `k` holds the first of the widest pauses among positions below `n`. */
  ghost predicate FirstWidest(events: seq<Receipt>, k: nat, n: nat) {
    && 0 < k < n <= |events|
    && Pause(events, k) > 0
    && (forall i | 0 < i < n :: Pause(events, i) <= Pause(events, k))
    && (forall i | 0 < i < k :: Pause(events, i) < Pause(events, k))
  }

  /**
   The widest pause between neighbours of the sorted event list, the first such pause when
   several are equal, and nothing when no two neighbours are apart.
   */
  method MergedReceiveGap(events: seq<Receipt>) returns (merged: Option<MergedGap>)
    ensures merged.None? <==> forall i | 0 < i < |events| :: Pause(events, i) <= 0
    ensures merged.Some? ==> exists k: nat :: FirstWidest(events, k, |events|) && merged.value == MergedGap(Pause(events, k), events[k - 1], events[k])
  {
    merged := None;
    ghost var k := 0;
    var i := 1;
    while i < |events|
      invariant 1 <= i && (|events| > 0 ==> i <= |events|)
      invariant merged.None? ==> forall j | 0 < j < i && j < |events| :: Pause(events, j) <= 0
      invariant merged.Some? ==> FirstWidest(events, k, i) && merged.value == MergedGap(Pause(events, k), events[k - 1], events[k])
    {
      var gap := Gap(events[i - 1].at, events[i].at);
      if gap > (if merged.Some? then merged.value.gap else 0) {
        merged := Some(MergedGap(gap, events[i - 1], events[i]));
        k := i;
      }
      i := i + 1;
    }
  }
}
