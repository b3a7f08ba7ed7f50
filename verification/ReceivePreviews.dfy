/**
 The counts `receive_data` in `src/mux/stream.rs` previews before it changes anything, when its
 quick upper bounds do not already settle the limits.
 */
module ReceivePreviews {
  import opened OffsetRanges
  import opened OffsetSets
  import opened StreamChunks

  // ----- ranges -----

  /** The number of ranges once a span is inserted, without inserting it. */
  method RangeCountAfterInsert(s: seq<Range>, start: nat, end: nat, ghost offsets: set<nat>) returns (count: nat)
    requires Canonical(s) && start < end && Covering(s, offsets)
    ensures count == |Ends(offsets + Interval(start, end))|
  {
    var p := 0;
    while p < |s| && s[p].start <= start
      invariant 0 <= p <= |s|
      invariant forall k | 0 <= k < p :: s[k].start <= start
    {
      p := p + 1;
    }
    var mergedEnd, removed := end, 0;
    ghost var i, merged := p, Range(start, end);
    if p > 0 && s[p - 1].end >= start {
      MergeWithin(merged, s[p - 1], Range(s[p - 1].start, Larger(end, s[p - 1].end)));
      mergedEnd, removed := Larger(end, s[p - 1].end), 1;
      i, merged := p - 1, Range(s[p - 1].start, mergedEnd);
    }
    var k := p;
    while k < |s| && s[k].start <= mergedEnd
      invariant i <= p <= k <= |s| && removed == k - i && merged.end == mergedEnd && merged.start <= start && end <= mergedEnd
      invariant forall m | 0 <= m < i :: s[m].end < merged.start
      invariant forall o :: Within(merged, o) <==> start <= o < end || exists m | i <= m < k :: Within(s[m], o)
    {
      MergeWithin(merged, s[k], Range(merged.start, Larger(mergedEnd, s[k].end)));
      mergedEnd := Larger(mergedEnd, s[k].end);
      merged := Range(merged.start, mergedEnd);
      removed := removed + 1;
      k := k + 1;
    }
    count := |s| - removed + 1;
    InsertCounted(s, i, merged, k, start, end, offsets);
  }

  lemma {:induction false} InsertCounted(s: seq<Range>, i: nat, merged: Range, j: nat, start: nat, end: nat, offsets: set<nat>)
    requires Canonical(s) && Covering(s, offsets) && i <= j <= |s| && merged.start < merged.end
    requires forall m | 0 <= m < i :: s[m].end < merged.start
    requires j < |s| ==> merged.end < s[j].start
    requires forall o :: Within(merged, o) <==> start <= o < end || exists m | i <= m < j :: Within(s[m], o)
    ensures |s| - (j - i) + 1 == |Ends(offsets + Interval(start, end))|
  {
    var t := s[..i] + [merged] + s[j..];
    InsertedMeans(s, i, merged, j, start, end, t);
    assert Canonical(t);
    assert Covering(t, offsets + Interval(start, end));
    RangesAreIslands(t, offsets + Interval(start, end));
  }

  // ----- buffered pieces -----

  /** Buffered chunks and missing ranges are disjoint and make up, with the delivered prefix, all that is received. */
  ghost predicate Laid(next: nat, buffered: seq<Chunk>, missing: seq<Range>, all: set<nat>) {
    && Ordered(buffered) && Canonical(missing)
    && (forall j | 0 <= j < |buffered| :: next <= buffered[j].offset)
    && (forall i | 0 <= i < |missing| :: next <= missing[i].start)
    && (forall i, j | 0 <= i < |missing| && 0 <= j < |buffered| :: End(buffered[j]) <= missing[i].start || missing[i].end <= buffered[j].offset)
    && (forall o: nat :: o in all <==> o < next || Held(buffered, o) || In(missing, o))
  }

  /** No chunk and no range crosses the cursor. */
  predicate Cut(buffered: seq<Chunk>, missing: seq<Range>, cursor: nat) {
    && (forall j | 0 <= j < |buffered| :: cursor <= buffered[j].offset || End(buffered[j]) <= cursor)
    && (forall i | 0 <= i < |missing| :: cursor <= missing[i].start || missing[i].end <= cursor)
  }

  lemma {:induction false} RangeStartsSize(s: seq<Range>, n: nat, starts: set<nat>)
    requires Canonical(s) && n <= |s| && RangesStarting(s, n, starts)
    ensures |starts| == n
  {
    if n == 0 {
      assert starts == {};
    } else {
      var rest := starts - {s[n - 1].start};
      assert starts == rest + {s[n - 1].start};
      assert RangesStarting(s, n - 1, rest);
      RangeStartsSize(s, n - 1, rest);
    }
  }

  lemma {:induction false} AllStarts(next: nat, buffered: seq<Chunk>, missing: seq<Range>, all: set<nat>, pieces: set<nat>, starts: set<nat>)
    requires Laid(next, buffered, missing, all) && Starting(buffered, pieces) && RangesStarting(missing, |missing|, starts)
    ensures |Beyond(pieces + starts, next)| == |buffered| + |missing|
  {
    StartsSize(buffered, pieces);
    RangeStartsSize(missing, |missing|, starts);
    StartsApart(next, buffered, missing, all, pieces, starts);
    UnionSize(pieces, starts);
    assert Beyond(pieces + starts, next) == pieces + starts;
  }

  lemma {:induction false} StartsApart(next: nat, buffered: seq<Chunk>, missing: seq<Range>, all: set<nat>, pieces: set<nat>, starts: set<nat>)
    requires Laid(next, buffered, missing, all) && Starting(buffered, pieces) && RangesStarting(missing, |missing|, starts)
    ensures pieces !! starts && (forall o | o in pieces :: o >= next) && (forall o | o in starts :: o >= next)
  {
    forall o | o in pieces ensures o !in starts && o >= next {
      assert StartsAt(buffered, o);
      var j :| 0 <= j < |buffered| && buffered[j].offset == o;
    }
  }

  /** Passing one chunk or range takes exactly its start out of those beyond the cursor. */
  lemma {:induction false} Passed(s: set<nat>, cursor: nat, further: nat)
    requires cursor in s && cursor < further && forall o | o in s && o > cursor :: o >= further
    ensures |Beyond(s, cursor)| == |Beyond(s, further)| + 1
  {
    assert Beyond(s, cursor) == Beyond(s, further) + {cursor};
  }

  lemma {:induction false} ChunkPassed(next: nat, buffered: seq<Chunk>, missing: seq<Range>, all: set<nat>, pieces: set<nat>, starts: set<nat>, k: nat)
    requires Laid(next, buffered, missing, all) && Starting(buffered, pieces) && RangesStarting(missing, |missing|, starts) && k < |buffered|
    ensures |Beyond(pieces + starts, buffered[k].offset)| == |Beyond(pieces + starts, End(buffered[k]))| + 1
    ensures Cut(buffered, missing, End(buffered[k])) && (forall o: nat | buffered[k].offset <= o < End(buffered[k]) :: o in all)
  {
    var c := buffered[k];
    assert StartsAt(buffered, c.offset);
    forall o | o in pieces + starts && o > c.offset ensures o >= End(c) {
      if o in pieces {
        var j :| 0 <= j < |buffered| && buffered[j].offset == o;
      }
    }
    Passed(pieces + starts, c.offset, End(c));
    forall o: nat | c.offset <= o < End(c) ensures o in all {
      assert Spans(buffered[k], o);
    }
  }

  lemma {:induction false} RangePassed(next: nat, buffered: seq<Chunk>, missing: seq<Range>, all: set<nat>, pieces: set<nat>, starts: set<nat>, k: nat)
    requires Laid(next, buffered, missing, all) && Starting(buffered, pieces) && RangesStarting(missing, |missing|, starts) && k < |missing|
    ensures |Beyond(pieces + starts, missing[k].start)| == |Beyond(pieces + starts, missing[k].end)| + 1
    ensures Cut(buffered, missing, missing[k].end) && (forall o: nat | missing[k].start <= o < missing[k].end :: o in all)
  {
    var r := missing[k];
    assert r.start in starts;
    forall o | o in pieces + starts && o > r.start ensures o >= r.end {
      if o in pieces {
        assert StartsAt(buffered, o);
        var j :| 0 <= j < |buffered| && buffered[j].offset == o;
      }
    }
    Passed(pieces + starts, r.start, r.end);
    forall o: nat | r.start <= o < r.end ensures o in all {
      assert Within(missing[k], o);
    }
  }

  /** Where neither a chunk nor a range starts, and none crosses, nothing is received. */
  lemma {:induction false} GapAt(next: nat, buffered: seq<Chunk>, missing: seq<Range>, all: set<nat>, cursor: nat)
    requires Laid(next, buffered, missing, all) && Cut(buffered, missing, cursor) && next <= cursor
    requires (forall j | 0 <= j < |buffered| :: buffered[j].offset != cursor) && (forall i | 0 <= i < |missing| :: missing[i].start != cursor)
    ensures cursor !in all
  {
  }

  /** Passes the range or chunk that starts at the cursor; stays when there is none, and so nothing received there. */
  method PassOne(
    next: nat, buffered: seq<Chunk>, missing: seq<Range>, cursor: nat, index: nat,
    ghost all: set<nat>, ghost pieces: set<nat>, ghost starts: set<nat>, ghost bound: nat)
    returns (further: nat, m: nat)
    requires Laid(next, buffered, missing, all) && Starting(buffered, pieces) && RangesStarting(missing, |missing|, starts)
    requires next <= cursor && (forall o | o in all :: o < bound) && Cut(buffered, missing, cursor)
    requires index <= |missing| && forall i | 0 <= i < index :: missing[i].end <= cursor
    ensures cursor <= further && m <= |missing| && (forall i | 0 <= i < m :: missing[i].end <= further)
    ensures further == cursor ==> cursor !in all
    ensures further > cursor ==> further <= bound && Cut(buffered, missing, further) && forall o: nat | cursor <= o < further :: o in all
    ensures further > cursor ==> |Beyond(pieces + starts, cursor)| == |Beyond(pieces + starts, further)| + 1
  {
    m := index;
    while m < |missing| && missing[m].end <= cursor
      invariant 0 <= m <= |missing|
      invariant forall i | 0 <= i < m :: missing[i].end <= cursor
    {
      m := m + 1;
    }
    if m < |missing| && missing[m].start == cursor {
      RangePassed(next, buffered, missing, all, pieces, starts, m);
      ReceivedBelow(all, cursor, missing[m].end, bound);
      return missing[m].end, m + 1;
    }
    var k := Position(buffered, cursor);
    if k == |buffered| || buffered[k].offset != cursor {
      NoStart(next, buffered, missing, all, cursor, m, k);
      return cursor, m;
    }
    ChunkPassed(next, buffered, missing, all, pieces, starts, k);
    ReceivedBelow(all, cursor, End(buffered[k]), bound);
    further := End(buffered[k]);
  }

  /** The number of chunks left in the buffer once a frame is filed and everything contiguous delivered. */
  method ChunkCountAfterReceive(
    next: nat, buffered: seq<Chunk>, missing: seq<Range>, ghost all: set<nat>, ghost pieces: set<nat>, ghost starts: set<nat>, ghost bound: nat)
    returns (retained: nat)
    requires Laid(next, buffered, missing, all) && Starting(buffered, pieces) && RangesStarting(missing, |missing|, starts)
    requires next <= bound && forall o | o in all :: o < bound
    ensures retained == |Beyond(pieces + starts, Frontier(all, next, bound))|
  {
    var count: int := |buffered| + |missing|;
    var cursor, m := next, 0;
    AllStarts(next, buffered, missing, all, pieces, starts);
    var done := false;
    while !done
      invariant next <= cursor <= bound && 0 <= m <= |missing| && Cut(buffered, missing, cursor)
      invariant forall i | 0 <= i < m :: missing[i].end <= cursor
      invariant forall o | next <= o < cursor :: o in all
      invariant count == |Beyond(pieces + starts, cursor)|
      invariant done ==> cursor !in all
      decreases count, !done
    {
      var further;
      further, m := PassOne(next, buffered, missing, cursor, m, all, pieces, starts, bound);
      if further == cursor {
        done := true;
      } else {
        cursor, count := further, count - 1;
      }
    }
    FrontierIs(all, next, bound, cursor);
    retained := count;
  }

  lemma {:induction false} ReceivedBelow(all: set<nat>, from: nat, till: nat, bound: nat)
    requires from < till && (forall o: nat | from <= o < till :: o in all) && forall o | o in all :: o < bound
    ensures till <= bound
  {
    assert till - 1 in all;
  }

  lemma {:induction false} NoStart(next: nat, buffered: seq<Chunk>, missing: seq<Range>, all: set<nat>, cursor: nat, m: nat, k: nat)
    requires Laid(next, buffered, missing, all) && Cut(buffered, missing, cursor) && next <= cursor && m <= |missing|
    requires (forall i | 0 <= i < m :: missing[i].end <= cursor) && (m < |missing| ==> missing[m].start != cursor && missing[m].end > cursor)
    requires k == Position(buffered, cursor) && (k == |buffered| || buffered[k].offset != cursor)
    ensures cursor !in all
  {
    forall i | 0 <= i < |missing| ensures missing[i].start != cursor {
      assert m < i ==> missing[m].end < missing[i].start;
    }
    forall j | 0 <= j < |buffered| ensures buffered[j].offset != cursor {
      assert k < j ==> End(buffered[k]) <= buffered[j].offset;
    }
    GapAt(next, buffered, missing, all, cursor);
  }
}
