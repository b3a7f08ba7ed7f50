/**
 A receiver seen as sets of offsets: what was received, and where its buffered pieces start.
 Whether a frame is accepted depends on nothing else (`receive_data` in `src/mux/stream.rs`).
 */
module OffsetSets {
  import opened OffsetRanges
  import opened StreamChunks

  datatype Limits = Limits(maxPayload: nat, maxReorderBytes: nat, maxReorderChunks: nat, maxRanges: nat)

  predicate Between(from: nat, to: nat, o: nat) {
    from <= o < to
  }

  function Interval(from: nat, to: nat): set<nat> {
    set o: nat | o < to && Between(from, to, o)
  }

  function Span(c: Chunk): set<nat> {
    Interval(c.offset, End(c))
  }

  predicate EndsIsland(received: set<nat>, o: nat) {
    o in received && o + 1 !in received
  }

  /** The last offset of every island of received bytes. */
  function Ends(received: set<nat>): set<nat> {
    set o | o in received && EndsIsland(received, o)
  }

  /** Where the parts of a frame that are new start: at its head or behind a byte already there. */
  function FreshStarts(received: set<nat>, c: Chunk): set<nat> {
    set o | o in Span(c) && StartsFresh(received, c, o)
  }

  predicate StartsFresh(received: set<nat>, c: Chunk, o: nat) {
    o !in received && (o == c.offset || o - 1 in received)
  }

  function Beyond(s: set<nat>, next: nat): set<nat> {
    set o | o in s && o >= next
  }

  /** The first offset from `from` on that has not been received, at most `bound`. */
  function Frontier(received: set<nat>, from: nat, bound: nat): (f: nat)
    requires from <= bound
    ensures from <= f <= bound
    ensures forall o | from <= o < f :: o in received
    ensures f < bound ==> f !in received
    decreases bound - from
  {
    if from < bound && from in received then Frontier(received, from + 1, bound) else from
  }

  lemma {:induction false} FrontierIs(received: set<nat>, from: nat, bound: nat, f: nat)
    requires from <= f <= bound && (forall o | from <= o < f :: o in received) && f !in received
    ensures Frontier(received, from, bound) == f
  {
    var g := Frontier(received, from, bound);
    assert g < f ==> g in received;
    assert f < g ==> f in received;
  }

  /** The buffered pieces once a frame has been filed and everything contiguous delivered. */
  function PiecesAfter(received: set<nat>, pieces: set<nat>, next: nat, c: Chunk, bound: nat): set<nat>
    requires next <= bound
  {
    Beyond(pieces + FreshStarts(received, c), Frontier(received + Span(c), next, bound))
  }

  /** A frame that starts at the frontier and is new throughout never passes through the buffer. */
  predicate Direct(received: set<nat>, next: nat, c: Chunk) {
    c.offset == next && Span(c) !! received
  }

  /** The frame leaves no more islands, buffered bytes and buffered pieces than the limits allow. */
  predicate Fits(l: Limits, received: set<nat>, pieces: set<nat>, next: nat, c: Chunk, bound: nat)
    requires next <= bound
  {
    && |Ends(received + Span(c))| <= l.maxRanges
    && (Direct(received, next, c) ||
        (|received + Span(c)| <= next + l.maxReorderBytes && |PiecesAfter(received, pieces, next, c, bound)| <= l.maxReorderChunks))
  }

  /** Exactly the frames a receiver takes. */
  predicate Accepts(l: Limits, published: nat, received: set<nat>, pieces: set<nat>, next: nat, c: Chunk, bound: nat)
    requires next <= bound
  {
    && 0 < |c.payload| <= l.maxPayload && End(c) <= published
    && (Span(c) <= received || Fits(l, received, pieces, next, c, bound))
  }

  // ----- sizes of sets -----

  lemma {:induction false} IntervalSize(from: nat, to: nat)
    requires from <= to
    ensures |Interval(from, to)| == to - from
  {
    if from == to {
      assert Interval(from, to) == {};
    } else {
      IntervalSize(from, to - 1);
      assert Interval(from, to) == Interval(from, to - 1) + {to - 1};
    }
  }

  lemma {:induction false} SubsetSize(a: set<nat>, b: set<nat>)
    requires a <= b
    ensures |a| <= |b|
  {
    assert b == a + (b - a);
  }

  lemma {:induction false} UnionSize(a: set<nat>, b: set<nat>)
    ensures a !! b ==> |a + b| == |a| + |b|
    ensures |a + b| == |a| + |b - a|
  {
    assert a + b == a + (b - a);
  }

  lemma {:induction false} IntervalAddsSize(s: set<nat>, from: nat, to: nat)
    requires from <= to && forall o | o in s :: o < from || to <= o
    ensures |s + Interval(from, to)| == |s| + to - from
  {
    IntervalSize(from, to);
    UnionSize(s, Interval(from, to));
  }

  // ----- islands -----

  /** The islands that do not run into an interval. */
  function Unmet(received: set<nat>, from: nat, to: nat): set<nat> {
    set e | e in Ends(received) && !(from <= e + 1 < to)
  }

  /** A new interval closes the islands it runs into and ends one of its own unless it meets the next. */
  lemma {:induction false} EndsWith(received: set<nat>, from: nat, to: nat)
    requires from < to
    ensures Ends(received + Interval(from, to)) ==
      Unmet(received, from, to) + if to in received then {} else {to - 1}
  {
    var more := received + Interval(from, to);
    var rest := Unmet(received, from, to);
    forall o: nat ensures o in Ends(more) <==> o in rest + if to in received then {} else {to - 1} {
      assert o in Ends(more) <==> EndsIsland(more, o);
    }
  }

  lemma {:induction false} EndsGrowByOne(received: set<nat>, from: nat, to: nat)
    requires from < to
    ensures |Ends(received + Interval(from, to))| <= |Ends(received)| + 1
    ensures to in received || (from > 0 && from - 1 in received && from !in received) ==> |Ends(received + Interval(from, to))| <= |Ends(received)|
    ensures to in received && from > 0 && from - 1 in received && from !in received ==> |Ends(received + Interval(from, to))| < |Ends(received)|
  {
    EndsWith(received, from, to);
    var rest := Unmet(received, from, to);
    SubsetSize(rest, Ends(received));
    UnionSize(rest, {to - 1});
    if from > 0 && from - 1 in received && from !in received {
      assert from - 1 in Ends(received) && from - 1 !in rest;
      SubsetSize(rest, Ends(received) - {from - 1});
    }
  }

  /** An interval that touches nothing received adds an island. */
  lemma {:induction false} EndsOfIsolated(received: set<nat>, from: nat, to: nat)
    requires from < to && to !in received && (forall o: nat | from <= o + 1 && o < to :: o !in received)
    ensures |Ends(received + Interval(from, to))| == |Ends(received)| + 1
  {
    EndsWith(received, from, to);
    var rest := Unmet(received, from, to);
    assert rest == Ends(received);
    assert to - 1 !in rest;
  }

  // ----- ranges and chunks as sets -----

  /** A set holds exactly the offsets in some ranges. */
  ghost predicate Covering(s: seq<Range>, offsets: set<nat>) {
    forall o: nat :: o in offsets <==> In(s, o)
  }

  predicate StartsAt(cs: seq<Chunk>, o: nat) {
    exists i | 0 <= i < |cs| :: cs[i].offset == o
  }

  /** A set holds exactly the offsets where some chunks start. */
  ghost predicate Starting(cs: seq<Chunk>, starts: set<nat>) {
    forall o: nat :: o in starts <==> StartsAt(cs, o)
  }

  /** A set holds exactly the offsets where the first `n` of some ranges start. */
  ghost predicate RangesStarting(s: seq<Range>, n: nat, starts: set<nat>)
    requires n <= |s|
  {
    forall o: nat :: o in starts <==> exists i | 0 <= i < n :: s[i].start == o
  }

  lemma {:induction false} CoveringTail(s: seq<Range>, offsets: set<nat>)
    requires Canonical(s) && Covering(s, offsets) && s != []
    ensures Covering(s[1..], offsets - Interval(s[0].start, s[0].end))
    ensures offsets == (offsets - Interval(s[0].start, s[0].end)) + Interval(s[0].start, s[0].end)
    ensures forall o | o in offsets && o !in Interval(s[0].start, s[0].end) :: s[0].end < o
  {
    forall o: nat ensures In(s[1..], o) <==> o in offsets && !Within(s[0], o) {
      InTail(s, o);
      if i :| 0 <= i < |s[1..]| && Within(s[1..][i], o) {
        assert s[0].end < s[i + 1].start;
      }
    }
    forall o | o in offsets && !Within(s[0], o) ensures s[0].end < o {
      var i :| 0 <= i < |s| && Within(s[i], o);
      assert s[0].end < s[i].start;
    }
    forall o | o in Interval(s[0].start, s[0].end) ensures o in offsets {
      assert Within(s[0], o);
    }
  }

  /** Canonical ranges are the islands, one each. */
  lemma {:induction false} RangesAreIslands(s: seq<Range>, offsets: set<nat>)
    requires Canonical(s) && Covering(s, offsets)
    ensures |Ends(offsets)| == |s|
  {
    if s == [] {
      assert offsets == {};
    } else {
      CoveringTail(s, offsets);
      var rest := offsets - Interval(s[0].start, s[0].end);
      RangesAreIslands(s[1..], rest);
      EndsOfIsolated(rest, s[0].start, s[0].end);
    }
  }

  function Lengths(s: seq<Range>): int {
    if s == [] then 0 else s[0].end - s[0].start + Lengths(s[1..])
  }

  lemma {:induction false} RangesSize(s: seq<Range>, offsets: set<nat>)
    requires Canonical(s) && Covering(s, offsets)
    ensures |offsets| == Lengths(s)
  {
    if s == [] {
      assert offsets == {};
    } else {
      CoveringTail(s, offsets);
      var rest := offsets - Interval(s[0].start, s[0].end);
      RangesSize(s[1..], rest);
      IntervalAddsSize(rest, s[0].start, s[0].end);
    }
  }

  /** The uncovered ranges of a frame start exactly where its new parts do. */
  lemma {:induction false} MissingStarts(received: set<nat>, c: Chunk, missing: seq<Range>)
    requires Canonical(missing) && Covering(missing, Span(c) - received)
    ensures RangesStarting(missing, |missing|, FreshStarts(received, c))
  {
    forall i | 0 <= i < |missing| ensures missing[i].start in FreshStarts(received, c) {
      var o := missing[i].start;
      assert Within(missing[i], o) && In(missing, o);
      if o != c.offset {
        assert forall j | 0 <= j < |missing| :: !Within(missing[j], o - 1);
        assert !In(missing, o - 1) && o - 1 in Span(c);
      }
    }
    forall o | o in FreshStarts(received, c) ensures exists i | 0 <= i < |missing| :: missing[i].start == o {
      assert In(missing, o);
      var i :| 0 <= i < |missing| && Within(missing[i], o);
      assert missing[i].start < o ==> Within(missing[i], o - 1);
    }
  }

  lemma {:induction false} HeldSize(cs: seq<Chunk>, held: set<nat>)
    requires Ordered(cs) && forall o: nat :: o in held <==> Held(cs, o)
    ensures |held| == Total(cs)
  {
    if cs == [] {
      assert held == {};
    } else {
      var rest := held - Span(cs[0]);
      forall o: nat ensures o in rest <==> Held(cs[1..], o) {
        HeldTail(cs, o);
        HeldBeyond(cs, o);
      }
      forall o | o in Span(cs[0]) ensures o in held {
        assert Spans(cs[0], o);
      }
      assert held == rest + Span(cs[0]);
      HeldSize(cs[1..], rest);
      IntervalAddsSize(rest, cs[0].offset, End(cs[0]));
    }
  }

  lemma {:induction false} HeldBeyond(cs: seq<Chunk>, o: nat)
    requires Ordered(cs) && cs != []
    ensures Held(cs[1..], o) ==> !Spans(cs[0], o)
  {
    if i :| 0 <= i < |cs[1..]| && Spans(cs[1..][i], o) {
      assert End(cs[0]) <= cs[i + 1].offset;
    }
  }

  lemma {:induction false} StartsSize(cs: seq<Chunk>, starts: set<nat>)
    requires Ordered(cs) && Starting(cs, starts)
    ensures |starts| == |cs|
  {
    if cs == [] {
      assert starts == {};
    } else {
      var rest := starts - {cs[0].offset};
      forall o: nat ensures o in rest <==> StartsAt(cs[1..], o) {
        StartsTail(cs, o);
      }
      assert StartsAt(cs, cs[0].offset);
      assert starts == rest + {cs[0].offset};
      StartsSize(cs[1..], rest);
    }
  }

  lemma {:induction false} StartsTail(cs: seq<Chunk>, o: nat)
    requires Ordered(cs) && cs != []
    ensures StartsAt(cs[1..], o) <==> StartsAt(cs, o) && o != cs[0].offset
  {
    if i :| 0 <= i < |cs[1..]| && cs[1..][i].offset == o {
      assert End(cs[0]) <= cs[i + 1].offset;
    }
    if i :| 0 < i < |cs| && cs[i].offset == o {
      assert cs[1..][i - 1].offset == o;
    }
  }
}
