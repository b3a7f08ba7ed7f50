/**
 When a reliable stream can still deliver everything that was written. The limits of the
 receiver (`receive_data` in `src/mux/stream.rs`) can leave it stuck: nothing delivered yet,
 every range slot taken, and no gap that the free part of the reorder buffer can close.
 */
module StreamRecovery {
  import opened Outcomes
  import opened OffsetSets
  import opened StreamChunks
  import opened StreamRun

  /** Limits as a validated configuration has them. */
  predicate Usable(l: Limits) {
    l.maxPayload > 0 && l.maxRanges > 0
  }

  predicate Sound(l: Limits, home: seq<nat>) {
    Usable(l) && Writes(home)
  }

  function Most(a: nat, b: nat): nat {
    if a >= b then a else b
  }

  /** Where the longest frame that ends at `hi` and does not reach below `lo` starts. */
  function Below(l: Limits, home: seq<nat>, lo: nat, hi: nat): (b: nat)
    requires Sound(l, home) && lo < hi <= |home|
    ensures lo <= b < hi
  {
    Most(lo, Most(home[hi - 1], if hi >= l.maxPayload then hi - l.maxPayload else 0))
  }

  /** How few frames fill the offsets from `lo` to `hi`. */
  function Frames(l: Limits, home: seq<nat>, lo: nat, hi: nat): nat
    requires Sound(l, home) && hi <= |home|
    decreases hi
  {
    if lo >= hi then 0 else 1 + Frames(l, home, lo, Below(l, home, lo, hi))
  }

  /** With nothing delivered, the reorder buffer has room for all bytes from `lo` to `hi`. */
  predicate Room(l: Limits, home: seq<nat>, received: set<nat>, pieces: set<nat>, lo: nat, hi: nat)
    requires Sound(l, home) && hi <= |home|
  {
    && |received| + hi - lo <= l.maxReorderBytes
    && |pieces| + Frames(l, home, lo, hi) <= l.maxReorderChunks
  }

  /** Nothing from `lo` on has been received before `hi`, which has. */
  predicate Gap(received: set<nat>, lo: nat, hi: nat) {
    lo < hi && hi in received && forall o | lo <= o < hi :: o !in received
  }

  /** One frame could bring the offsets from 0 to `f`. */
  predicate Opening(l: Limits, home: seq<nat>, f: nat) {
    0 < f <= l.maxPayload && f <= |home| && home[f - 1] == 0
  }

  /** The first island can be extended downwards until one frame joins it to the frontier. */
  predicate Approachable(l: Limits, home: seq<nat>, received: set<nat>, pieces: set<nat>, f: nat, hi: nat)
    requires Sound(l, home)
  {
    Opening(l, home, f) && f <= hi <= |home| && Gap(received, 0, hi) && Room(l, home, received, pieces, f, hi)
  }

  /** Two islands can be joined, which frees a range slot. */
  predicate Joinable(l: Limits, home: seq<nat>, received: set<nat>, pieces: set<nat>, lo: nat, hi: nat)
    requires Sound(l, home)
  {
    0 < lo && lo - 1 in received && hi <= |home| && Gap(received, lo, hi) && Room(l, home, received, pieces, lo, hi)
  }

  /** All range slots are taken, and no gap can be closed. */
  ghost predicate Jammed(l: Limits, home: seq<nat>, received: set<nat>, pieces: set<nat>)
    requires Sound(l, home)
  {
    && |Ends(received)| == l.maxRanges
    && (forall f: nat, hi: nat :: !Approachable(l, home, received, pieces, f, hi))
    && (forall lo: nat, hi: nat :: !Joinable(l, home, received, pieces, lo, hi))
  }

  ghost predicate Stuck(s: System)
    requires Sound(s.limits, s.home)
  {
    s.delivered == [] && Jammed(s.limits, s.home, s.received, s.pieces)
  }

  // ----- counting frames -----

  lemma {:induction false} HomesAscend(home: seq<nat>, a: nat, b: nat)
    requires Writes(home) && a <= b < |home|
    ensures home[a] <= home[b]
  {
    assert home[b] <= a ==> home[a] == home[b];
  }

  lemma {:induction false} FramesMonotone(l: Limits, home: seq<nat>, lo: nat, a: nat, b: nat)
    requires Sound(l, home) && a <= b <= |home|
    ensures Frames(l, home, lo, a) <= Frames(l, home, lo, b)
    decreases b
  {
    if lo < a < b {
      HomesAscend(home, a - 1, b - 1);
      FramesMonotone(l, home, lo, Below(l, home, lo, a), Below(l, home, lo, b));
    }
  }

  lemma {:induction false} FramesJoin(l: Limits, home: seq<nat>, lo: nat, mid: nat, hi: nat)
    requires Sound(l, home) && lo <= mid <= hi <= |home|
    ensures Frames(l, home, lo, hi) <= Frames(l, home, lo, mid) + Frames(l, home, mid, hi)
    decreases hi
  {
    if mid < hi && lo < mid {
      var b := Below(l, home, lo, hi);
      if b <= mid {
        FramesMonotone(l, home, lo, b, mid);
      } else {
        assert Below(l, home, mid, hi) == b;
        FramesJoin(l, home, lo, mid, b);
      }
    }
  }

  /** What one frame spans, one frame fills. */
  lemma {:induction false} OneFrame(l: Limits, home: seq<nat>, c: Chunk, lo: nat, hi: nat)
    requires Sound(l, home) && OneWrite(c, home) && |c.payload| <= l.maxPayload && c.offset <= lo <= hi <= End(c)
    ensures Frames(l, home, lo, hi) <= 1
  {
    if lo < hi {
      assert home[hi - 1] == home[c.offset] == home[lo] <= lo;
      assert Below(l, home, lo, hi) == lo;
    }
  }

  lemma {:induction false} FramesPrefix(l: Limits, home: seq<nat>, more: seq<nat>, lo: nat, hi: nat)
    requires Sound(l, home) && Sound(l, home + more) && hi <= |home|
    ensures Frames(l, home + more, lo, hi) == Frames(l, home, lo, hi)
    decreases hi
  {
    if lo < hi {
      assert (home + more)[hi - 1] == home[hi - 1];
      FramesPrefix(l, home, more, lo, Below(l, home, lo, hi));
    }
  }

  // ----- a jam stays a jam -----

  /** A frame taken while jammed: not covered, and within the limits of islands, bytes and pieces. */
  predicate Squeezed(l: Limits, home: seq<nat>, received: set<nat>, pieces: set<nat>, c: Chunk) {
    && 0 < |c.payload| <= l.maxPayload && OneWrite(c, home) && End(c) <= |home|
    && (forall o | o in received :: o < |home|) && pieces <= received && 0 !in received
    && |Ends(received + Span(c))| <= l.maxRanges
    && |received + Span(c)| <= l.maxReorderBytes
    && |pieces + FreshStarts(received, c)| <= l.maxReorderChunks
  }

  /** The bytes of a frame in front of or behind a gap, and the piece they start, come out of the room for it. */
  lemma {:induction false} RoomUsed(l: Limits, home: seq<nat>, received: set<nat>, pieces: set<nat>, c: Chunk, from: nat, to: nat)
    requires Sound(l, home) && OneWrite(c, home) && |c.payload| <= l.maxPayload && pieces <= received
    requires c.offset <= from < to <= End(c) && (forall o | from <= o < to :: o !in received)
    requires from == c.offset || from - 1 in received
    ensures |received| + to - from <= |received + Span(c)|
    ensures |pieces| + 1 <= |pieces + FreshStarts(received, c)|
  {
    IntervalSize(from, to);
    UnionSize(received, Interval(from, to));
    SubsetSize(received + Interval(from, to), received + Span(c));
    assert from in FreshStarts(received, c);
    UnionSize(pieces, {from});
    SubsetSize(pieces + {from}, pieces + FreshStarts(received, c));
  }

  /** A jammed receiver refuses a frame that touches no island. */
  lemma {:induction false} FrameTouches(received: set<nat>, c: Chunk) returns (o: nat)
    requires |c.payload| > 0 && |Ends(received + Span(c))| <= |Ends(received)|
    ensures o in received && c.offset <= o + 1 && o <= End(c)
  {
    if forall o | o in received :: !(c.offset <= o + 1 && o <= End(c)) {
      EndsOfIsolated(received, c.offset, End(c));
      assert false;
    }
    o :| o in received && c.offset <= o + 1 && o <= End(c);
  }

  /** The first received offset from `from` on, when there is one up to `o`. */
  lemma {:induction false} FirstFrom(received: set<nat>, from: nat, o: nat) returns (hi: nat)
    requires from <= o && o in received
    ensures from <= hi <= o && hi in received && forall p | from <= p < hi :: p !in received
    decreases o - from
  {
    if from in received {
      hi := from;
    } else {
      hi := FirstFrom(received, from + 1, o);
    }
  }

  /** The last received offset below `bound`, when there is one from `o` on. */
  lemma {:induction false} LastBelow(received: set<nat>, o: nat, bound: nat) returns (e: nat)
    requires o < bound && o in received
    ensures o <= e < bound && e in received && forall p | e < p < bound :: p !in received
    decreases bound - o
  {
    if bound - 1 in received {
      e := bound - 1;
    } else {
      e := LastBelow(received, o, bound - 1);
    }
  }

  /** The frame cannot start at 0, or its first part would have joined the first island. */
  lemma {:induction false} NotFromZero(l: Limits, home: seq<nat>, received: set<nat>, pieces: set<nat>, c: Chunk)
    requires Sound(l, home) && Jammed(l, home, received, pieces) && 0 !in received && pieces <= received
    requires 0 < |c.payload| <= l.maxPayload && OneWrite(c, home) && |Ends(received + Span(c))| <= l.maxRanges
    requires |received| <= l.maxReorderBytes && |pieces| <= l.maxReorderChunks
    ensures c.offset > 0
  {
    if c.offset == 0 {
      var o := FrameTouches(received, c);
      var hi := FirstFrom(received, 0, o);
      assert home[hi - 1] == home[0] == 0;
      assert Frames(l, home, hi, hi) == 0;
      assert Approachable(l, home, received, pieces, hi, hi);
    }
  }

  /** No island that the frame runs into is followed by another one that it reaches. */
  lemma {:induction false} NoJoin(l: Limits, home: seq<nat>, received: set<nat>, pieces: set<nat>, c: Chunk, e: nat, o: nat)
    requires Sound(l, home) && Jammed(l, home, received, pieces) && Squeezed(l, home, received, pieces, c)
    requires e in Ends(received) && c.offset <= e + 1 < End(c) && o in received && e + 1 < o
    ensures o > End(c)
  {
    if o <= End(c) {
      var hi := FirstFrom(received, e + 1, o);
      OneFrame(l, home, c, e + 1, hi);
      RoomUsed(l, home, received, pieces, c, e + 1, hi);
      assert Joinable(l, home, received, pieces, e + 1, hi);
    }
  }

  /** At most one island runs into the frame, and then the frame ends apart from everything received. */
  lemma {:induction false} OneIslandMet(l: Limits, home: seq<nat>, received: set<nat>, pieces: set<nat>, c: Chunk, e: nat)
    requires Sound(l, home) && Jammed(l, home, received, pieces) && Squeezed(l, home, received, pieces, c)
    requires e in Ends(received) && c.offset <= e + 1 < End(c)
    ensures End(c) !in received && End(c) - 1 !in received
    ensures forall d | d in Ends(received) && c.offset <= d + 1 < End(c) :: d == e
  {
    forall o | o in received && e + 1 < o ensures o > End(c) {
      NoJoin(l, home, received, pieces, c, e, o);
    }
    assert e + 1 !in received;
    forall d | d in Ends(received) && c.offset <= d + 1 < End(c) ensures d == e {
      if d < e {
        assert d + 1 !in received;
        NoJoin(l, home, received, pieces, c, d, e);
      }
    }
  }

  lemma {:induction false} IslandsStay(l: Limits, home: seq<nat>, received: set<nat>, pieces: set<nat>, c: Chunk)
    requires Sound(l, home) && Jammed(l, home, received, pieces) && Squeezed(l, home, received, pieces, c)
    ensures |Ends(received + Span(c))| == l.maxRanges
  {
    if e :| e in Ends(received) && c.offset <= e + 1 < End(c) {
      OneIslandMet(l, home, received, pieces, c, e);
      IslandExtended(received, c.offset, End(c), e);
    } else {
      NoIslandMet(received, c.offset, End(c));
    }
  }

  lemma {:induction false} IslandExtended(received: set<nat>, from: nat, to: nat, e: nat)
    requires from < to && e in Ends(received) && to !in received && to - 1 !in received
    requires forall d | d in Ends(received) && from <= d + 1 < to :: d == e
    ensures |Ends(received)| <= |Ends(received + Interval(from, to))|
  {
    EndsWith(received, from, to);
    OneExchanged(Ends(received), e, to - 1, Ends(received + Interval(from, to)));
  }

  lemma {:induction false} NoIslandMet(received: set<nat>, from: nat, to: nat)
    requires from < to && forall d | d in Ends(received) :: !(from <= d + 1 < to)
    ensures |Ends(received)| <= |Ends(received + Interval(from, to))|
  {
    EndsWith(received, from, to);
    SubsetSize(Ends(received), Ends(received + Interval(from, to)));
  }

  lemma {:induction false} OneExchanged(before: set<nat>, e: nat, o: nat, after: set<nat>)
    requires e in before && o !in before && o in after && forall d | d in before && d != e :: d in after
    ensures |before| <= |after|
  {
    UnionSize(before - {e}, {o});
    SubsetSize(before - {e} + {o}, after);
  }

  /** The frame extends a gap's upper island downwards, or leaves it alone. */
  lemma {:induction false} UpperEnd(received: set<nat>, c: Chunk, lo: nat, hi: nat) returns (top: nat)
    requires |c.payload| > 0 && |Ends(received + Span(c))| <= |Ends(received)| && Gap(received + Span(c), lo, hi)
    ensures hi <= top && Gap(received, lo, top)
    ensures top == hi || (hi == c.offset && top <= End(c))
  {
    if hi in received {
      top := hi;
    } else {
      assert hi in Span(c) && hi - 1 !in Span(c) && hi - 1 !in received;
      var o := FrameTouches(received, c);
      top := FirstFrom(received, hi, o);
    }
  }

  lemma {:induction false} GapStaysUp(l: Limits, home: seq<nat>, received: set<nat>, pieces: set<nat>, c: Chunk, lo: nat, hi: nat, top: nat)
    requires Sound(l, home) && Squeezed(l, home, received, pieces, c) && lo <= hi <= top <= |home|
    requires forall p | hi <= p < top :: p !in received
    requires top == hi || (hi == c.offset && top <= End(c))
    requires Room(l, home, received + Span(c), pieces + FreshStarts(received, c), lo, hi)
    ensures Room(l, home, received, pieces, lo, top)
  {
    if top == hi {
      SubsetSize(received, received + Span(c));
      SubsetSize(pieces, pieces + FreshStarts(received, c));
    } else {
      OneFrame(l, home, c, hi, top);
      FramesJoin(l, home, lo, hi, top);
      RoomUsed(l, home, received, pieces, c, hi, top);
    }
  }

  lemma {:induction false} GapStaysDown(l: Limits, home: seq<nat>, received: set<nat>, pieces: set<nat>, c: Chunk, bottom: nat, lo: nat, hi: nat)
    requires Sound(l, home) && Squeezed(l, home, received, pieces, c) && c.offset <= bottom < lo == End(c) && lo <= hi <= |home|
    requires (forall p | bottom <= p < lo :: p !in received) && bottom > 0 && bottom - 1 in received
    requires Room(l, home, received + Span(c), pieces + FreshStarts(received, c), lo, hi)
    ensures Room(l, home, received, pieces, bottom, hi)
  {
    OneFrame(l, home, c, bottom, lo);
    FramesJoin(l, home, bottom, lo, hi);
    RoomUsed(l, home, received, pieces, c, bottom, lo);
  }

  lemma {:induction false} WasApproachable(l: Limits, home: seq<nat>, received: set<nat>, pieces: set<nat>, c: Chunk, f: nat, hi: nat) returns (top: nat)
    requires Sound(l, home) && |Ends(received)| == l.maxRanges && Squeezed(l, home, received, pieces, c)
    requires Approachable(l, home, received + Span(c), pieces + FreshStarts(received, c), f, hi)
    ensures Approachable(l, home, received, pieces, f, top)
  {
    top := UpperEnd(received, c, 0, hi);
    GapStaysUp(l, home, received, pieces, c, f, hi, top);
  }

  lemma {:induction false} WasJoinable(l: Limits, home: seq<nat>, received: set<nat>, pieces: set<nat>, c: Chunk, lo: nat, hi: nat) returns (bottom: nat, top: nat)
    requires Sound(l, home) && |Ends(received)| == l.maxRanges && Squeezed(l, home, received, pieces, c)
    requires Joinable(l, home, received + Span(c), pieces + FreshStarts(received, c), lo, hi)
    ensures Joinable(l, home, received, pieces, bottom, top)
  {
    if lo - 1 in received {
      bottom := lo;
      top := UpperEnd(received, c, lo, hi);
      GapStaysUp(l, home, received, pieces, c, lo, hi, top);
    } else {
      var e := LowerEnd(received, c, lo, hi);
      bottom, top := e + 1, hi;
      GapStaysDown(l, home, received, pieces, c, bottom, lo, hi);
    }
  }

  lemma {:induction false} StaysJammed(l: Limits, home: seq<nat>, received: set<nat>, pieces: set<nat>, c: Chunk)
    requires Sound(l, home) && Jammed(l, home, received, pieces) && Squeezed(l, home, received, pieces, c)
    ensures Jammed(l, home, received + Span(c), pieces + FreshStarts(received, c))
  {
    IslandsStay(l, home, received, pieces, c);
    forall f: nat, hi: nat ensures !Approachable(l, home, received + Span(c), pieces + FreshStarts(received, c), f, hi) {
      if Approachable(l, home, received + Span(c), pieces + FreshStarts(received, c), f, hi) {
        var _ := WasApproachable(l, home, received, pieces, c, f, hi);
      }
    }
    forall lo: nat, hi: nat ensures !Joinable(l, home, received + Span(c), pieces + FreshStarts(received, c), lo, hi) {
      if Joinable(l, home, received + Span(c), pieces + FreshStarts(received, c), lo, hi) {
        var _, _ := WasJoinable(l, home, received, pieces, c, lo, hi);
      }
    }
  }

  /** The frame extended a gap's lower island upwards, to where the gap now starts. */
  lemma {:induction false} LowerEnd(received: set<nat>, c: Chunk, lo: nat, hi: nat) returns (e: nat)
    requires |c.payload| > 0 && |Ends(received + Span(c))| <= |Ends(received)|
    requires 0 < lo && lo - 1 in received + Span(c) && lo - 1 !in received && Gap(received + Span(c), lo, hi)
    ensures e in received && c.offset <= e + 1 < lo == End(c) && Gap(received, e + 1, hi)
  {
    assert lo - 1 in Span(c) && lo !in Span(c) && lo !in received;
    var o := FrameTouches(received, c);
    e := LastBelow(received, o, lo);
    assert hi !in Span(c);
  }

  // ----- once stuck, stuck for good -----

  /** A reliable system is sound to reason about. */
  predicate Running(s: System) {
    Usable(s.limits) && Reliable(s)
  }

  lemma {:induction false} StuckTakes(s: System, c: Chunk)
    requires Running(s) && Stuck(s) && c in s.frames && Takes(s, c)
    ensures Stuck(Arrived(s, c))
  {
    NothingAtZero(s);
    var t := Arrived(s, c);
    var received, pieces := s.received, s.pieces;
    if Span(c) <= received {
      assert t.received == received;
      assert t.pieces == pieces;
    } else {
      NotFromZero(s.limits, s.home, received, pieces, c);
      assert 0 !in t.received;
      assert t.pieces == pieces + FreshStarts(received, c);
      StaysJammed(s.limits, s.home, received, pieces, c);
    }
  }

  lemma {:induction false} NothingAtZero(s: System)
    requires Running(s) && Stuck(s)
    ensures 0 !in s.received && 0 < |s.data|
  {
    assert Ends({}) == {};
    assert exists o :: o in s.received;
  }

  lemma {:induction false} StuckWrites(s: System, payload: Bytes, t: System)
    requires Running(s) && Running(t) && Stuck(s) && Apply(s, Write(payload)) == Some(t)
    ensures Stuck(t)
  {
    var more := seq(|payload|, _ => |s.home|);
    assert t.home == s.home + more;
    forall f: nat, hi: nat ensures !Approachable(t.limits, t.home, t.received, t.pieces, f, hi) {
      if Gap(s.received, 0, hi) && f <= hi {
        FramesPrefix(s.limits, s.home, more, f, hi);
        assert !Approachable(s.limits, s.home, s.received, s.pieces, f, hi);
      }
    }
    forall lo: nat, hi: nat ensures !Joinable(t.limits, t.home, t.received, t.pieces, lo, hi) {
      if Gap(s.received, lo, hi) {
        FramesPrefix(s.limits, s.home, more, lo, hi);
        assert !Joinable(s.limits, s.home, s.received, s.pieces, lo, hi);
      }
    }
  }

  lemma {:induction false} StuckForGood(s: System, steps: seq<Step>, t: System)
    requires Running(s) && Stuck(s) && Run(s, steps) == Some(t)
    ensures Running(t) && Stuck(t) && t.delivered == []
    decreases |steps|
  {
    if steps != [] {
      var u := Apply(s, steps[0]).value;
      StepReliable(s, steps[0], u);
      if steps[0].Write? {
        StuckWrites(s, steps[0].payload, u);
      } else if steps[0].Arrive? {
        StuckTakes(s, steps[0].chunk);
      }
      StuckForGood(u, steps[1..], t);
    }
  }
}
