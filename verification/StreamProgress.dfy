/**
 How a stream that is not stuck recovers, and which limits can lead to a stuck one. Together with
 `StreamRecovery` this decides, for every state and for every choice of limits, whether the
 sender can still bring everything it wrote to the receiver.
 */
module StreamProgress {
  import opened Outcomes
  import opened OffsetSets
  import opened StreamChunks
  import opened StreamRun
  import opened StreamRecovery

  // ----- one frame at a time -----

  /** What recovery leaves alone. */
  predicate SameStream(s: System, t: System) {
    t.data == s.data && t.home == s.home && t.limits == s.limits
  }

  function Piece(s: System, from: nat, to: nat): Chunk
    requires from <= to <= |s.data|
  {
    Chunk(from, s.data[from..to])
  }

  lemma {:induction false} MissingIsRetained(s: System, from: nat, to: nat)
    requires Running(s) && from < to <= |s.data| && OneWrite(Piece(s, from, to), s.home)
    requires forall o | from <= o < to :: o !in s.received
    ensures Apply(s, Retransmit(Piece(s, from, to))) == Some(s.(frames := s.frames + {Piece(s, from, to)}))
  {
    forall o | o in Span(Piece(s, from, to)) ensures o in s.cached {
    }
  }

  lemma {:induction false} RunTwo(s: System, a: Step, u: System, b: Step, t: System)
    requires Apply(s, a) == Some(u) && Apply(u, b) == Some(t)
    ensures Run(s, [a, b]) == Some(t)
  {
    assert [a, b][1..] == [b] && [b][1..] == [];
    assert Run(u, [b]) == Some(t);
  }

  /** The state after a frame was retransmitted and arrived. */
  function Brought(s: System, c: Chunk): System
    requires |s.delivered| <= |s.data|
  {
    Arrived(s.(frames := s.frames + {c}), c)
  }

  lemma {:induction false} BroughtMeans(s: System, from: nat, to: nat)
    requires |s.delivered| <= |s.data| && from < to <= |s.data|
    ensures SameStream(s, Brought(s, Piece(s, from, to)))
    ensures Brought(s, Piece(s, from, to)).received == s.received + Interval(from, to)
    ensures |Brought(s, Piece(s, from, to)).delivered| == Frontier(s.received + Interval(from, to), |s.delivered|, |s.data|)
    ensures Brought(s, Piece(s, from, to)).pieces == PiecesAfter(s.received, s.pieces, |s.delivered|, Piece(s, from, to), |s.data|)
  {
    assert End(Piece(s, from, to)) == to;
  }

  lemma {:induction false} BringFrame(s: System, c: Chunk)
    requires Running(s) && Apply(s, Retransmit(c)) == Some(s.(frames := s.frames + {c})) && Takes(s, c)
    ensures Run(s, [Retransmit(c), Arrive(c)]) == Some(Brought(s, c)) && Running(Brought(s, c))
  {
    var u := s.(frames := s.frames + {c});
    StepReliable(s, Retransmit(c), u);
    ArriveReliable(u, c);
    RunTwo(s, Retransmit(c), u, Arrive(c), Arrived(u, c));
  }

  /** Retransmits a frame of missing bytes and has it arrive. */
  lemma {:induction false} Bring(s: System, from: nat, to: nat) returns (steps: seq<Step>, t: System)
    requires Running(s) && from < to <= |s.data| && OneWrite(Piece(s, from, to), s.home)
    requires (forall o | from <= o < to :: o !in s.received) && Takes(s, Piece(s, from, to))
    ensures Run(s, steps) == Some(t) && Running(t) && SameStream(s, t)
    ensures t.received == s.received + Interval(from, to) && |t.delivered| == Frontier(t.received, |s.delivered|, |s.data|)
    ensures t.pieces == PiecesAfter(s.received, s.pieces, |s.delivered|, Piece(s, from, to), |s.data|)
  {
    MissingIsRetained(s, from, to);
    BringFrame(s, Piece(s, from, to));
    BroughtMeans(s, from, to);
    steps, t := [Retransmit(Piece(s, from, to)), Arrive(Piece(s, from, to))], Brought(s, Piece(s, from, to));
  }

  /** A byte at the frontier is taken if one was delivered before it or a range slot is free. */
  lemma {:induction false} ByteTaken(l: Limits, published: nat, received: set<nat>, pieces: set<nat>, next: nat, c: Chunk, bound: nat)
    requires Usable(l) && |Ends(received)| <= l.maxRanges && next <= bound && c.offset == next && |c.payload| == 1 && End(c) <= published
    requires next !in received && (|Ends(received)| < l.maxRanges || (next > 0 && next - 1 in received))
    ensures Accepts(l, published, received, pieces, next, c, bound)
  {
    EndsGrowByOne(received, next, next + 1);
    assert Direct(received, next, c);
  }

  lemma {:induction false} NextByteTaken(s: System)
    requires Running(s) && |s.delivered| < |s.data|
    requires s.delivered != [] || |Ends(s.received)| < s.limits.maxRanges
    ensures |s.delivered| !in s.received && OneWrite(Piece(s, |s.delivered|, |s.delivered| + 1), s.home)
    ensures Takes(s, Piece(s, |s.delivered|, |s.delivered| + 1))
  {
    var o := |s.delivered|;
    assert s.delivered != [] ==> o - 1 in s.received;
    ByteTaken(s.limits, s.published, s.received, s.pieces, o, Piece(s, o, o + 1), |s.data|);
  }

  lemma {:induction false} NextByte(s: System) returns (steps: seq<Step>, t: System)
    requires Running(s) && |s.delivered| < |s.data|
    requires s.delivered != [] || |Ends(s.received)| < s.limits.maxRanges
    ensures Run(s, steps) == Some(t) && Running(t) && SameStream(s, t) && |t.delivered| > |s.delivered|
  {
    var o := |s.delivered|;
    NextByteTaken(s);
    FrontierMoves(s.received, o, o + 1, |s.data|);
    steps, t := Bring(s, o, o + 1);
  }

  lemma {:induction false} FrontierMoves(received: set<nat>, from: nat, to: nat, bound: nat)
    requires from < to <= bound
    ensures Frontier(received + Interval(from, to), from, bound) >= to
  {
    var f := Frontier(received + Interval(from, to), from, bound);
    assert f < to ==> f in Interval(from, to);
  }

  lemma {:induction false} DeliverRest(s: System) returns (steps: seq<Step>, t: System)
    requires Running(s) && (s.delivered != [] || |Ends(s.received)| < s.limits.maxRanges)
    ensures Run(s, steps) == Some(t) && SameStream(s, t) && t.delivered == s.data
    decreases |s.data| - |s.delivered|
  {
    if |s.delivered| == |s.data| {
      steps, t := [], s;
    } else {
      var first, u := NextByte(s);
      var rest;
      rest, t := DeliverRest(u);
      RunAppend(s, first, u, rest);
      steps := first + rest;
    }
  }

  // ----- closing a gap from above -----

  /** Nothing delivered, everything from `lo` to `hi` missing, and room in the buffer for it. */
  predicate Fillable(s: System, lo: nat, hi: nat) {
    && Running(s) && s.delivered == [] && 0 !in s.received && 0 < lo <= hi <= |s.data| && hi in s.received
    && (forall o | lo <= o < hi :: o !in s.received)
    && Room(s.limits, s.home, s.received, s.pieces, lo, hi)
  }

  lemma {:induction false} OnePieceMore(received: set<nat>, pieces: set<nat>, c: Chunk, bound: nat)
    requires 0 !in received && c.offset > 0 && |c.payload| > 0 && (forall o | c.offset <= o < End(c) :: o !in received)
    ensures Frontier(received + Span(c), 0, bound) == 0
    ensures PiecesAfter(received, pieces, 0, c, bound) == pieces + {c.offset}
    ensures |PiecesAfter(received, pieces, 0, c, bound)| <= |pieces| + 1
    ensures |received + Span(c)| == |received| + |c.payload|
  {
    assert FreshStarts(received, c) == {c.offset};
    assert PiecesAfter(received, pieces, 0, c, bound) == pieces + {c.offset};
    UnionSize(pieces, {c.offset});
    IntervalAddsSize(received, c.offset, End(c));
  }

  lemma {:induction false} TopPieceOneWrite(s: System, lo: nat, hi: nat)
    requires Running(s) && lo < hi <= |s.data|
    ensures OneWrite(Piece(s, Below(s.limits, s.home, lo, hi), hi), s.home)
    ensures hi - Below(s.limits, s.home, lo, hi) <= s.limits.maxPayload
  {
    var b := Below(s.limits, s.home, lo, hi);
    assert forall o | b <= o < hi :: s.home[o] == s.home[hi - 1];
  }

  /** With an island right above it, a piece is taken if the buffer has room for it. */
  lemma {:induction false} PieceTaken(l: Limits, published: nat, received: set<nat>, pieces: set<nat>, c: Chunk, bound: nat)
    requires |Ends(received)| <= l.maxRanges && 0 !in received && c.offset > 0 && End(c) in received && End(c) <= published
    requires 0 < |c.payload| <= l.maxPayload && (forall o | c.offset <= o < End(c) :: o !in received)
    requires |received| + |c.payload| <= l.maxReorderBytes && |pieces| + 1 <= l.maxReorderChunks
    ensures Accepts(l, published, received, pieces, 0, c, bound)
  {
    OnePieceMore(received, pieces, c, bound);
    EndsGrowByOne(received, c.offset, End(c));
  }

  /** Brings the topmost piece of a gap; the rest of the gap stays fillable. */
  lemma {:induction false} FillTop(s: System, lo: nat, hi: nat) returns (steps: seq<Step>, t: System, b: nat)
    requires Fillable(s, lo, hi) && lo < hi
    ensures Run(s, steps) == Some(t) && SameStream(s, t) && lo <= b < hi && Fillable(t, lo, b)
    ensures t.received == s.received + Interval(b, hi)
  {
    b := Below(s.limits, s.home, lo, hi);
    TopPieceOneWrite(s, lo, hi);
    PieceTaken(s.limits, s.published, s.received, s.pieces, Piece(s, b, hi), |s.data|);
    OnePieceMore(s.received, s.pieces, Piece(s, b, hi), |s.data|);
    steps, t := Bring(s, b, hi);
    assert Frames(s.limits, s.home, lo, hi) == 1 + Frames(s.limits, s.home, lo, b);
    assert b in Interval(b, hi);
  }

  lemma {:induction false} IntervalsJoin(s: set<nat>, lo: nat, b: nat, hi: nat)
    requires lo <= b <= hi
    ensures s + Interval(b, hi) + Interval(lo, b) == s + Interval(lo, hi)
  {
  }

  lemma {:induction false} Fill(s: System, lo: nat, hi: nat) returns (steps: seq<Step>, t: System)
    requires Fillable(s, lo, hi)
    ensures Run(s, steps) == Some(t) && Running(t) && SameStream(s, t)
    ensures t.delivered == [] && t.received == s.received + Interval(lo, hi)
    decreases hi
  {
    if lo == hi {
      steps, t := [], s;
      assert Interval(lo, hi) == {};
    } else {
      var first, u, b := FillTop(s, lo, hi);
      var rest;
      rest, t := Fill(u, lo, b);
      RunAppend(s, first, u, rest);
      steps := first + rest;
      IntervalsJoin(s.received, lo, b, hi);
    }
  }

  /** Joining two islands frees a range slot. */
  lemma {:induction false} JoinIslands(s: System, lo: nat, hi: nat) returns (steps: seq<Step>, t: System)
    requires Running(s) && s.delivered == [] && 0 !in s.received && Joinable(s.limits, s.home, s.received, s.pieces, lo, hi)
    ensures Run(s, steps) == Some(t) && Running(t) && SameStream(s, t) && |Ends(t.received)| < t.limits.maxRanges
  {
    steps, t := Fill(s, lo, hi);
    EndsGrowByOne(s.received, lo, hi);
  }

  /** A frame from the frontier to an island right above it is taken. */
  lemma {:induction false} OpeningTaken(s: System, f: nat)
    requires Running(s) && s.delivered == [] && f in s.received && Opening(s.limits, s.home, f)
    requires forall o | 0 <= o < f :: o !in s.received
    ensures OneWrite(Piece(s, 0, f), s.home) && Takes(s, Piece(s, 0, f))
  {
    assert forall o | 0 <= o < f :: s.home[o] == s.home[f - 1];
    assert Direct(s.received, 0, Piece(s, 0, f));
    EndsGrowByOne(s.received, 0, f);
  }

  /** Extending the first island downwards lets one frame join it to the frontier. */
  lemma {:induction false} ReachFrontier(s: System, f: nat, hi: nat) returns (steps: seq<Step>, t: System)
    requires Running(s) && s.delivered == [] && 0 !in s.received && Approachable(s.limits, s.home, s.received, s.pieces, f, hi)
    ensures Run(s, steps) == Some(t) && Running(t) && SameStream(s, t) && t.delivered != []
  {
    var down, u := Fill(s, f, hi);
    assert f in u.received;
    assert forall o | 0 <= o < f :: o !in u.received;
    OpeningTaken(u, f);
    FrontierMoves(u.received, 0, f, |u.data|);
    var join;
    join, t := Bring(u, 0, f);
    RunAppend(s, down, u, join);
    steps := down + join;
  }

  // ----- recovery is possible exactly when the receiver is not stuck -----

  /** Some continuation delivers everything written so far. */
  ghost predicate Recoverable(s: System) {
    exists steps :: Run(s, steps).Some? && s.data <= Run(s, steps).value.delivered
  }

  lemma {:induction false} FreeOnceOpen(s: System, first: seq<Step>, u: System)
    requires Running(s) && Run(s, first) == Some(u) && Running(u) && SameStream(s, u)
    requires u.delivered != [] || |Ends(u.received)| < u.limits.maxRanges
    ensures Recoverable(s)
  {
    var rest, t := DeliverRest(u);
    RunAppend(s, first, u, rest);
    assert Run(s, first + rest) == Some(t);
  }

  lemma {:induction false} RecoverableIff(s: System)
    requires Running(s)
    ensures Recoverable(s) <==> !Stuck(s)
  {
    if Stuck(s) {
      NothingAtZero(s);
      forall steps | Run(s, steps).Some? ensures !(s.data <= Run(s, steps).value.delivered) {
        StuckForGood(s, steps, Run(s, steps).value);
      }
    } else if s.delivered != [] || |Ends(s.received)| < s.limits.maxRanges {
      FreeOnceOpen(s, [], s);
    } else {
      SlotsTaken(s);
      if f: nat, hi: nat :| Approachable(s.limits, s.home, s.received, s.pieces, f, hi) {
        var first, u := ReachFrontier(s, f, hi);
        FreeOnceOpen(s, first, u);
      } else {
        var lo: nat, hi: nat :| Joinable(s.limits, s.home, s.received, s.pieces, lo, hi);
        var first, u := JoinIslands(s, lo, hi);
        FreeOnceOpen(s, first, u);
      }
    }
  }

  lemma {:induction false} SlotsTaken(s: System)
    requires Running(s) && s.delivered == [] && |Ends(s.received)| >= s.limits.maxRanges
    ensures 0 !in s.received && |Ends(s.received)| == s.limits.maxRanges
  {
    assert Ends({}) == {};
    assert exists o :: o in s.received;
  }

  // ----- limits under which no run gets stuck -----

  /** An island starts here. */
  predicate StartsIsland(received: set<nat>, o: nat) {
    o in received && (o == 0 || o - 1 !in received)
  }

  function Heads(received: set<nat>): set<nat> {
    set o | o in received && StartsIsland(received, o)
  }

  lemma {:induction false} LastByteExtends(rest: set<nat>, last: nat)
    requires last > 0 && last - 1 in rest && forall o | o in rest :: o < last
    ensures |Ends(rest + {last})| <= |Ends(rest)| && Heads(rest + {last}) == Heads(rest)
  {
    assert EndsIsland(rest, last - 1);
    assert Ends(rest + {last}) == Ends(rest) - {last - 1} + {last};
  }

  lemma {:induction false} LastByteStarts(rest: set<nat>, last: nat)
    requires !(last > 0 && last - 1 in rest) && forall o | o in rest :: o < last
    ensures |Ends(rest + {last})| <= |Ends(rest)| + 1 && Heads(rest + {last}) == Heads(rest) + {last}
  {
    EndsGrowByOne(rest, last, last + 1);
    assert Interval(last, last + 1) == {last};
  }

  /** Every island has a first byte as well as a last one. */
  lemma {:induction false} EndsWithinHeads(received: set<nat>, bound: nat)
    requires forall o | o in received :: o < bound
    ensures |Ends(received)| <= |Heads(received)|
  {
    if bound == 0 {
      assert Ends(received) == {};
    } else if bound - 1 in received {
      var rest := received - {bound - 1};
      assert received == rest + {bound - 1};
      EndsWithinHeads(rest, bound - 1);
      if bound - 1 > 0 && bound - 2 in rest {
        LastByteExtends(rest, bound - 1);
      } else {
        LastByteStarts(rest, bound - 1);
        assert bound - 1 !in Heads(rest);
      }
    } else {
      EndsWithinHeads(received, bound - 1);
    }
  }

  /** Beyond the frontier every island starts with a buffered piece. */
  predicate Headed(s: System) {
    forall o | o in Heads(s.received) && o >= |s.delivered| :: o in s.pieces
  }

  lemma {:induction false} ArriveHeaded(s: System, c: Chunk)
    requires Reliable(s) && Headed(s) && c in s.frames && Takes(s, c)
    ensures Headed(Arrived(s, c))
  {
    var t := Arrived(s, c);
    ArriveReliable(s, c);
    forall o | o in Heads(t.received) && o >= |t.delivered| ensures o in t.pieces {
      if o in s.received {
        assert o in Heads(s.received);
      } else {
        assert o > c.offset ==> o - 1 in Span(c);
        assert o in FreshStarts(s.received, c);
      }
    }
  }

  lemma {:induction false} RunHeaded(s: System, steps: seq<Step>, t: System)
    requires Reliable(s) && Headed(s) && Run(s, steps) == Some(t)
    ensures Headed(t)
    decreases |steps|
  {
    if steps != [] {
      var u := Apply(s, steps[0]).value;
      StepReliable(s, steps[0], u);
      if steps[0].Arrive? {
        ArriveHeaded(s, steps[0].chunk);
      }
      RunHeaded(u, steps[1..], t);
    }
  }

  ghost predicate Sticks(l: Limits, credit: nat, steps: seq<Step>)
    requires Usable(l)
  {
    Run(Opened(l, credit), steps).Some? && Running(Run(Opened(l, credit), steps).value) && Stuck(Run(Opened(l, credit), steps).value)
  }

  lemma {:induction false} OpenedRunning(l: Limits, credit: nat)
    requires Usable(l)
    ensures Running(Opened(l, credit)) && Headed(Opened(l, credit))
  {
    assert Ends({}) == {};
  }

  /** More range slots than buffered bytes or pieces are never all taken before something is delivered. */
  lemma {:induction false} SlotsToSpare(l: Limits, credit: nat, steps: seq<Step>)
    requires Usable(l) && Sticks(l, credit, steps)
    ensures l.maxRanges <= l.maxReorderBytes && l.maxRanges <= l.maxReorderChunks
  {
    var t := Run(Opened(l, credit), steps).value;
    OpenedRunning(l, credit);
    RunReliable(Opened(l, credit), steps, t);
    RunHeaded(Opened(l, credit), steps, t);
    SubsetSize(Ends(t.received), t.received);
    EndsWithinHeads(t.received, |t.data|);
    SubsetSize(Heads(t.received), t.pieces);
  }

  // ----- a run that gets stuck under any other limits -----

  /** Far enough apart that no gap fits the reorder buffer. */
  function Stride(l: Limits): nat {
    l.maxPayload + l.maxReorderBytes + 2
  }

  function Site(l: Limits, k: nat): nat {
    if k == 0 then 0 else Site(l, k - 1) + Stride(l)
  }

  lemma {:induction false} WriteBytes(l: Limits, credit: nat, n: nat) returns (steps: seq<Step>, t: System)
    requires Usable(l) && n <= credit
    ensures Run(Opened(l, credit), steps) == Some(t) && Running(t) && t.limits == l
    ensures |t.data| == n && t.received == {} && t.pieces == {} && t.delivered == [] && t.maxOffset == credit
    decreases n
  {
    if n == 0 {
      OpenedRunning(l, credit);
      steps, t := [], Opened(l, credit);
    } else {
      var before, u := WriteBytes(l, credit, n - 1);
      var write := Write([0]);
      t := Apply(u, write).value;
      StepReliable(u, write, t);
      assert [write][1..] == [];
      assert Run(u, [write]) == Some(t);
      RunAppend(Opened(l, credit), before, u, [write]);
      steps := before + [write];
    }
  }

  /** Single bytes received `Stride` apart, up to `last`. */
  predicate Scattered(l: Limits, received: set<nat>, last: nat) {
    && (forall o | o in received :: Stride(l) <= o <= last)
    && (forall o, p | o in received && p in received && o < p :: o + Stride(l) <= p)
  }

  lemma {:induction false} ScatteredByteTaken(l: Limits, published: nat, received: set<nat>, pieces: set<nat>, c: Chunk, bound: nat, k: nat)
    requires Usable(l) && k < l.maxRanges && l.maxRanges <= l.maxReorderBytes && l.maxRanges <= l.maxReorderChunks
    requires |received| == |Ends(received)| == k && |pieces| <= k && |c.payload| == 1 && c.offset > 0 && End(c) <= published
    requires forall o | o in received :: 0 < o && o + 1 < c.offset
    ensures Accepts(l, published, received, pieces, 0, c, bound)
    ensures |received + Span(c)| == |Ends(received + Span(c))| == k + 1
    ensures Frontier(received + Span(c), 0, bound) == 0 && |PiecesAfter(received, pieces, 0, c, bound)| <= k + 1
  {
    OnePieceMore(received, pieces, c, bound);
    EndsOfIsolated(received, c.offset, End(c));
  }

  lemma {:induction false} ScatteredMore(l: Limits, received: set<nat>, last: nat, o: nat)
    requires Scattered(l, received, last) && o == last + Stride(l)
    ensures Scattered(l, received + Interval(o, o + 1), o)
  {
    assert Interval(o, o + 1) == {o};
  }

  lemma {:induction false} Scatter(l: Limits, n: nat, k: nat) returns (steps: seq<Step>, t: System)
    requires Usable(l) && l.maxRanges <= l.maxReorderBytes && l.maxRanges <= l.maxReorderChunks
    requires k <= l.maxRanges && Site(l, k) < n
    ensures Run(Opened(l, n), steps) == Some(t) && Running(t) && t.limits == l && |t.data| == n && t.delivered == []
    ensures Scattered(l, t.received, Site(l, k)) && |t.received| == |Ends(t.received)| == k && |t.pieces| <= k
  {
    if k == 0 {
      steps, t := WriteBytes(l, n, n);
      assert Ends({}) == {};
    } else {
      var before, u := Scatter(l, n, k - 1);
      var o := Site(l, k);
      ScatteredByteTaken(l, u.published, u.received, u.pieces, Piece(u, o, o + 1), n, k - 1);
      ScatteredMore(l, u.received, Site(l, k - 1), o);
      var more;
      more, t := Bring(u, o, o + 1);
      RunAppend(Opened(l, n), before, u, more);
      steps := before + more;
    }
  }

  lemma {:induction false} ScatteredIsJammed(l: Limits, home: seq<nat>, received: set<nat>, pieces: set<nat>, last: nat)
    requires Sound(l, home) && Scattered(l, received, last) && |Ends(received)| == l.maxRanges
    ensures Jammed(l, home, received, pieces)
  {
  }

  /** A run can get stuck if and only if the range slots can all be taken by buffered bytes and pieces. */
  lemma {:induction false} GetsStuckIff(l: Limits)
    requires Usable(l)
    ensures (exists credit: nat, steps :: Sticks(l, credit, steps)) <==> l.maxRanges <= l.maxReorderBytes && l.maxRanges <= l.maxReorderChunks
  {
    if credit: nat, steps :| Sticks(l, credit, steps) {
      SlotsToSpare(l, credit, steps);
    }
    if l.maxRanges <= l.maxReorderBytes && l.maxRanges <= l.maxReorderChunks {
      var n := Site(l, l.maxRanges) + 1;
      var steps, t := Scatter(l, n, l.maxRanges);
      ScatteredIsJammed(l, t.home, t.received, t.pieces, Site(l, l.maxRanges));
      assert Sticks(l, n, steps);
    }
  }

  /** With every limit at 1, a byte that arrives at offset 5 before all others blocks the stream for good. */
  lemma {:induction false} OneByteBlocks() returns (steps: seq<Step>, t: System)
    ensures Run(Opened(Limits(1, 1, 1, 1), 6), steps) == Some(t) && |t.data| == 6 && t.received == {5}
    ensures !Recoverable(t)
  {
    var l := Limits(1, 1, 1, 1);
    var before, u := WriteBytes(l, 6, 6);
    assert Ends({}) == {};
    ScatteredByteTaken(l, u.published, u.received, u.pieces, Piece(u, 5, 6), 6, 0);
    var more;
    more, t := Bring(u, 5, 6);
    RunAppend(Opened(l, 6), before, u, more);
    steps := before + more;
    assert Interval(5, 6) == {5};
    ScatteredIsJammed(l, t.home, t.received, t.pieces, 5);
    RecoverableIff(t);
  }
}
