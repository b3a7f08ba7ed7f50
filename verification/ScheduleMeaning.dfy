/** What a rendered row says about the draws behind it, in terms of the numbers its tokens stand for. */
module ScheduleMeaning {
  import opened Outcomes
  import opened Tokens
  import opened Schedule
  import opened ScheduleDocument
  import NetemSeed

  // ----- numbers -----

  /** A number within bounds that agrees with the draw of an address, modulo the size of the range. */
  predicate DrawnWithin(draw: Draw, b: Bounds, a: Address, v: nat) {
    b.low <= v <= b.high && (v - b.low - draw(a)) % (b.high - b.low + 1) == 0
  }

  lemma {:induction false} DrawBetweenMeans(draw: Draw, b: Bounds, a: Address)
    requires b.low <= b.high
    ensures DrawnWithin(draw, b, a, DrawBetween(draw, b, a))
  {
    RemainderAgrees(draw(a), b.high - b.low + 1);
  }

  lemma {:induction false} RemainderAgrees(d: nat, m: nat)
    requires m > 0
    ensures (d % m - d) % m == 0
  {
    var q := -(d / m);
    assert d % m - d == m * q + 0;
    NetemSeed.Quotient(m, q, 0);
  }

  /**
   Every number of a row comes from the draw of its own field, within the bounds of the
   stratum; jitter is also bounded by the delay, a correlation is drawn only where what it
   correlates is there, and an outage loses everything.
   */
  predicate DrawnRow(draw: Draw, epoch: nat, direction: Direction, path: nat, s: Stratum, n: Numbers, outage: bool) {
    && DrawnWithin(draw, s.rate, Traffic(epoch, direction, path, Rate), n.rate)
    && DrawnWithin(draw, s.delay, Traffic(epoch, direction, path, Delay), n.delay)
    && DrawnWithin(draw, Bounds(s.jitter.low, if s.jitter.high < n.delay then s.jitter.high else n.delay), Traffic(epoch, direction, path, Jitter), n.jitter)
    && (if n.jitter == 0 then n.delayCorrelation == 0
        else DrawnWithin(draw, s.delayCorrelation, Traffic(epoch, direction, path, DelayCorrelation), n.delayCorrelation))
    && (if outage then n.loss == 1_000_000 && n.lossCorrelation == 0
        else
          && DrawnWithin(draw, s.loss, Traffic(epoch, direction, path, Loss), n.loss)
          && if n.loss == 0 then n.lossCorrelation == 0
             else DrawnWithin(draw, s.lossCorrelation, Traffic(epoch, direction, path, LossCorrelation), n.lossCorrelation))
    && DrawnWithin(draw, s.reorder, Traffic(epoch, direction, path, Reorder), n.reorder)
    && (if n.reorder == 0 then n.reorderCorrelation == 0
        else DrawnWithin(draw, s.reorderCorrelation, Traffic(epoch, direction, path, ReorderCorrelation), n.reorderCorrelation))
    && DrawnWithin(draw, s.duplicate, Traffic(epoch, direction, path, Duplicate), n.duplicate)
    && DrawnWithin(draw, s.corrupt, Traffic(epoch, direction, path, Corrupt), n.corrupt)
  }

  lemma {:induction false} NumbersDrawn(draw: Draw, epoch: nat, direction: Direction, path: nat, rank: nat, outage: bool)
    requires path < PATHS && rank < PATHS
    ensures DrawnRow(draw, epoch, direction, path, StratumAt(rank), DrawNumbers(draw, epoch, direction, path, rank, outage), outage)
  {
    var s, n := StratumAt(rank), DrawNumbers(draw, epoch, direction, path, rank, outage);
    DrawBetweenMeans(draw, s.rate, Traffic(epoch, direction, path, Rate));
    DrawBetweenMeans(draw, s.delay, Traffic(epoch, direction, path, Delay));
    DrawBetweenMeans(draw, Bounds(s.jitter.low, Min(s.jitter.high, n.delay)), Traffic(epoch, direction, path, Jitter));
    DrawBetweenMeans(draw, s.delayCorrelation, Traffic(epoch, direction, path, DelayCorrelation));
    DrawBetweenMeans(draw, s.loss, Traffic(epoch, direction, path, Loss));
    DrawBetweenMeans(draw, s.lossCorrelation, Traffic(epoch, direction, path, LossCorrelation));
    DrawBetweenMeans(draw, s.reorder, Traffic(epoch, direction, path, Reorder));
    DrawBetweenMeans(draw, s.reorderCorrelation, Traffic(epoch, direction, path, ReorderCorrelation));
    DrawBetweenMeans(draw, s.duplicate, Traffic(epoch, direction, path, Duplicate));
    DrawBetweenMeans(draw, s.corrupt, Traffic(epoch, direction, path, Corrupt));
  }

  // ----- strata and outages -----

  /** Strata are dealt in the order of the ranking draws, ties going to the earlier path. */
  lemma {:induction false} StrataFollowDraws(draw: Draw, epoch: nat, direction: Direction, p: nat, q: nat)
    requires p < PATHS && q < PATHS && p != q
    ensures StratumRank(draw, epoch, direction, p) < StratumRank(draw, epoch, direction, q) <==>
      var a, b := draw(StratumRanking(epoch, direction, p)), draw(StratumRanking(epoch, direction, q)); a < b || (a == b && p < q)
  {
    RankedPathsPermutes(draw, epoch, direction, PATHS);
    var r := RankedPaths(draw, epoch, direction, PATHS);
    assert p in r && q in r;
    var i, j := PositionIn(r, p), PositionIn(r, q);
    assert i < j ==> RankedBefore(draw, epoch, direction, r[i], r[j]);
    assert j < i ==> RankedBefore(draw, epoch, direction, r[j], r[i]);
  }

  /** No other row of the epoch comes before this one in the outage ranking: draw, then direction, then path. */
  ghost predicate LeastOutageDraw(draw: Draw, epoch: nat, direction: Direction, path: nat) {
    forall d: Direction, p: nat | p < PATHS ::
      var a, b := draw(OutageRanking(epoch, direction, path)), draw(OutageRanking(epoch, d, p));
      a < b || (a == b && (if direction == d then path <= p else direction == Client))
  }

  lemma {:induction false} KeyOfSlot(draw: Draw, epoch: nat, direction: Direction, path: nat)
    requires path < PATHS
    ensures OutageKey(draw, epoch, SlotOf(direction, path)) == draw(OutageRanking(epoch, direction, path))
  {
    assert (PATHS + path) % PATHS == path;
  }

  /** The outage of an epoch is the row with the least outage draw. */
  lemma {:induction false} OutageFollowsDraws(draw: Draw, epoch: nat, direction: Direction, path: nat)
    requires path < PATHS
    ensures IsOutage(draw, epoch, direction, path, true) <==> LeastOutageDraw(draw, epoch, direction, path)
  {
    var slot, best := SlotOf(direction, path), OutageSlot(draw, epoch, 2 * PATHS);
    KeyOfSlot(draw, epoch, direction, path);
    if slot == best {
      forall d: Direction, p: nat | p < PATHS
        ensures var a, b := draw(OutageRanking(epoch, direction, path)), draw(OutageRanking(epoch, d, p));
          a < b || (a == b && (if direction == d then path <= p else direction == Client))
      {
        KeyOfSlot(draw, epoch, d, p);
        assert SlotOf(d, p) < 2 * PATHS;
      }
    } else {
      var d, p := SlotDirection(best), best % PATHS;
      assert SlotOf(d, p) == best;
      KeyOfSlot(draw, epoch, d, p);
      assert slot < 2 * PATHS;
    }
  }

  // ----- the packet seed -----

  /** The lower sixteen bits of a number are those in which two others differ. */
  ghost predicate Differences(r: nat, a: nat, b: nat) {
    forall k: nat | k < 16 :: NetemSeed.BitAt(r, k) == if NetemSeed.BitAt(a, k) != NetemSeed.BitAt(b, k) then 1 else 0
  }

  /** Six rounds from a word: the halves change places, and the draw of the round is mixed into the old left one. */
  ghost predicate FeistelTrace(draw: Draw, value: NetemSeed.Word, trace: seq<NetemSeed.Halves>) {
    && |trace| == 7 && trace[0].left == value / 0x1_0000 && trace[0].right == value % 0x1_0000
    && forall i | 0 <= i < 6 ::
         && trace[i + 1].left == trace[i].right
         && Differences(trace[i + 1].right, trace[i].left, draw(FeistelRound(i, trace[i].right)))
  }

  lemma {:induction false} RoundMixes(draw: Draw, index: nat, h: NetemSeed.Halves)
    ensures var r := NetemSeed.Round(Feistel(draw), index, h);
      r.left == h.right && Differences(r.right, h.left, draw(FeistelRound(index, h.right)))
  {
    var d := draw(FeistelRound(index, h.right));
    NetemSeed.HalfBits();
    forall k: nat | k < 16
      ensures NetemSeed.BitAt(NetemSeed.XorBits(16, h.left, d % 0x1_0000), k)
        == if NetemSeed.BitAt(h.left, k) != NetemSeed.BitAt(d, k) then 1 else 0
    {
      NetemSeed.XorBitsAt(16, h.left, d % 0x1_0000, k);
      NetemSeed.LowBitsKept(d, 16, k);
    }
  }

  lemma {:induction false} PermutedTraces(draw: Draw, value: NetemSeed.Word) returns (trace: seq<NetemSeed.Halves>)
    ensures FeistelTrace(draw, value, trace) && NetemSeed.Permuted(Feistel(draw), value) == trace[6].left * 0x1_0000 + trace[6].right
  {
    var h, f := NetemSeed.Split(value), Feistel(draw);
    trace := seq(7, i requires 0 <= i < 7 => NetemSeed.Rounds(f, i, h));
    forall i | 0 <= i < 6
      ensures trace[i + 1].left == trace[i].right
      ensures Differences(trace[i + 1].right, trace[i].left, draw(FeistelRound(i, trace[i].right)))
    {
      RoundMixes(draw, i, trace[i]);
      assert trace[i + 1] == NetemSeed.Round(f, i, trace[i]);
    }
    assert NetemSeed.Rounds(f, 0, h) == h;
  }

  /** Six such rounds lead from one word to another. */
  ghost predicate FeistelStep(draw: Draw, value: NetemSeed.Word, word: nat) {
    exists trace: seq<NetemSeed.Halves> :: FeistelTrace(draw, value, trace) && word == trace[6].left * 0x1_0000 + trace[6].right
  }

  /** A seed is the first non-zero word in the walk that starts behind the row's ordinal. */
  ghost predicate SeedWalk(draw: Draw, start: NetemSeed.Word, seed: nat) {
    seed != 0 && (FeistelStep(draw, start, seed) || (FeistelStep(draw, start, 0) && FeistelStep(draw, 0, seed)))
  }

  lemma {:induction false} PermutedSteps(draw: Draw, value: NetemSeed.Word)
    ensures FeistelStep(draw, value, NetemSeed.Permuted(Feistel(draw), value))
  {
    var trace := PermutedTraces(draw, value);
  }

  lemma {:induction false} WalkedIsWalk(draw: Draw, start: NetemSeed.Word)
    requires start != 0
    ensures SeedWalk(draw, start, NetemSeed.Walked(Feistel(draw), start))
  {
    NetemSeed.WalkedNonZero(Feistel(draw), start);
    PermutedSteps(draw, start);
    PermutedSteps(draw, 0);
  }

  lemma {:induction false} SeedWalks(draw: Draw, epoch: Epoch, direction: Direction, path: Path)
    ensures SeedWalk(draw, 10 * epoch + (if direction == Client then 0 else 5) + path + 1, NetemSeed.SeedOf(Feistel(draw), CoordinateOf(epoch, direction, path)))
  {
    var start := 10 * epoch + (if direction == Client then 0 else 5) + path + 1;
    assert NetemSeed.Ordinal(CoordinateOf(epoch, direction, path)) + 1 == start;
    WalkedIsWalk(draw, start);
  }

  // ----- the whole row -----

  predicate Placed(row: Row, epoch: nat, direction: Direction, path: nat) {
    row.epoch == epoch && row.direction == direction && row.pathIndex == path + 1 && path < PATHS && row.subnetPrefix == INVENTORY[path]
  }

  predicate Numbered(draw: Draw, row: Row, epoch: nat, direction: Direction, path: nat) {
    && path < PATHS && StratumNamed(row.stratum) == Some(StratumAt(StratumRank(draw, epoch, direction, path)))
    && ParseNumbers(row).Some?
    && DrawnRow(draw, epoch, direction, path, StratumNamed(row.stratum).value, ParseNumbers(row).value, row.outage)
  }

  lemma {:induction false} PrintedPlaced(epoch: nat, direction: Direction, path: nat, rank: nat, n: Numbers, seed: nat, outage: bool)
    requires path < PATHS && rank < PATHS && LegalNumbers(StratumAt(rank), n, outage)
    ensures Placed(Printed(epoch, direction, path, rank, n, seed, outage), epoch, direction, path)
  {
  }

  lemma {:induction false} PrintedNumbered(draw: Draw, epoch: nat, direction: Direction, path: nat, n: Numbers, seed: nat, outage: bool)
    requires path < PATHS && LegalNumbers(StratumAt(StratumRank(draw, epoch, direction, path)), n, outage)
    requires DrawnRow(draw, epoch, direction, path, StratumAt(StratumRank(draw, epoch, direction, path)), n, outage)
    ensures Numbered(draw, Printed(epoch, direction, path, StratumRank(draw, epoch, direction, path), n, seed, outage), epoch, direction, path)
  {
    var rank := StratumRank(draw, epoch, direction, path);
    StrataNamesDistinct(rank);
    PrintedParses(epoch, direction, path, rank, n, seed, outage);
  }

  /** Everything a rendered row says: where it belongs, its stratum, its numbers, its seed and its outage. */
  lemma {:induction false} RenderedRowMeans(draw: Draw, includeOutages: bool, epoch: Epoch, direction: Direction, path: Path)
    ensures var row := RowAt(draw, includeOutages, epoch, direction, path);
      && Placed(row, epoch, direction, path) && Numbered(draw, row, epoch, direction, path)
      && SeedWalk(draw, 10 * epoch + (if direction == Client then 0 else 5) + path + 1, row.netemSeed)
      && (row.outage <==> includeOutages && LeastOutageDraw(draw, epoch, direction, path))
  {
    var rank := StratumRank(draw, epoch, direction, path);
    var outage := IsOutage(draw, epoch, direction, path, includeOutages);
    var n := DrawNumbers(draw, epoch, direction, path, rank, outage);
    var seed := NetemSeed.SeedOf(Feistel(draw), CoordinateOf(epoch, direction, path));
    NumbersDrawn(draw, epoch, direction, path, rank, outage);
    PrintedPlaced(epoch, direction, path, rank, n, seed, outage);
    PrintedNumbered(draw, epoch, direction, path, n, seed, outage);
    SeedWalks(draw, epoch, direction, path);
    OutageFollowsDraws(draw, epoch, direction, path);
  }
}
