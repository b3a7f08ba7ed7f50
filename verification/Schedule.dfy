/**
 Seeded Internet-condition schedules (`lab/internet_condition_schedule.py`): five
 strata dealt to five paths per epoch and direction, optional outages, rows of
 `tc` tokens, and the validator that re-parses every token.

 A SHA-256 draw is addressed by its coordinates, so `draw` is a function of an
 address; the results hold for every such function.
 */
module Schedule {
  import opened Outcomes
  import opened Tokens
  import NetemSeed

  const PATHS: nat := 5

  type Epoch = e: nat | e < NetemSeed.MAX_EPOCHS
  type Path = p: nat | p < PATHS

  datatype Direction = Client | Server

  datatype Field =
    | Rate | Delay | Jitter | DelayCorrelation | Loss | LossCorrelation
    | Reorder | ReorderCorrelation | Duplicate | Corrupt

  datatype Address =
    | StratumRanking(epoch: nat, direction: Direction, path: nat)
    | OutageRanking(epoch: nat, direction: Direction, path: nat)
    | Traffic(epoch: nat, direction: Direction, path: nat, field: Field)
    | FeistelRound(round: nat, right: nat)

  type Draw = Address -> nat

  datatype Bounds = Bounds(low: nat, high: nat)

  /** One access technology with its ranges: kbit/s, milliseconds and parts per million. */
  datatype Stratum = Stratum(
    name: string, rate: Bounds, delay: Bounds, jitter: Bounds, delayCorrelation: Bounds,
    loss: Bounds, lossCorrelation: Bounds, reorder: Bounds, reorderCorrelation: Bounds,
    duplicate: Bounds, corrupt: Bounds)

  const FIBER := Stratum("fiber", Bounds(80_000, 1_000_000), Bounds(2, 25), Bounds(0, 4),
    Bounds(0, 150_000), Bounds(0, 500), Bounds(0, 200_000), Bounds(0, 100), Bounds(0, 150_000),
    Bounds(0, 50), Bounds(0, 10))
  const FIXED_WIRELESS := Stratum("fixed-wireless", Bounds(10_000, 300_000), Bounds(8, 60), Bounds(1, 20),
    Bounds(50_000, 350_000), Bounds(100, 8_000), Bounds(50_000, 450_000), Bounds(10, 3_000), Bounds(20_000, 400_000),
    Bounds(5, 1_000), Bounds(1, 100))
  const MOBILE := Stratum("mobile", Bounds(1_500, 150_000), Bounds(20, 150), Bounds(4, 60),
    Bounds(200_000, 750_000), Bounds(500, 30_000), Bounds(250_000, 800_000), Bounds(50, 20_000), Bounds(150_000, 750_000),
    Bounds(10, 5_000), Bounds(1, 500))
  const CONGESTED := Stratum("congested", Bounds(256, 25_000), Bounds(70, 450), Bounds(15, 200),
    Bounds(400_000, 900_000), Bounds(5_000, 100_000), Bounds(450_000, 950_000), Bounds(1_000, 50_000), Bounds(350_000, 900_000),
    Bounds(200, 20_000), Bounds(50, 2_000))
  const SATELLITE := Stratum("satellite", Bounds(2_000, 100_000), Bounds(250, 700), Bounds(5, 100),
    Bounds(100_000, 600_000), Bounds(500, 50_000), Bounds(150_000, 700_000), Bounds(10, 10_000), Bounds(100_000, 600_000),
    Bounds(10, 5_000), Bounds(1, 500))

  function StratumAt(rank: nat): Stratum
    requires rank < PATHS
  {
    if rank == 0 then FIBER else if rank == 1 then FIXED_WIRELESS else if rank == 2 then MOBILE
    else if rank == 3 then CONGESTED else SATELLITE
  }

  function StratumNamed(name: string): Option<Stratum> {
    if name == FIBER.name then Some(FIBER)
    else if name == FIXED_WIRELESS.name then Some(FIXED_WIRELESS)
    else if name == MOBILE.name then Some(MOBILE)
    else if name == CONGESTED.name then Some(CONGESTED)
    else if name == SATELLITE.name then Some(SATELLITE)
    else None
  }

  lemma {:induction false} StrataNamesDistinct(rank: nat)
    requires rank < PATHS
    ensures StratumNamed(StratumAt(rank).name) == Some(StratumAt(rank))
  {
    assert FIBER.name[0] != FIXED_WIRELESS.name[0] || FIBER.name[1] != FIXED_WIRELESS.name[1] || |FIBER.name| != |FIXED_WIRELESS.name|;
  }

  function PrefixOf(path: nat): string
    requires path < PATHS
  {
    if path == 0 then "172.31.10" else if path == 1 then "172.31.15" else if path == 2 then "172.31.16"
    else if path == 3 then "172.31.20" else "172.31.30"
  }

  // ----- the seeded permutation of strata over paths -----

  predicate RankedBefore(draw: Draw, epoch: nat, direction: Direction, i: nat, j: nat) {
    var di, dj := draw(StratumRanking(epoch, direction, i)), draw(StratumRanking(epoch, direction, j));
    di < dj || (di == dj && i < j)
  }

  function InsertRanked(draw: Draw, epoch: nat, direction: Direction, i: nat, ranked: seq<nat>): seq<nat> {
    if ranked == [] then [i]
    else if RankedBefore(draw, epoch, direction, i, ranked[0]) then [i] + ranked
    else [ranked[0]] + InsertRanked(draw, epoch, direction, i, ranked[1..])
  }

  /** The first `n` path offsets sorted by (draw, offset). */
  function RankedPaths(draw: Draw, epoch: nat, direction: Direction, n: nat): seq<nat> {
    if n == 0 then [] else InsertRanked(draw, epoch, direction, n - 1, RankedPaths(draw, epoch, direction, n - 1))
  }

  predicate Distinct<T(==)>(s: seq<T>) {
    forall i, j :: 0 <= i < j < |s| ==> s[i] != s[j]
  }

  predicate SortedByRank(draw: Draw, epoch: nat, direction: Direction, s: seq<nat>) {
    forall i, j :: 0 <= i < j < |s| ==> RankedBefore(draw, epoch, direction, s[i], s[j])
  }

  lemma {:induction false} InsertRankedPreserves(draw: Draw, epoch: nat, direction: Direction, i: nat, ranked: seq<nat>)
    requires SortedByRank(draw, epoch, direction, ranked) && i !in ranked
    ensures var r := InsertRanked(draw, epoch, direction, i, ranked);
      SortedByRank(draw, epoch, direction, r) && |r| == |ranked| + 1 &&
      forall x :: x in r <==> x == i || x in ranked
  {
    if ranked != [] && !RankedBefore(draw, epoch, direction, i, ranked[0]) {
      InsertRankedPreserves(draw, epoch, direction, i, ranked[1..]);
      var tail := InsertRanked(draw, epoch, direction, i, ranked[1..]);
      assert ranked == [ranked[0]] + ranked[1..];
      forall j | 0 <= j < |tail| ensures RankedBefore(draw, epoch, direction, ranked[0], tail[j]) {
        assert tail[j] in tail;
        if tail[j] != i {
          var k :| 1 <= k < |ranked| && ranked[k] == tail[j];
        }
      }
    } else {
      assert ranked != [] ==> ranked == [ranked[0]] + ranked[1..];
    }
  }

  /** The ranking lists every path offset exactly once, in strict key order. */
  lemma {:induction false} RankedPathsPermutes(draw: Draw, epoch: nat, direction: Direction, n: nat)
    ensures var r := RankedPaths(draw, epoch, direction, n);
      |r| == n && SortedByRank(draw, epoch, direction, r) && forall x: nat :: x in r <==> x < n
  {
    if n > 0 {
      RankedPathsPermutes(draw, epoch, direction, n - 1);
      InsertRankedPreserves(draw, epoch, direction, n - 1, RankedPaths(draw, epoch, direction, n - 1));
    }
  }

  function PositionIn(s: seq<nat>, x: nat): (i: nat)
    requires x in s
    ensures i < |s| && s[i] == x
  {
    if s[0] == x then 0 else 1 + PositionIn(s[1..], x)
  }

  /** `_stratum_by_path`: the rank a path received in its epoch and direction. */
  function StratumRank(draw: Draw, epoch: nat, direction: Direction, path: nat): (rank: nat)
    requires path < PATHS
    ensures rank < PATHS
  {
    RankedPathsPermutes(draw, epoch, direction, PATHS);
    PositionIn(RankedPaths(draw, epoch, direction, PATHS), path)
  }

  /** In every epoch and direction each stratum is dealt to exactly one path. */
  lemma {:induction false} StrataFormPermutation(draw: Draw, epoch: nat, direction: Direction, rank: nat)
    requires rank < PATHS
    ensures exists path: nat :: path < PATHS && StratumRank(draw, epoch, direction, path) == rank
    ensures forall p: nat, q: nat | p < PATHS && q < PATHS ::
      StratumRank(draw, epoch, direction, p) == StratumRank(draw, epoch, direction, q) ==> p == q
  {
    RankedPathsPermutes(draw, epoch, direction, PATHS);
    var r := RankedPaths(draw, epoch, direction, PATHS);
    var path := r[rank];
    assert path in r;
    var i := PositionIn(r, path);
    assert !RankedBefore(draw, epoch, direction, path, path);
    assert StratumRank(draw, epoch, direction, path) == rank;
  }

  // ----- the outage coordinate -----

  function SlotDirection(slot: nat): Direction {
    if slot < PATHS then Client else Server
  }

  function SlotOf(direction: Direction, path: nat): nat {
    if direction == Client then path else PATHS + path
  }

  function OutageKey(draw: Draw, epoch: nat, slot: nat): nat {
    draw(OutageRanking(epoch, SlotDirection(slot), slot % PATHS))
  }

  /** The first slot with the least key among the first `n` direction-path slots. */
  function OutageSlot(draw: Draw, epoch: nat, n: nat): (slot: nat)
    requires n > 0
    ensures slot < n
    ensures forall j :: 0 <= j < n ==>
      OutageKey(draw, epoch, slot) < OutageKey(draw, epoch, j) ||
      (OutageKey(draw, epoch, slot) == OutageKey(draw, epoch, j) && slot <= j)
  {
    if n == 1 then 0
    else
      var best := OutageSlot(draw, epoch, n - 1);
      if OutageKey(draw, epoch, n - 1) < OutageKey(draw, epoch, best) then n - 1 else best
  }

  predicate IsOutage(draw: Draw, epoch: nat, direction: Direction, path: nat, includeOutages: bool) {
    includeOutages && OutageSlot(draw, epoch, 2 * PATHS) == SlotOf(direction, path)
  }

  // ----- rendering one row -----

  datatype Row = Row(
    epoch: nat, direction: Direction, pathIndex: nat, subnetPrefix: string, stratum: string,
    rate: string, delay: string, jitter: string, delayCorrelation: string,
    loss: string, lossCorrelation: string, reorder: string, reorderCorrelation: string,
    duplicate: string, corrupt: string, netemSeed: nat, outage: bool)

  function DrawBetween(draw: Draw, bounds: Bounds, a: Address): (v: nat)
    requires bounds.low <= bounds.high
    ensures bounds.low <= v <= bounds.high
  {
    bounds.low + draw(a) % (bounds.high - bounds.low + 1)
  }

  function Min(a: nat, b: nat): nat {
    if a < b then a else b
  }

  /** The drawn numbers behind a row, before they are printed. */
  datatype Numbers = Numbers(
    rate: nat, delay: nat, jitter: nat, delayCorrelation: nat, loss: nat, lossCorrelation: nat,
    reorder: nat, reorderCorrelation: nat, duplicate: nat, corrupt: nat)

  ghost predicate WithinStratum(s: Stratum, n: Numbers, outage: bool) {
    && s.rate.low <= n.rate <= s.rate.high
    && s.delay.low <= n.delay <= s.delay.high
    && s.jitter.low <= n.jitter <= s.jitter.high
    && s.delayCorrelation.low <= n.delayCorrelation <= s.delayCorrelation.high
    && (!outage ==> s.loss.low <= n.loss <= s.loss.high)
    && (!outage ==> s.lossCorrelation.low <= n.lossCorrelation <= s.lossCorrelation.high)
    && s.reorder.low <= n.reorder <= s.reorder.high
    && s.reorderCorrelation.low <= n.reorderCorrelation <= s.reorderCorrelation.high
    && s.duplicate.low <= n.duplicate <= s.duplicate.high
    && s.corrupt.low <= n.corrupt <= s.corrupt.high
  }

  /** What makes a row legal for `tc netem` and true to its stratum. */
  ghost predicate LegalNumbers(s: Stratum, n: Numbers, outage: bool) {
    && WithinStratum(s, n, outage)
    && n.jitter <= n.delay
    && (n.jitter == 0 ==> n.delayCorrelation == 0)
    && (n.loss == 0 ==> n.lossCorrelation == 0)
    && (n.reorder == 0 ==> n.reorderCorrelation == 0)
    && (n.reorder > 0 ==> n.delay > 0)
    && (outage <==> n.loss == PPM_MAX)
    && (outage ==> n.lossCorrelation == 0)
    && n.rate > 0
    && n.delayCorrelation <= PPM_MAX && n.loss <= PPM_MAX && n.lossCorrelation <= PPM_MAX
    && n.reorder <= PPM_MAX && n.reorderCorrelation <= PPM_MAX
    && n.duplicate <= PPM_MAX && n.corrupt <= PPM_MAX
  }

  function DrawNumbers(draw: Draw, epoch: nat, direction: Direction, path: nat, rank: nat, outage: bool): (n: Numbers)
    requires path < PATHS && rank < PATHS
    ensures LegalNumbers(StratumAt(rank), n, outage)
  {
    var s := StratumAt(rank);
    var at := (f: Field) => Traffic(epoch, direction, path, f);
    var delay := DrawBetween(draw, s.delay, at(Delay));
    var jitter := DrawBetween(draw, Bounds(s.jitter.low, Min(s.jitter.high, delay)), at(Jitter));
    var loss := DrawBetween(draw, s.loss, at(Loss));
    var reorder := DrawBetween(draw, s.reorder, at(Reorder));
    Numbers(
      DrawBetween(draw, s.rate, at(Rate)), delay, jitter,
      if jitter != 0 then DrawBetween(draw, s.delayCorrelation, at(DelayCorrelation)) else 0,
      if outage then PPM_MAX else loss,
      if outage then 0 else if loss != 0 then DrawBetween(draw, s.lossCorrelation, at(LossCorrelation)) else 0,
      reorder,
      if reorder != 0 then DrawBetween(draw, s.reorderCorrelation, at(ReorderCorrelation)) else 0,
      DrawBetween(draw, s.duplicate, at(Duplicate)),
      DrawBetween(draw, s.corrupt, at(Corrupt)))
  }

  function Feistel(draw: Draw): NetemSeed.RoundFunction {
    (round: nat, right: NetemSeed.Half) => draw(FeistelRound(round, right)) % 0x1_0000
  }

  function CoordinateOf(epoch: nat, direction: Direction, path: nat): NetemSeed.Coordinate {
    NetemSeed.Coordinate(epoch, if direction == Client then 0 else 1, path)
  }

  /** The row printed from its numbers: every token in its canonical spelling. */
  function Printed(epoch: nat, direction: Direction, path: nat, rank: nat, n: Numbers, seed: nat, outage: bool): Row
    requires path < PATHS && rank < PATHS && LegalNumbers(StratumAt(rank), n, outage)
  {
    Row(epoch, direction, path + 1, PrefixOf(path), StratumAt(rank).name,
        RateToken(n.rate), TimeToken(n.delay), TimeToken(n.jitter), PercentToken(n.delayCorrelation),
        PercentToken(n.loss), PercentToken(n.lossCorrelation), PercentToken(n.reorder), PercentToken(n.reorderCorrelation),
        PercentToken(n.duplicate), PercentToken(n.corrupt), seed, outage)
  }

  /** The row of one schedule coordinate. */
  ghost function RowAt(draw: Draw, includeOutages: bool, epoch: Epoch, direction: Direction, path: Path): Row {
    var rank := StratumRank(draw, epoch, direction, path);
    var outage := IsOutage(draw, epoch, direction, path, includeOutages);
    var n := DrawNumbers(draw, epoch, direction, path, rank, outage);
    Printed(epoch, direction, path, rank, n, NetemSeed.SeedOf(Feistel(draw), CoordinateOf(epoch, direction, path)), outage)
  }

  method RenderRow(draw: Draw, includeOutages: bool, epoch: Epoch, direction: Direction, path: Path) returns (row: Row)
    ensures row == RowAt(draw, includeOutages, epoch, direction, path)
  {
    var rank := StratumRank(draw, epoch, direction, path);
    var outage := IsOutage(draw, epoch, direction, path, includeOutages);
    var n := DrawNumbers(draw, epoch, direction, path, rank, outage);
    var seed, _ := NetemSeed.NetemSeedFor(Feistel(draw), CoordinateOf(epoch, direction, path));
    row := Printed(epoch, direction, path, rank, n, seed, outage);
  }

  /** The first rows of a line are its cells, in path order. */
  ghost predicate Filled(cell: Path -> Row, rows: seq<Row>, n: nat) {
    |rows| == n <= PATHS && forall p: Path | p < n :: rows[p] == cell(p)
  }

  lemma {:induction false} FilledOn(cell: Path -> Row, rows: seq<Row>, path: Path, row: Row)
    requires Filled(cell, rows, path) && row == cell(path)
    ensures Filled(cell, rows + [row], path + 1)
  {
  }

  ghost function CellsOf(draw: Draw, includeOutages: bool, epoch: Epoch, direction: Direction): Path -> Row {
    (p: Path) => RowAt(draw, includeOutages, epoch, direction, p)
  }

  /** `render_rows`: the five rows of one epoch and direction, in path order. */
  method RenderRows(draw: Draw, includeOutages: bool, epoch: Epoch, direction: Direction) returns (rows: seq<Row>)
    ensures |rows| == PATHS
    ensures forall p: Path :: rows[p] == RowAt(draw, includeOutages, epoch, direction, p)
  {
    rows := [];
    var path := 0;
    ghost var cell := CellsOf(draw, includeOutages, epoch, direction);
    while path < PATHS
      invariant 0 <= path <= PATHS && Filled(cell, rows, path)
    {
      var row := RenderRow(draw, includeOutages, epoch, direction, path);
      FilledOn(cell, rows, path, row);
      rows := rows + [row];
      path := path + 1;
    }
    forall p: Path ensures rows[p] == RowAt(draw, includeOutages, epoch, direction, p) {
      assert rows[p] == cell(p);
    }
  }
}
