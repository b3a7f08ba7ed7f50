/**
 Rows laid out as epoch-major, client before server, path-ordered: facts that hold of
 any such grid, whatever fills its cells.
 */
module RowGrid {
  import opened Schedule
  import NetemSeed

  type Cells = (Epoch, Direction, Path) -> Row

  ghost function Line(cells: Cells, epoch: Epoch, direction: Direction): (rows: seq<Row>)
    ensures |rows| == PATHS
    ensures forall p: Path :: rows[p] == cells(epoch, direction, p)
  {
    seq(PATHS, i requires 0 <= i < PATHS => cells(epoch, direction, i))
  }

  ghost function Grid(cells: Cells, epochs: nat): (rows: seq<Row>)
    requires epochs <= NetemSeed.MAX_EPOCHS
    ensures |rows| == 2 * PATHS * epochs
  {
    if epochs == 0 then []
    else Grid(cells, epochs - 1) + Line(cells, epochs - 1, Client) + Line(cells, epochs - 1, Server)
  }

  /** Which epoch and which of its ten slots an index falls in. */
  lemma {:induction false} SlotArithmetic(epochs: nat, slot: nat)
    requires slot < 2 * PATHS
    ensures var i := 2 * PATHS * epochs + slot;
      i / (2 * PATHS) == epochs && i % (2 * PATHS) == slot && i % PATHS == slot % PATHS
  {
    assert 2 * PATHS * epochs + slot == 10 * epochs + slot;
  }

  lemma {:induction false} SlotRecovered(i: nat)
    ensures i % (2 * PATHS) == SlotOf(SlotDirection(i % (2 * PATHS)), i % PATHS)
  {
    assert i == 10 * (i / 10) + i % 10;
  }

  /** Where each row of the grid comes from. */
  lemma {:induction false} GridAt(cells: Cells, epochs: nat, i: nat)
    requires epochs <= NetemSeed.MAX_EPOCHS && i < 2 * PATHS * epochs
    ensures i / (2 * PATHS) < epochs
    ensures Grid(cells, epochs)[i] == cells(i / (2 * PATHS), SlotDirection(i % (2 * PATHS)), i % PATHS)
  {
    var last := epochs - 1;
    var before := Grid(cells, last);
    if i < |before| {
      GridAt(cells, last, i);
    } else {
      var slot := i - |before|;
      SlotArithmetic(last, slot);
      var client, server := Line(cells, last, Client), Line(cells, last, Server);
      assert Grid(cells, epochs)[i] == if slot < PATHS then client[slot] else server[slot - PATHS];
    }
  }

  /** A row says where it belongs. */
  ghost predicate SelfAddressed(cells: Cells) {
    forall e: Epoch, d: Direction, p: Path :: cells(e, d, p).epoch == e && cells(e, d, p).direction == d
  }

  /** `rows_for`, on a document that already validated. */
  function RowsFor(rows: seq<Row>, epoch: nat, direction: Direction): seq<Row> {
    if rows == [] then []
    else
      (if rows[0].epoch == epoch && rows[0].direction == direction then [rows[0]] else [])
      + RowsFor(rows[1..], epoch, direction)
  }

  lemma {:induction false} RowsForAppend(a: seq<Row>, b: seq<Row>, epoch: nat, direction: Direction)
    ensures RowsFor(a + b, epoch, direction) == RowsFor(a, epoch, direction) + RowsFor(b, epoch, direction)
  {
    if a == [] {
      assert a + b == b;
    } else {
      assert (a + b)[1..] == a[1..] + b;
      RowsForAppend(a[1..], b, epoch, direction);
    }
  }

  lemma {:induction false} RowsForUniform(rows: seq<Row>, epoch: nat, direction: Direction, keep: bool)
    requires forall i :: 0 <= i < |rows| ==> (rows[i].epoch == epoch && rows[i].direction == direction) == keep
    ensures RowsFor(rows, epoch, direction) == if keep then rows else []
  {
    if rows != [] {
      RowsForUniform(rows[1..], epoch, direction, keep);
    }
  }

  lemma {:induction false} RowsForGrid(cells: Cells, epochs: nat, epoch: Epoch, direction: Direction)
    requires epochs <= NetemSeed.MAX_EPOCHS && SelfAddressed(cells)
    ensures RowsFor(Grid(cells, epochs), epoch, direction) == if epoch < epochs then Line(cells, epoch, direction) else []
  {
    if epochs > 0 {
      var last := epochs - 1;
      var before, client, server := Grid(cells, last), Line(cells, last, Client), Line(cells, last, Server);
      RowsForGrid(cells, last, epoch, direction);
      RowsForAppend(before + client, server, epoch, direction);
      RowsForAppend(before, client, epoch, direction);
      RowsForUniform(client, epoch, direction, epoch == last && direction == Client);
      RowsForUniform(server, epoch, direction, epoch == last && direction == Server);
    }
  }

  function OutageRows(rows: seq<Row>): nat {
    if rows == [] then 0 else (if rows[0].outage then 1 else 0) + OutageRows(rows[1..])
  }

  lemma {:induction false} OutageRowsOfOne(rows: seq<Row>, k: nat)
    requires k < |rows|
    requires forall i :: 0 <= i < |rows| ==> rows[i].outage == (i == k)
    ensures OutageRows(rows) == 1
  {
    if k == 0 {
      NoOutageRows(rows[1..]);
    } else {
      OutageRowsOfOne(rows[1..], k - 1);
    }
  }

  lemma {:induction false} NoOutageRows(rows: seq<Row>)
    requires forall i :: 0 <= i < |rows| ==> !rows[i].outage
    ensures OutageRows(rows) == 0
  {
    if rows != [] {
      NoOutageRows(rows[1..]);
    }
  }

  /** An epoch whose outage is the row of one slot, or of none, has that many outage rows. */
  lemma {:induction false} OutageRowsOfEpoch(cells: Cells, epoch: Epoch, slot: nat)
    requires forall d: Direction, p: Path :: cells(epoch, d, p).outage == (SlotOf(d, p) == slot)
    ensures OutageRows(Line(cells, epoch, Client) + Line(cells, epoch, Server)) == if slot < 2 * PATHS then 1 else 0
  {
    var client, server := Line(cells, epoch, Client), Line(cells, epoch, Server);
    var rows := client + server;
    forall i | 0 <= i < 2 * PATHS ensures rows[i].outage == (i == slot) {
      if i < PATHS {
        assert rows[i] == client[i] == cells(epoch, Client, i);
      } else {
        assert rows[i] == server[i - PATHS] == cells(epoch, Server, i - PATHS);
      }
    }
    if slot < 2 * PATHS {
      OutageRowsOfOne(rows, slot);
    } else {
      NoOutageRows(rows);
    }
  }
}

/**
 Complete schedule documents: the generator, the validator that re-derives every row
 and re-parses every token, and the replay of one epoch and direction.
 */
module ScheduleDocument {
  import opened Outcomes
  import opened Tokens
  import opened Schedule
  import opened RowGrid
  import NetemSeed

  predicate IsSha256(s: string) {
    |s| == 64 && forall i :: 0 <= i < 64 ==> '0' <= s[i] <= '9' || 'a' <= s[i] <= 'f'
  }

  const SCHEMA_VERSION := 1
  const GENERATOR := "sha256-stratified-internet-v1"
  const MODEL := "representative-five-strata-v1"
  const SCOPE := "protocol-neutral-network-conditions"
  const TOPOLOGY := "five-path"
  const DIRECTIONS := [Client, Server]
  const INVENTORY := [PrefixOf(0), PrefixOf(1), PrefixOf(2), PrefixOf(3), PrefixOf(4)]

  datatype Document = Document(
    schemaVersion: int, generator: string, model: string, scope: string, seed: string, topology: string,
    epochCount: int, directions: seq<Direction>, inventory: seq<string>, includeOutages: bool,
    rows: seq<Row>, identity: string)

  /** The digest of a document's payload; the identity field itself is left out. */
  type Digest = Document -> string

  ghost predicate DigestIsSha256(digest: Digest) {
    forall d: Document :: IsSha256(digest(d))
  }

  function IdentityOf(digest: Digest, d: Document): string {
    digest(d.(identity := ""))
  }

  /** Every draw a schedule makes, for each seed text. */
  type Draws = string -> Draw

  ghost function Rendering(draw: Draw, includeOutages: bool): Cells {
    (e: Epoch, d: Direction, p: Path) => RowAt(draw, includeOutages, e, d, p)
  }

  predicate LegalSeed(seed: string) {
    seed != "" && '\0' !in seed
  }

  /** `build_schedule` */
  ghost function Build(draws: Draws, digest: Digest, seed: string, epochCount: int, topology: string, includeOutages: bool): Option<Document> {
    if !(1 <= epochCount <= NetemSeed.MAX_EPOCHS) || !LegalSeed(seed) || topology != TOPOLOGY then None
    else
      var rows := Grid(Rendering(draws(seed), includeOutages), epochCount);
      var d := Document(SCHEMA_VERSION, GENERATOR, MODEL, SCOPE, seed, topology, epochCount, DIRECTIONS, INVENTORY,
                        includeOutages, rows, "");
      Some(d.(identity := digest(d)))
  }

  /** The numbers behind a row's tokens, when every token is legal. */
  function ParseNumbers(row: Row): Option<Numbers> {
    match (RateKbit(row.rate), TimeMs(row.delay), TimeMs(row.jitter), PercentPpm(row.delayCorrelation),
           PercentPpm(row.loss), PercentPpm(row.lossCorrelation), PercentPpm(row.reorder),
           PercentPpm(row.reorderCorrelation), PercentPpm(row.duplicate), PercentPpm(row.corrupt))
    case (Some(a), Some(b), Some(c), Some(d), Some(e), Some(f), Some(g), Some(h), Some(i), Some(j)) =>
      Some(Numbers(a, b, c, d, e, f, g, h, i, j))
    case _ => None
  }

  predicate InBounds(b: Bounds, v: nat) {
    b.low <= v <= b.high
  }

  /** The checks of `_validate_row` once its tokens are parsed. */
  predicate NumbersPass(s: Stratum, n: Numbers, outage: bool) {
    && n.jitter <= n.delay
    && !(n.jitter == 0 && n.delayCorrelation != 0)
    && !(n.loss == 0 && n.lossCorrelation != 0)
    && !(n.reorder == 0 && n.reorderCorrelation != 0)
    && !(n.reorder > 0 && n.delay == 0)
    && outage == (n.loss == PPM_MAX)
    && !(outage && n.lossCorrelation != 0)
    && InBounds(s.rate, n.rate) && InBounds(s.delay, n.delay) && InBounds(s.jitter, n.jitter)
    && InBounds(s.delayCorrelation, n.delayCorrelation)
    && (outage || (InBounds(s.loss, n.loss) && InBounds(s.lossCorrelation, n.lossCorrelation)))
    && InBounds(s.reorder, n.reorder) && InBounds(s.reorderCorrelation, n.reorderCorrelation)
    && InBounds(s.duplicate, n.duplicate) && InBounds(s.corrupt, n.corrupt)
  }

  /** `_validate_row`, past its comparison with the replayed row. */
  predicate RowPasses(row: Row) {
    && row.pathIndex >= 1
    && 1 <= row.netemSeed < NetemSeed.WORD
    && StratumNamed(row.stratum).Some?
    && ParseNumbers(row).Some?
    && NumbersPass(StratumNamed(row.stratum).value, ParseNumbers(row).value, row.outage)
  }

  ghost predicate RowsReplay(rows: seq<Row>, expected: seq<Row>) {
    |rows| == |expected| &&
    forall i :: 0 <= i < |rows| ==> rows[i] == expected[i] && RowPasses(rows[i])
  }

  /** `validate_schedule`: schema, identity, and every row against the seeded replay. */
  ghost predicate Validates(draws: Draws, digest: Digest, d: Document) {
    d.schemaVersion == SCHEMA_VERSION && d.generator == GENERATOR && d.model == MODEL && d.scope == SCOPE &&
    IsSha256(d.identity) && d.identity == IdentityOf(digest, d) &&
    d.seed != "" && d.topology == TOPOLOGY && d.directions == DIRECTIONS && d.inventory == INVENTORY &&
    1 <= d.epochCount <= NetemSeed.MAX_EPOCHS &&
    var expected := Build(draws, digest, d.seed, d.epochCount, d.topology, d.includeOutages);
    expected.Some? && RowsReplay(d.rows, expected.value.rows) && d == expected.value
  }

  lemma {:induction false} PrintedParses(epoch: nat, direction: Direction, path: nat, rank: nat, n: Numbers, seed: nat, outage: bool)
    requires path < PATHS && rank < PATHS && LegalNumbers(StratumAt(rank), n, outage)
    ensures ParseNumbers(Printed(epoch, direction, path, rank, n, seed, outage)) == Some(n)
  {
    UnitRoundTrips(n.rate);
    UnitRoundTrips(n.delay);
    UnitRoundTrips(n.jitter);
    PercentRoundTrip(n.delayCorrelation);
    PercentRoundTrip(n.loss);
    PercentRoundTrip(n.lossCorrelation);
    PercentRoundTrip(n.reorder);
    PercentRoundTrip(n.reorderCorrelation);
    PercentRoundTrip(n.duplicate);
    PercentRoundTrip(n.corrupt);
  }

  lemma {:induction false} PrintedPasses(epoch: nat, direction: Direction, path: nat, rank: nat, n: Numbers, seed: nat, outage: bool)
    requires path < PATHS && rank < PATHS && LegalNumbers(StratumAt(rank), n, outage)
    requires 1 <= seed < NetemSeed.WORD
    ensures RowPasses(Printed(epoch, direction, path, rank, n, seed, outage))
  {
    StrataNamesDistinct(rank);
    PrintedParses(epoch, direction, path, rank, n, seed, outage);
    assert NumbersPass(StratumAt(rank), n, outage);
  }

  /** Every rendered row survives re-parsing: each token is legal and inside its stratum. */
  lemma {:induction false} RenderedRowPasses(draw: Draw, includeOutages: bool, epoch: Epoch, direction: Direction, path: Path)
    ensures RowPasses(RowAt(draw, includeOutages, epoch, direction, path))
  {
    var at := CoordinateOf(epoch, direction, path);
    NetemSeed.SeedsDistinct(Feistel(draw), at, at);
    var rank := StratumRank(draw, epoch, direction, path);
    var outage := IsOutage(draw, epoch, direction, path, includeOutages);
    PrintedPasses(epoch, direction, path, rank, DrawNumbers(draw, epoch, direction, path, rank, outage),
                  NetemSeed.SeedOf(Feistel(draw), at), outage);
  }

  /**
   The validator accepts exactly the documents the generator builds: whatever is built
   passes every token, range and replay check, and nothing else does.
   */
  lemma {:induction false} ValidatesExactlyBuilt(draws: Draws, digest: Digest, d: Document)
    requires DigestIsSha256(digest)
    ensures Validates(draws, digest, d)
      <==> Build(draws, digest, d.seed, d.epochCount, d.topology, d.includeOutages) == Some(d)
  {
    var built := Build(draws, digest, d.seed, d.epochCount, d.topology, d.includeOutages);
    if built == Some(d) {
      BuiltRowsPass(draws(d.seed), d.includeOutages, d.epochCount);
      var payload := d.(identity := "");
      assert d.identity == digest(payload) && IsSha256(d.identity);
      assert d.rows == built.value.rows;
    }
  }

  lemma {:induction false} BuiltRowsPass(draw: Draw, includeOutages: bool, epochs: nat)
    requires epochs <= NetemSeed.MAX_EPOCHS
    ensures var rows := Grid(Rendering(draw, includeOutages), epochs); RowsReplay(rows, rows)
  {
    var rows := Grid(Rendering(draw, includeOutages), epochs);
    forall i | 0 <= i < |rows| ensures RowPasses(rows[i]) {
      GridAt(Rendering(draw, includeOutages), epochs, i);
      RenderedRowPasses(draw, includeOutages, i / (2 * PATHS), SlotDirection(i % (2 * PATHS)), i % PATHS);
    }
  }

  /** The coordinate of row `i` of a schedule. */
  function CoordinateAt(i: nat): NetemSeed.Coordinate
    requires i < 2 * PATHS * NetemSeed.MAX_EPOCHS
  {
    CoordinateOf(i / (2 * PATHS), SlotDirection(i % (2 * PATHS)), i % PATHS)
  }

  lemma {:induction false} CoordinatesDistinct(i: nat, j: nat)
    requires i < j < 2 * PATHS * NetemSeed.MAX_EPOCHS
    ensures CoordinateAt(i) != CoordinateAt(j)
  {
    SlotRecovered(i);
    SlotRecovered(j);
    assert i == 10 * (i / 10) + i % 10 && j == 10 * (j / 10) + j % 10;
  }

  lemma {:induction false} SeedOfRow(draw: Draw, includeOutages: bool, epochs: nat, i: nat)
    requires epochs <= NetemSeed.MAX_EPOCHS && i < 2 * PATHS * epochs
    ensures Grid(Rendering(draw, includeOutages), epochs)[i].netemSeed == NetemSeed.SeedOf(Feistel(draw), CoordinateAt(i))
  {
    GridAt(Rendering(draw, includeOutages), epochs, i);
  }

  /** Across a whole schedule no two rows share a packet-RNG seed, and none is zero. */
  lemma {:induction false} ScheduleSeedsDistinct(draw: Draw, includeOutages: bool, epochs: nat, i: nat, j: nat)
    requires epochs <= NetemSeed.MAX_EPOCHS && i < j < 2 * PATHS * epochs
    ensures var rows := Grid(Rendering(draw, includeOutages), epochs);
      1 <= rows[i].netemSeed < NetemSeed.WORD && rows[i].netemSeed != rows[j].netemSeed
  {
    SeedOfRow(draw, includeOutages, epochs, i);
    SeedOfRow(draw, includeOutages, epochs, j);
    CoordinatesDistinct(i, j);
    NetemSeed.SeedsDistinct(Feistel(draw), CoordinateAt(i), CoordinateAt(j));
  }

  lemma {:induction false} RenderedOutage(draw: Draw, includeOutages: bool, epoch: Epoch, direction: Direction, path: Path)
    ensures Rendering(draw, includeOutages)(epoch, direction, path).outage
      == IsOutage(draw, epoch, direction, path, includeOutages)
  {
  }

  /** With outages enabled every epoch has exactly one outage row; otherwise none. */
  lemma {:induction false} OneOutagePerEpoch(draw: Draw, includeOutages: bool, epoch: Epoch)
    ensures var cells := Rendering(draw, includeOutages);
      OutageRows(Line(cells, epoch, Client) + Line(cells, epoch, Server)) == if includeOutages then 1 else 0
  {
    var cells := Rendering(draw, includeOutages);
    var slot := if includeOutages then OutageSlot(draw, epoch, 2 * PATHS) else 2 * PATHS;
    forall d: Direction, p: Path ensures cells(epoch, d, p).outage == (SlotOf(d, p) == slot) {
      RenderedOutage(draw, includeOutages, epoch, d, p);
    }
    OutageRowsOfEpoch(cells, epoch, slot);
  }

  /** Selecting an epoch and direction from a schedule replays exactly what was rendered for it. */
  lemma {:induction false} RowsForReplays(draw: Draw, includeOutages: bool, epochs: nat, epoch: Epoch, direction: Direction)
    requires epochs <= NetemSeed.MAX_EPOCHS
    ensures var cells := Rendering(draw, includeOutages);
      RowsFor(Grid(cells, epochs), epoch, direction) == if epoch < epochs then Line(cells, epoch, direction) else []
  {
    RowsForGrid(Rendering(draw, includeOutages), epochs, epoch, direction);
  }
}
