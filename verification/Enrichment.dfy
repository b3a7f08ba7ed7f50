/** Upload rows and the target-sink snapshot (`lab/result_enrichment.py`). */
module Enrichment {
  import opened Outcomes

  // ----- what a row and a snapshot may hold -----

  /** A field that is absent, of the wrong type, or a non-negative integer. */
  datatype Number = Absent | Malformed | Value(value: nat)

  datatype ProbeErrors = NoErrorsField | NotAList | Errors(count: nat)

  datatype Flag = NoFlag | NotTrue | True

  datatype Source = NoSource | SinkAck | SinkObserver

  datatype Status = Unknown | Okay | Loss | Failure

  /** The fields of an upload row that accounting reads or writes. */
  datatype Row = Row(
    streams: Number, elapsed: Option<real>, accepted: Number, confirmed: Number, errors: ProbeErrors, ack: Flag,
    observerError: bool, freezeExitCode: Option<int>,
    version: nat, source: Source, exact: Flag, lowerBound: bool, snapshotVersion: nat, quiesced: bool, finalized: bool,
    probeElapsed: Option<real>, observerElapsed: Option<real>, bytes: Number, inBandConfirmed: Number,
    completeStreams: nat, failedStreams: Option<nat>, complete: Flag, status: Status)

  datatype Gap = NoGap | BadGap | ReceiveGap(ns: nat, start: nat, end: nat)

  datatype Connection = Connection(id: Number, bytes: Number, final: Option<bool>, updatedAt: Number, gap: Gap)

  datatype Snapshot = Snapshot(version: nat, quiesced: bool, finalized: bool, connections: Option<seq<Connection>>, updatedAt: Number, merged: Number)

  // ----- rounding to microseconds, half to even -----

  function Micros(x: real): int {
    var y := x * 1000000.0;
    var n := y.Floor;
    var fraction := y - n as real;
    if fraction < 0.5 then n
    else if fraction > 0.5 then n + 1
    else if n % 2 == 0 then n else n + 1
  }

  function Rounded(x: real): real {
    Micros(x) as real / 1000000.0
  }

  /** `n` microseconds are as near to `x` seconds as any count, and even when two are equally near. */
  predicate Nearest(x: real, n: int) {
    var off := x * 1000000.0 - n as real;
    -0.5 <= off <= 0.5 && (off == 0.5 || off == -0.5 ==> n % 2 == 0)
  }

  lemma {:induction false} MicrosIff(x: real, n: int)
    ensures Micros(x) == n <==> Nearest(x, n)
  {
    var y := x * 1000000.0;
    var m := Micros(x);
    assert m == y.Floor || m == y.Floor + 1;
    assert Nearest(x, m);
    if Nearest(x, n) {
      assert -1.0 <= m as real - n as real <= 1.0;
      assert m == n || m == n + 1 || m == n - 1;
    }
  }

  lemma {:induction false} MicrosMonotone(x: real, y: real)
    requires x <= y
    ensures Micros(x) <= Micros(y)
  {
    var a, b := x * 1000000.0, y * 1000000.0;
    assert a <= b;
    assert a.Floor <= b.Floor;
  }

  lemma {:induction false} MicrosPositive(x: real)
    requires x > 0.0
    ensures Micros(x) > 0 <==> x > 0.0000005
  {
    var y := x * 1000000.0;
    assert y > 0.5 <==> x > 0.0000005;
  }

  // ----- the two classifiers -----

  predicate IsProven(row: Row) {
    row.version >= 2 && (row.source == SinkAck || row.source == SinkObserver)
  }

  predicate ObserverFieldsFit(row: Row) {
    && row.ack == True && row.errors == Errors(0)
    && row.snapshotVersion == 2 && row.quiesced && row.finalized
    && row.probeElapsed.Some? && row.probeElapsed.value > 0.0
    && row.observerElapsed.Some? && row.observerElapsed.value >= row.probeElapsed.value
    && row.elapsed == row.observerElapsed
  }

  predicate IsExact(row: Row) {
    && IsProven(row)
    && !row.observerError && (row.freezeExitCode == None || row.freezeExitCode == Some(0))
    && ((row.source == SinkAck && row.version == 2) || (row.source == SinkObserver && row.version >= 4))
    && (row.source == SinkObserver ==> ObserverFieldsFit(row))
    && row.exact == True && !row.lowerBound && row.complete == True && row.status == Okay
    && row.bytes.Value? && row.bytes.value > 0
    && (row.errors == NoErrorsField || row.errors == Errors(0))
    && (row.ack == NoFlag || row.ack == True)
    && (row.failedStreams == None || row.failedStreams == Some(0))
  }

  // ----- totals over the snapshot's connections -----

  predicate ConnectionFits(c: Connection, version: nat) {
    && c.id.Value? && c.bytes.Value? && c.final.Some?
    && (if version == 2 then c.updatedAt.Value? else !c.updatedAt.Malformed?)
    && !c.gap.BadGap? && (c.gap.ReceiveGap? ==> c.gap.start <= c.gap.end)
  }

  predicate ConnectionsFit(s: seq<Connection>, version: nat) {
    && (forall i | 0 <= i < |s| :: ConnectionFits(s[i], version))
    && (forall i, j | 0 <= i < j < |s| :: s[i].id != s[j].id)
  }

  function ByteCount(c: Connection): nat {
    if c.bytes.Value? then c.bytes.value else 0
  }

  function TotalBytes(s: seq<Connection>): nat {
    if s == [] then 0 else TotalBytes(s[..|s| - 1]) + ByteCount(s[|s| - 1])
  }

  function FinalCount(s: seq<Connection>): nat {
    if s == [] then 0 else FinalCount(s[..|s| - 1]) + if s[|s| - 1].final == Some(true) then 1 else 0
  }

  lemma {:induction false} FinalCountMeans(s: seq<Connection>)
    ensures FinalCount(s) <= |s|
    ensures FinalCount(s) == |s| <==> forall i | 0 <= i < |s| :: s[i].final == Some(true)
  {
    if s != [] {
      FinalCountMeans(s[..|s| - 1]);
      assert forall i | 0 <= i < |s| - 1 :: s[..|s| - 1][i] == s[i];
    }
  }

  /** The accumulation loop: totals, or nothing when a connection is malformed or an id repeats. */
  method Accumulate(s: seq<Connection>, version: nat) returns (totals: Option<(nat, nat)>)
    ensures totals.Some? <==> ConnectionsFit(s, version)
    ensures totals.Some? ==> totals.value == (TotalBytes(s), FinalCount(s))
  {
    var bytes, final := 0, 0;
    var ids: set<Number> := {};
    for k := 0 to |s|
      invariant ConnectionsFit(s[..k], version)
      invariant ids == set i | 0 <= i < k :: s[i].id
      invariant bytes == TotalBytes(s[..k]) && final == FinalCount(s[..k])
    {
      if s[k].id in ids || !ConnectionFits(s[k], version) {
        return None;
      }
      assert s[..k + 1][..k] == s[..k];
      ids := ids + {s[k].id};
      bytes := bytes + s[k].bytes.value;
      final := final + if s[k].final.value then 1 else 0;
    }
    assert s[..|s|] == s;
    totals := Some((bytes, final));
  }

  // ----- the enrichment -----

  datatype Rejection =
    | UnsupportedVersion | NotFinalized | NoConnections | NoStreamCount | UnexpectedConnections | BadElapsed | ObserverTooShort
    | BadConnection | BadRow | BehindAcknowledgement | ExceedsAccepted | BadTimestamp

  function Least(a: nat, b: nat): nat {
    if a <= b then a else b
  }

  /** What each reason for a refusal says about a row and a snapshot. */
  predicate Violates(reason: Rejection, row: Row, snapshot: Snapshot, observerElapsed: Option<real>) {
    match reason
    case UnsupportedVersion => snapshot.version != 1 && snapshot.version != 2
    case NotFinalized => snapshot.version == 2 && !(snapshot.quiesced && snapshot.finalized)
    case NoConnections => snapshot.connections.None?
    case NoStreamCount => !row.streams.Value? || row.streams.value == 0
    case UnexpectedConnections => snapshot.connections.Some? && row.streams.Value? && |snapshot.connections.value| > row.streams.value
    case BadElapsed => !(row.elapsed.Some? && row.elapsed.value > 0.0 && observerElapsed.Some? && observerElapsed.value > 0.0)
    case ObserverTooShort => row.elapsed.Some? && observerElapsed.Some? && observerElapsed.value < row.elapsed.value
    case BadConnection => snapshot.connections.Some? && !ConnectionsFit(snapshot.connections.value, snapshot.version)
    case BadRow => !row.accepted.Value? || row.confirmed.Malformed?
    case BehindAcknowledgement => snapshot.connections.Some? && TotalBytes(snapshot.connections.value) < PriorConfirmed(row)
    case ExceedsAccepted => snapshot.connections.Some? && row.accepted.Value? && TotalBytes(snapshot.connections.value) > row.accepted.value
    case BadTimestamp => !(if snapshot.version == 2 then snapshot.updatedAt.Value? else !snapshot.updatedAt.Malformed?) || snapshot.merged.Malformed?
  }

  /** The order in which the reasons are reported. */
  function Rank(reason: Rejection): nat {
    match reason
    case UnsupportedVersion => 0
    case NotFinalized => 1
    case NoConnections => 2
    case NoStreamCount => 3
    case UnexpectedConnections => 4
    case BadElapsed => 5
    case ObserverTooShort => 6
    case BadConnection => 7
    case BadRow => 8
    case BehindAcknowledgement => 9
    case ExceedsAccepted => 10
    case BadTimestamp => 11
  }

  /** A snapshot fits a row: well formed, no more connections than streams, and bytes between those confirmed and those accepted. */
  predicate Consistent(row: Row, snapshot: Snapshot, observerElapsed: Option<real>) {
    && row.streams.Value? && row.accepted.Value? && !row.confirmed.Malformed?
    && row.elapsed.Some? && observerElapsed.Some? && 0.0 < row.elapsed.value <= observerElapsed.value
    && (snapshot.version == 1 || (snapshot.version == 2 && snapshot.quiesced && snapshot.finalized && snapshot.updatedAt.Value?))
    && !snapshot.updatedAt.Malformed? && !snapshot.merged.Malformed?
    && snapshot.connections.Some? && ConnectionsFit(snapshot.connections.value, snapshot.version)
    && |snapshot.connections.value| <= row.streams.value && row.streams.value > 0
    && PriorConfirmed(row) <= TotalBytes(snapshot.connections.value) <= row.accepted.value
  }

  /** A row and a snapshot fit exactly when nothing can be said against them. */
  lemma {:induction false} ConsistentMeans(row: Row, snapshot: Snapshot, observerElapsed: Option<real>)
    ensures Consistent(row, snapshot, observerElapsed) <==> forall reason :: !Violates(reason, row, snapshot, observerElapsed)
  {
    if forall reason :: !Violates(reason, row, snapshot, observerElapsed) {
      assert !Violates(UnsupportedVersion, row, snapshot, observerElapsed) && !Violates(NotFinalized, row, snapshot, observerElapsed);
      assert !Violates(NoConnections, row, snapshot, observerElapsed) && !Violates(NoStreamCount, row, snapshot, observerElapsed);
      assert !Violates(UnexpectedConnections, row, snapshot, observerElapsed) && !Violates(BadElapsed, row, snapshot, observerElapsed);
      assert !Violates(ObserverTooShort, row, snapshot, observerElapsed) && !Violates(BadConnection, row, snapshot, observerElapsed);
      assert !Violates(BadRow, row, snapshot, observerElapsed) && !Violates(BehindAcknowledgement, row, snapshot, observerElapsed);
      assert !Violates(ExceedsAccepted, row, snapshot, observerElapsed) && !Violates(BadTimestamp, row, snapshot, observerElapsed);
    }
  }

  function PriorConfirmed(row: Row): nat {
    if row.confirmed.Value? then row.confirmed.value else 0
  }

  predicate AckUsable(row: Row, version: nat) {
    (version == 1 && row.errors == NoErrorsField && row.ack == NoFlag) || (row.ack == True && row.errors == Errors(0))
  }

  function ErrorSlots(row: Row, version: nat, expected: nat): nat {
    var slots := if row.errors.Errors? then Least(row.errors.count, expected) else if version == 2 then 1 else 0;
    if row.ack == NotTrue && slots == 0 then 1 else slots
  }

  function Updated(row: Row, snapshot: Snapshot, observerElapsed: real, observed: nat, final: nat): Row
    requires snapshot.connections.Some? && row.streams.Value? && row.elapsed.Some? && row.accepted.Value?
  {
    var expected := row.streams.value;
    var exact := snapshot.version == 2 && AckUsable(row, snapshot.version)
      && observed > 0 && |snapshot.connections.value| == expected && final == expected && observed == row.accepted.value;
    var complete := Least(final, expected - Least(ErrorSlots(row, snapshot.version, expected), expected));
    row.(
      inBandConfirmed := Value(PriorConfirmed(row)), confirmed := Value(observed), bytes := Value(observed),
      probeElapsed := Some(Rounded(row.elapsed.value)), observerElapsed := Some(Rounded(observerElapsed)), elapsed := Some(Rounded(observerElapsed)),
      version := if snapshot.version == 2 then 4 else 3, source := SinkObserver,
      exact := if exact then True else NotTrue, lowerBound := observed > 0 && !exact,
      snapshotVersion := snapshot.version, quiesced := snapshot.version == 2 && snapshot.quiesced, finalized := snapshot.version == 2 && snapshot.finalized,
      completeStreams := complete, failedStreams := Some(expected - complete),
      complete := if exact then True else NotTrue, status := if exact then Okay else if observed > 0 then Loss else Failure)
  }

  /** The upload row object: a refusal leaves it as it was. */
  class UploadRow {
    var row: Row

    constructor (start: Row)
      ensures row == start
    {
      row := start;
    }

    method EnrichUploadTargetObserver(snapshot: Snapshot, observerElapsed: Option<real>) returns (refused: Option<Rejection>)
      modifies this
      ensures refused.None? <==> Consistent(old(row), snapshot, observerElapsed)
      ensures refused.Some? ==> row == old(row) && Violates(refused.value, old(row), snapshot, observerElapsed)
      ensures refused.Some? ==> forall reason | Rank(reason) < Rank(refused.value) :: !Violates(reason, old(row), snapshot, observerElapsed)
      ensures refused.None? ==> row == Enriched(old(row), snapshot, observerElapsed.value)
      ensures refused.None? ==> row.bytes.Value? && PriorConfirmed(old(row)) <= row.bytes.value <= row.accepted.value && row.confirmed == row.bytes
      ensures refused.None? ==> row.failedStreams.Some? && row.completeStreams + row.failedStreams.value == row.streams.value
    {
      ConsistentMeans(row, snapshot, observerElapsed);
      if snapshot.version != 1 && snapshot.version != 2 {
        return Some(UnsupportedVersion);
      }
      if snapshot.version == 2 && !(snapshot.quiesced && snapshot.finalized) {
        return Some(NotFinalized);
      }
      if snapshot.connections.None? {
        return Some(NoConnections);
      }
      if !row.streams.Value? || row.streams.value == 0 {
        return Some(NoStreamCount);
      }
      if |snapshot.connections.value| > row.streams.value {
        return Some(UnexpectedConnections);
      }
      if row.elapsed.None? || row.elapsed.value <= 0.0 || observerElapsed.None? || observerElapsed.value <= 0.0 {
        return Some(BadElapsed);
      }
      if observerElapsed.value < row.elapsed.value {
        return Some(ObserverTooShort);
      }
      var totals := Accumulate(snapshot.connections.value, snapshot.version);
      if totals.None? {
        return Some(BadConnection);
      }
      var observed, final := totals.value.0, totals.value.1;
      if !row.accepted.Value? || row.confirmed.Malformed? {
        return Some(BadRow);
      }
      if observed < PriorConfirmed(row) {
        return Some(BehindAcknowledgement);
      }
      if observed > row.accepted.value {
        return Some(ExceedsAccepted);
      }
      if (snapshot.version == 2 && !snapshot.updatedAt.Value?) || snapshot.updatedAt.Malformed? || snapshot.merged.Malformed? {
        return Some(BadTimestamp);
      }
      row := Updated(row, snapshot, observerElapsed.value, observed, final);
      refused := None;
    }
  }

  function Enriched(row: Row, snapshot: Snapshot, observerElapsed: real): Row
    requires Consistent(row, snapshot, Some(observerElapsed))
  {
    Updated(row, snapshot, observerElapsed, TotalBytes(snapshot.connections.value), FinalCount(snapshot.connections.value))
  }

  // ----- when an enriched row is exact -----

  /** Every expected stream has one connection, and every connection is final. */
  predicate AllStreamsFinal(row: Row, snapshot: Snapshot) {
    && snapshot.connections.Some? && row.streams == Value(|snapshot.connections.value|)
    && forall i | 0 <= i < |snapshot.connections.value| :: snapshot.connections.value[i].final == Some(true)
  }

  predicate NoObserverError(row: Row) {
    !row.observerError && (row.freezeExitCode == None || row.freezeExitCode == Some(0))
  }

  /**
   An enriched row is exact exactly when the snapshot is a finalised version 2 whose
   connections are all final and one per stream, its bytes are positive and all that was
   accepted locally, the in-band accounting is clean, no observer error is recorded, and the
   probe ran long enough not to be rounded to zero.
   */
  lemma {:induction false} ExactExactlyWhen(row: Row, snapshot: Snapshot, observerElapsed: real)
    requires Consistent(row, snapshot, Some(observerElapsed))
    ensures IsExact(Enriched(row, snapshot, observerElapsed)) <==>
      && snapshot.version == 2 && snapshot.quiesced && snapshot.finalized
      && AllStreamsFinal(row, snapshot)
      && TotalBytes(snapshot.connections.value) > 0 && row.accepted == Value(TotalBytes(snapshot.connections.value))
      && row.ack == True && row.errors == Errors(0)
      && NoObserverError(row)
      && row.elapsed.value > 0.0000005
  {
    FinalCountMeans(snapshot.connections.value);
    MicrosPositive(row.elapsed.value);
    MicrosMonotone(row.elapsed.value, observerElapsed);
  }

  /** Below half a microsecond the probe time rounds to zero, and an otherwise perfect row is not exact. */
  lemma {:induction false} TooShortToBeExact() returns (row: Row, snapshot: Snapshot, observerElapsed: real)
    ensures Consistent(row, snapshot, Some(observerElapsed)) && !IsExact(Enriched(row, snapshot, observerElapsed))
    ensures Consistent(row.(elapsed := Some(1.0)), snapshot, Some(observerElapsed)) && IsExact(Enriched(row.(elapsed := Some(1.0)), snapshot, observerElapsed))
  {
    var c := Connection(Value(0), Value(7), Some(true), Value(1), NoGap);
    snapshot := Snapshot(2, true, true, Some([c]), Value(1), Absent);
    observerElapsed := 1.0;
    row := Row(Value(1), Some(0.0000001), Value(7), Value(0), Errors(0), True, false, None, 0, NoSource, NoFlag, false, 0, false, false, None, None, Absent, Absent, 0, None, NoFlag, Unknown);
    assert [c][..0] == [];
    assert TotalBytes([c]) == TotalBytes([]) + 7;
    ExactExactlyWhen(row, snapshot, observerElapsed);
    ExactExactlyWhen(row.(elapsed := Some(1.0)), snapshot, observerElapsed);
  }

  /** Complete and failed streams add up to the expected ones, and a complete stream is a final one. */
  lemma {:induction false} StreamsAddUp(row: Row, snapshot: Snapshot, observerElapsed: real)
    requires Consistent(row, snapshot, Some(observerElapsed))
    ensures var out := Enriched(row, snapshot, observerElapsed);
      && out.failedStreams.Some? && out.completeStreams + out.failedStreams.value == row.streams.value
      && out.completeStreams <= FinalCount(snapshot.connections.value)
      && (IsExact(out) ==> out.completeStreams == row.streams.value)
  {
    ExactExactlyWhen(row, snapshot, observerElapsed);
    FinalCountMeans(snapshot.connections.value);
  }

  // ----- what an enriched row says -----

  /** How many streams the probe's own accounting speaks against; a missing error list counts as one error in version 2. */
  predicate SpokenAgainst(row: Row, version: nat, n: nat) {
    if row.errors.Errors? && row.errors.count > 0 then n == row.errors.count
    else if row.ack == NotTrue || (version == 2 && !row.errors.Errors?) then n == 1
    else n == 0
  }

  /** The sink saw one final connection per stream and all accepted bytes, and the probe has nothing to say against it. */
  predicate Confirmed(row: Row, snapshot: Snapshot) {
    && snapshot.version == 2 && AllStreamsFinal(row, snapshot)
    && TotalBytes(snapshot.connections.value) > 0 && row.accepted == Value(TotalBytes(snapshot.connections.value))
    && row.ack == True && row.errors == Errors(0)
  }

  /** The failed streams are those without a final connection or those the probe speaks against, whichever are more. */
  lemma {:induction false} FailedStreamsMean(row: Row, snapshot: Snapshot, observerElapsed: real, against: nat)
    requires Consistent(row, snapshot, Some(observerElapsed)) && SpokenAgainst(row, snapshot.version, against)
    ensures var out := Enriched(row, snapshot, observerElapsed); var open := row.streams.value - FinalCount(snapshot.connections.value);
      && out.failedStreams.Some? && open <= out.failedStreams.value <= row.streams.value
      && (out.failedStreams.value < row.streams.value ==> against <= out.failedStreams.value)
      && (out.failedStreams.value == open || out.failedStreams.value == against || out.failedStreams.value == row.streams.value < against)
  {
    FinalCountMeans(snapshot.connections.value);
  }

  /** The verdict: fully confirmed, a lower bound on a loss, or a failure; every other field of the row is kept. */
  lemma {:induction false} VerdictMeans(row: Row, snapshot: Snapshot, observerElapsed: real)
    requires Consistent(row, snapshot, Some(observerElapsed))
    ensures var out := Enriched(row, snapshot, observerElapsed); var bytes := TotalBytes(snapshot.connections.value);
      && out.status == (if Confirmed(row, snapshot) then Okay else if bytes > 0 then Loss else Failure)
      && (out.exact == True <==> out.status == Okay) && (out.complete == True <==> out.status == Okay) && (out.lowerBound <==> out.status == Loss)
      && IsProven(out) && (out.version == 4 <==> snapshot.version == 2) && out.snapshotVersion == snapshot.version
      && (out.quiesced <==> snapshot.version == 2) && (out.finalized <==> snapshot.version == 2)
    ensures var out := Enriched(row, snapshot, observerElapsed);
      && out.inBandConfirmed == Value(PriorConfirmed(row))
      && out.probeElapsed.Some? && out.observerElapsed.Some? && out.elapsed == out.observerElapsed
      && exists probe, observer :: Nearest(row.elapsed.value, probe) && Nearest(observerElapsed, observer)
           && out.probeElapsed.value == probe as real / 1000000.0 && out.observerElapsed.value == observer as real / 1000000.0
    ensures var out := Enriched(row, snapshot, observerElapsed);
      && out.streams == row.streams && out.accepted == row.accepted && out.errors == row.errors && out.ack == row.ack
      && out.observerError == row.observerError && out.freezeExitCode == row.freezeExitCode
  {
    FinalCountMeans(snapshot.connections.value);
    MicrosIff(row.elapsed.value, Micros(row.elapsed.value));
    MicrosIff(observerElapsed, Micros(observerElapsed));
    var out := Enriched(row, snapshot, observerElapsed);
    assert out.probeElapsed.value == Micros(row.elapsed.value) as real / 1000000.0;
    assert out.observerElapsed.value == Micros(observerElapsed) as real / 1000000.0;
  }

  /** Things that can be recorded against a row. */
  datatype Fault =
    | ObserverFailed | FreezeFailed(code: int) | ProbeFailed(count: nat) | ErrorsUnreadable | AckInvalid | StreamsFailed(count: nat)
    | OnlyLowerBound | NotComplete | NotOkay(status: Status) | NoBytes(bytes: Number) | NoProof(version: nat) | FromNowhere

  predicate Damning(fault: Fault) {
    match fault
    case FreezeFailed(code) => code != 0
    case ProbeFailed(count) => count > 0
    case StreamsFailed(count) => count > 0
    case NotOkay(status) => status != Okay
    case NoBytes(bytes) => !bytes.Value? || bytes.value == 0
    case NoProof(version) => version < 2 || version == 3
    case _ => true
  }

  function Faulted(row: Row, fault: Fault): Row {
    match fault
    case ObserverFailed => row.(observerError := true)
    case FreezeFailed(code) => row.(freezeExitCode := Some(code))
    case ProbeFailed(count) => row.(errors := Errors(count))
    case ErrorsUnreadable => row.(errors := NotAList)
    case AckInvalid => row.(ack := NotTrue)
    case StreamsFailed(count) => row.(failedStreams := Some(count))
    case OnlyLowerBound => row.(lowerBound := true)
    case NotComplete => row.(complete := NotTrue)
    case NotOkay(status) => row.(status := status)
    case NoBytes(bytes) => row.(bytes := bytes)
    case NoProof(version) => row.(version := version)
    case FromNowhere => row.(source := NoSource)
  }

  /** A harmless value in any of those fields changes nothing, a damning one alone makes every row inexact. */
  lemma {:induction false} OneFaultIsEnough(row: Row, fault: Fault)
    ensures Damning(fault) ==> !IsExact(Faulted(row, fault))
    ensures !Damning(fault) && IsExact(row) && !fault.NoProof? ==> IsExact(Faulted(row, fault))
  {
  }
}
