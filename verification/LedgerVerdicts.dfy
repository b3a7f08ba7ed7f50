/** What `compare_candidate` decides and records, in terms of the measured values themselves. */
module LedgerVerdicts {
  import opened Outcomes
  import opened Statistics
  import opened OrderStatistics
  import opened Bootstrap
  import opened LedgerRecords
  import opened LedgerValidation
  import opened LedgerOperations
  import opened LedgerRuns

  // ----- the direction of a metric -----

  predicate Better(x: real, y: real, higherIsBetter: bool) {
    if higherIsBetter then x > y else x < y
  }

  lemma {:induction false} DeltaMeans(candidate: real, reference: real, higherIsBetter: bool)
    ensures var d := NormalizedDelta(candidate, reference, higherIsBetter);
      && (d > 0.0 <==> Better(candidate, reference, higherIsBetter))
      && (d < 0.0 <==> Better(reference, candidate, higherIsBetter))
      && candidate == (if higherIsBetter then reference + d else reference - d)
  {
  }

  /** What a pair holds of the earlier subject: the champion or the parent. */
  function Earlier(t: Triple, champion: bool): real {
    if champion then t.champion else t.parent
  }

  predicate BeatsOnEvery(c: Comparison, champion: bool) {
    forall i | 0 <= i < |c.pairs| :: Better(c.pairs[i].candidate, Earlier(c.pairs[i], champion), c.metric.higherIsBetter)
  }

  predicate LosesOnEvery(c: Comparison, champion: bool) {
    forall i | 0 <= i < |c.pairs| :: Better(Earlier(c.pairs[i], champion), c.pairs[i].candidate, c.metric.higherIsBetter)
  }

  predicate TiesOnEvery(c: Comparison, champion: bool) {
    forall i | 0 <= i < |c.pairs| :: c.pairs[i].candidate == Earlier(c.pairs[i], champion)
  }

  /** Beating, losing to or tying with a subject on every pair decides the inference about it, whatever is drawn. */
  lemma {:induction false} UniformPairsDecide(next: Generator, c: Comparison, champion: bool)
    requires c.pairs != [] && c.contract.iterations > 0
    ensures var i := Infer(next, DeltasAgainst(c.pairs, c.metric.higherIsBetter, champion), c.contract);
      && (BeatsOnEvery(c, champion) ==> i.verdict.Improvement?)
      && (LosesOnEvery(c, champion) ==> i.verdict.Regression?)
      && (TiesOnEvery(c, champion) ==> i.verdict.Inconclusive? && Equivalent(i))
  {
    var deltas := DeltasAgainst(c.pairs, c.metric.higherIsBetter, champion);
    UniformDeltasClassified(next, deltas, c.contract);
    forall x | x in deltas
      ensures BeatsOnEvery(c, champion) ==> x > 0.0
      ensures LosesOnEvery(c, champion) ==> x < 0.0
      ensures TiesOnEvery(c, champion) ==> x == 0.0
    {
      var i :| 0 <= i < |deltas| && deltas[i] == x;
      DeltaMeans(c.pairs[i].candidate, Earlier(c.pairs[i], champion), c.metric.higherIsBetter);
    }
  }

  lemma {:induction false} FindingDecides(p: Papers, next: Generator, e: Entry, c: Comparison, approval: Option<Approval>, f: Finding)
    requires c.pairs != [] && c.contract.iterations > 0 && e.accepted != [] && e.champions != []
    requires f == Found(p, next, e, c, approval)
    ensures BeatsOnEvery(c, false) ==> f.parent.inference.verdict.Improvement?
    ensures LosesOnEvery(c, false) ==> f.parent.inference.verdict.Regression?
    ensures TiesOnEvery(c, false) ==> f.parent.inference.verdict.Inconclusive? && Equivalent(f.parent.inference)
    ensures BeatsOnEvery(c, true) ==> f.champion.inference.verdict.Improvement?
    ensures LosesOnEvery(c, true) ==> f.champion.inference.verdict.Regression?
    ensures TiesOnEvery(c, true) ==> f.champion.inference.verdict.Inconclusive? && Equivalent(f.champion.inference)
  {
    UniformPairsDecide(next, c, false);
    UniformPairsDecide(next, c, true);
  }

  /** The outcome of every comparison that is not refused and has no approval, on uniform measurements. */
  lemma {:induction false} UniformComparisonOutcome(h: Suite, p: Papers, next: Generator, ledger: Ledger, c: Comparison, commit: bool, report: Report)
    requires WellFormed(h, ledger) && Compare(h, p, next, ledger, c, None, commit) == Ok(report)
    ensures BeatsOnEvery(c, false) && BeatsOnEvery(c, true) ==> report.status == Pass && report.promoted
    ensures LosesOnEvery(c, false) || LosesOnEvery(c, true) ==> report.status == Fail && !report.promoted
    ensures BeatsOnEvery(c, false) && TiesOnEvery(c, true) ==> report.status == Pass && !report.promoted
    ensures TiesOnEvery(c, false) && BeatsOnEvery(c, true) ==> report.status == Pass && report.promoted
    ensures TiesOnEvery(c, false) && TiesOnEvery(c, true) ==> report.status == Pass && !report.promoted
  {
    var k, f := CompareConcludes(h, p, next, ledger, c, None, commit);
    FindingDecides(p, next, ledger.cells[k], c, None, f);
  }

  /** An approval never promotes, and is refused exactly where nothing regressed or it does not fit. */
  lemma {:induction false} ApprovedComparisonOutcome(h: Suite, p: Papers, next: Generator, ledger: Ledger, c: Comparison, a: Approval, commit: bool, report: Report)
    requires WellFormed(h, ledger) && Compare(h, p, next, ledger, c, Some(a), commit) == Ok(report)
    ensures report.status == Tradeoff && !report.promoted
    ensures a.comparison == c.id && a.cell == c.cell && a.metric == c.metric && a.candidate == c.candidate
    ensures 0.0 < a.required <= a.observed
    ensures !(BeatsOnEvery(c, false) && BeatsOnEvery(c, true)) && !(TiesOnEvery(c, false) && TiesOnEvery(c, true))
  {
    var k, f := CompareConcludes(h, p, next, ledger, c, Some(a), commit);
    FindingDecides(p, next, ledger.cells[k], c, Some(a), f);
  }

  /** An inference from the candidate's gains over an earlier subject. */
  ghost predicate Weighs(next: Generator, c: Comparison, champion: bool, deltas: seq<real>, medians: seq<real>, i: Inference) {
    deltas != [] && GainsOver(c, champion, deltas) && Describes(next, deltas, c.contract, medians, i)
  }

  ghost predicate InferredFrom(next: Generator, c: Comparison, champion: bool, i: Inference) {
    exists deltas, medians :: Weighs(next, c, champion, deltas, medians, i)
  }

  lemma {:induction false} MeasuredFromGains(next: Generator, c: Comparison, champion: bool)
    requires c.pairs != [] && c.contract.iterations > 0
    ensures InferredFrom(next, c, champion, Infer(next, DeltasAgainst(c.pairs, c.metric.higherIsBetter, champion), c.contract))
  {
    var deltas := DeltasAgainst(c.pairs, c.metric.higherIsBetter, champion);
    InferenceMeans(next, deltas, c.contract);
    DeltasAreGains(c, champion);
    assert Weighs(next, c, champion, deltas, Medians(next, deltas, c.contract.seed, c.contract.iterations), Infer(next, deltas, c.contract));
  }

  /** Entirely on one side of zero, or nothing but zero. */
  predicate Gain(i: Inference) {
    i.lower > 0.0
  }

  predicate Setback(i: Inference) {
    i.upper < 0.0
  }

  predicate Nil(i: Inference) {
    i.statistic == 0.0 && i.lower == 0.0 && i.upper == 0.0
  }

  /** Status and promotion, from the intervals of the gains over parent and champion. */
  predicate Settles(parent: Inference, champion: Inference, approved: bool, status: Status, promoted: bool) {
    && (status.Fail? || status.Tradeoff? <==> Setback(parent) || Setback(champion))
    && (status.Tradeoff? <==> approved)
    && (status.Pass? <==> !Setback(parent) && !Setback(champion) && (Gain(parent) || Gain(champion) || (Nil(parent) && Nil(champion))))
    && (promoted <==> status.Pass? && Gain(champion))
  }

  lemma {:induction false} FindingSettles(approval: Option<Approval>, contract: Contract, c: Comparison, f: Finding)
    requires ValidReference(f.parent, contract) && ValidReference(f.champion, contract) && Weighed(approval, c, f).None?
    requires f.status == Settled(f.parent.inference, f.champion.inference, approval.Some?)
    ensures Settles(f.parent.inference, f.champion.inference, approval.Some?, f.status, Promoted(f.status, f.champion.inference))
  {
  }

  lemma {:induction false} FindingInferred(p: Papers, next: Generator, e: Entry, c: Comparison, approval: Option<Approval>, f: Finding)
    requires c.pairs != [] && c.contract.iterations > 0 && e.accepted != [] && e.champions != []
    requires f == Found(p, next, e, c, approval)
    ensures InferredFrom(next, c, false, f.parent.inference) && InferredFrom(next, c, true, f.champion.inference)
  {
    MeasuredFromGains(next, c, false);
    MeasuredFromGains(next, c, true);
  }

  /** The outcome of every comparison that is not refused. */
  lemma {:induction false} ComparisonOutcome(h: Suite, p: Papers, next: Generator, ledger: Ledger, c: Comparison, approval: Option<Approval>, commit: bool, report: Report)
    returns (parent: Inference, champion: Inference)
    requires WellFormed(h, ledger) && Compare(h, p, next, ledger, c, approval, commit) == Ok(report)
    ensures InferredFrom(next, c, false, parent) && InferredFrom(next, c, true, champion)
    ensures Settles(parent, champion, approval.Some?, report.status, report.promoted)
  {
    var k, f := CompareConcludes(h, p, next, ledger, c, approval, commit);
    parent, champion := f.parent.inference, f.champion.inference;
    FindingInferred(p, next, ledger.cells[k], c, approval, f);
    FindingSettles(approval, ledger.cells[k].contract, c, f);
  }

  // ----- what a committed comparison records -----

  /** Values that are the candidate's, pair by pair. */
  predicate CandidatesOf(c: Comparison, values: seq<real>) {
    |values| == |c.pairs| && forall i | 0 <= i < |values| :: values[i] == c.pairs[i].candidate
  }

  /** Values by which the candidate exceeds an earlier subject in the metric's direction, pair by pair. */
  predicate GainsOver(c: Comparison, champion: bool, values: seq<real>) {
    && |values| == |c.pairs|
    && forall i | 0 <= i < |values| ::
         c.pairs[i].candidate == (if c.metric.higherIsBetter then Earlier(c.pairs[i], champion) + values[i] else Earlier(c.pairs[i], champion) - values[i])
  }

  ghost predicate RecordsMedian(c: Comparison, median: real) {
    exists values :: CandidatesOf(c, values) && IsMedian(values, median)
  }

  ghost predicate RecordsGain(c: Comparison, champion: bool, delta: real) {
    exists values :: GainsOver(c, champion, values) && IsMedian(values, delta)
  }

  lemma {:induction false} FindingRecords(p: Papers, next: Generator, e: Entry, c: Comparison, approval: Option<Approval>, f: Finding)
    requires c.pairs != [] && c.contract.iterations > 0 && e.accepted != [] && e.champions != []
    requires f == Found(p, next, e, c, approval)
    ensures RecordsMedian(c, f.median) && RecordsGain(c, false, f.parent.delta) && RecordsGain(c, true, f.champion.delta)
  {
    var values := CandidateValues(c.pairs);
    MedianMeans(values);
    assert CandidatesOf(c, values);
    GainsRecorded(c, false);
    GainsRecorded(c, true);
  }

  lemma {:induction false} GainsRecorded(c: Comparison, champion: bool)
    requires c.pairs != []
    ensures RecordsGain(c, champion, Median(DeltasAgainst(c.pairs, c.metric.higherIsBetter, champion)))
  {
    var deltas := DeltasAgainst(c.pairs, c.metric.higherIsBetter, champion);
    MedianMeans(deltas);
    DeltasAreGains(c, champion);
  }

  lemma {:induction false} DeltasAreGains(c: Comparison, champion: bool)
    ensures GainsOver(c, champion, DeltasAgainst(c.pairs, c.metric.higherIsBetter, champion))
  {
    var deltas := DeltasAgainst(c.pairs, c.metric.higherIsBetter, champion);
    forall i | 0 <= i < |deltas|
      ensures c.pairs[i].candidate == (if c.metric.higherIsBetter then Earlier(c.pairs[i], champion) + deltas[i] else Earlier(c.pairs[i], champion) - deltas[i])
    {
      DeltaMeans(c.pairs[i].candidate, Earlier(c.pairs[i], champion), c.metric.higherIsBetter);
    }
  }

  /** The decision a committed comparison appends to the cell it names. */
  ghost predicate RecordedAt(h: Suite, p: Papers, before: Ledger, after: Ledger, k: nat, c: Comparison, report: Report) {
    && k < |before.cells| == |after.cells| && before.cells[k].key == h.key(c.cell.id, c.metric.id)
    && (forall i | 0 <= i < |before.cells| && i != k :: after.cells[i] == before.cells[i])
    && var was, e := before.cells[k], after.cells[k];
       && |e.accepted| == |was.accepted| + 1 && was.accepted <= e.accepted
       && var b := e.accepted[|was.accepted|].body;
          && b.id == c.id && b.subject == c.candidate && b.evidence == p.comparison(c) && b.pairCount == |c.pairs|
          && b.status == report.status && b.promoted == report.promoted
          && RecordsMedian(c, b.median)
          && b.parent.Some? && RecordsGain(c, false, b.parent.value.delta)
          && b.champion.Some? && RecordsGain(c, true, b.champion.value.delta)
          && (b.promoted ==> |e.champions| == |was.champions| + 1
                             && e.champions[|was.champions|].body.subject == c.candidate && e.champions[|was.champions|].body.median == b.median)
          && (!b.promoted ==> e.champions == was.champions)
  }

  lemma {:induction false} ConcludedRecords(h: Suite, p: Papers, next: Generator, ledger: Ledger, k: nat, c: Comparison, approval: Option<Approval>, f: Finding, report: Report)
    requires k < |ledger.cells| && ledger.cells[k].accepted != [] && ledger.cells[k].champions != [] && c.pairs != [] && c.contract.iterations > 0
    requires ledger.cells[k].key == h.key(c.cell.id, c.metric.id) && f == Found(p, next, ledger.cells[k], c, approval)
    requires report == Concluded(h, ledger, k, c, f, true) && report.committed
    ensures RecordedAt(h, p, ledger, report.ledger, k, c, report)
  {
    FindingRecords(p, next, ledger.cells[k], c, approval, f);
  }

  lemma {:induction false} CommittedComparisonRecords(h: Suite, p: Papers, next: Generator, ledger: Ledger, c: Comparison, approval: Option<Approval>, report: Report)
    returns (k: nat)
    requires WellFormed(h, ledger) && Compare(h, p, next, ledger, c, approval, true) == Ok(report) && report.committed
    ensures RecordedAt(h, p, ledger, report.ledger, k, c, report)
  {
    var f;
    k, f := CompareConcludes(h, p, next, ledger, c, approval, true);
    ConcludedRecords(h, p, next, ledger, k, c, approval, f, report);
  }

  // ----- what a registration records -----

  /** A registration adds one cell, in key order, with one promoted decision and its champion record. */
  lemma {:induction false} RegistrationRecords(h: Suite, p: Papers, ledger: Ledger, r: Registration, after: Ledger) returns (k: nat)
    requires Register(h, p, ledger, r) == Ok(after)
    ensures k < |after.cells| && after.cells == ledger.cells[..k] + [after.cells[k]] + ledger.cells[k..]
    ensures var e := after.cells[k];
      && e.key == h.key(r.cell.id, r.metric.id) && e.cell == r.cell && e.metric == r.metric && e.contract == r.contract && e.required == r.required
      && |e.accepted| == 1 && |e.champions| == 1
      && var b := e.accepted[0].body;
         && b.id == r.id && b.subject == r.subject && b.evidence == p.registration(r) && b.status == Pass && b.promoted
         && b.pairCount == |r.values| >= MINIMUM_PAIRS && IsMedian(r.values, b.median)
         && e.champions[0].body.subject == r.subject && e.champions[0].body.median == b.median && e.champions[0].body.acceptedSequence == 1
  {
    var e := NewEntry(h, r, FirstBody(h, p, r));
    k := Rank(ledger.cells, e.key);
    MedianMeans(r.values);
    assert after.cells[k] == e;
  }

  // ----- the chain of records -----

  /** No two different decisions of the two histories have the same digest. */
  predicate NoCollision(h: Suite, a: seq<Decision>, b: seq<Decision>) {
    forall i, j | 0 <= i < |a| && 0 <= j < |b| :: h.decision(a[i].body) == h.decision(b[j].body) ==> a[i].body == b[j].body
  }

  /** The last hash pins the whole accepted history: valid histories that end in the same hash are the same. */
  lemma {:induction false} LastHashPinsHistory(h: Suite, required: nat, contract: Contract, a: seq<Decision>, b: seq<Decision>)
    requires AcceptedValid(h, required, contract, a) && AcceptedValid(h, required, contract, b) && NoCollision(h, a, b)
    requires a != [] && b != [] && a[|a| - 1].hash == b[|b| - 1].hash
    ensures a == b
    decreases |a|
  {
    var n := |a| - 1;
    assert Descends(h, required, contract, a, n) && Descends(h, required, contract, b, |b| - 1);
    assert a[n] == b[|b| - 1];
    assert |b| == n + 1;
    var c, d := a[..n], b[..n];
    assert a == c + [a[n]] && b == d + [b[n]];
    if n > 0 {
      PrefixValid(h, required, contract, a, n);
      PrefixValid(h, required, contract, b, n);
      assert c[n - 1] == a[n - 1] && d[n - 1] == b[n - 1];
      LastHashPinsHistory(h, required, contract, c, d);
    }
  }

  lemma {:induction false} PrefixValid(h: Suite, required: nat, contract: Contract, a: seq<Decision>, n: nat)
    requires AcceptedValid(h, required, contract, a) && n <= |a|
    ensures AcceptedValid(h, required, contract, a[..n])
  {
    forall i | 0 <= i < n ensures Descends(h, required, contract, a[..n], i) {
      assert Descends(h, required, contract, a, i);
    }
  }
}
