/** Every ledger built by registering and comparing is one `validate_ledger` accepts. */
module LedgerRuns {
  import opened Outcomes
  import opened Statistics
  import opened Bootstrap
  import opened LedgerRecords
  import opened LedgerValidation
  import opened LedgerOperations

  lemma {:induction false} NextBodyFollows(h: Suite, e: Entry, c: Comparison, f: Finding)
    requires EntryValid(h, e) && |c.pairs| >= e.required
    requires ValidReference(f.parent, e.contract) && ValidReference(f.champion, e.contract)
    requires f.parent.digest == e.accepted[|e.accepted| - 1].body.subjectDigest && Some(f.champion.digest) == ActiveChampion(e.accepted)
    requires f.status == Settled(f.parent.inference, f.champion.inference, f.approval.Some?) && (f.status.Pass? || f.status.Tradeoff?)
    requires f.approval.Some? ==> ProvenRegression(f.parent.inference, f.champion.inference)
    ensures Follows(h, e, NextBody(h, e, c, f))
  {
  }

  lemma {:induction false} AppendedUnique(cells: seq<Entry>, k: nat, e: Entry, d: Decision)
    requires UniqueIds(cells) && k < |cells| && e.accepted == cells[k].accepted + [d] && d.body.id !in AllIds(cells)
    ensures UniqueIds(cells[k := e])
  {
    var all := cells[k := e];
    var n := |cells[k].accepted|;
    forall i, a, j, b | 0 <= i < |all| && 0 <= a < |all[i].accepted| && 0 <= j < |all| && 0 <= b < |all[j].accepted| && all[i].accepted[a].body.id == all[j].accepted[b].body.id
      ensures i == j && a == b
    {
      assert !(i == k && a == n) ==> all[i].accepted[a] == cells[i].accepted[a] && all[i].accepted[a].body.id in AllIds(cells);
      assert !(j == k && b == n) ==> all[j].accepted[b] == cells[j].accepted[b] && all[j].accepted[b].body.id in AllIds(cells);
    }
  }

  lemma {:induction false} ConcludedKeepsOrder(h: Suite, ledger: Ledger, k: nat, c: Comparison, f: Finding, commit: bool)
    requires WellFormed(h, ledger) && k < |ledger.cells| && c.id !in AllIds(ledger.cells)
    requires f.status.Pass? || f.status.Tradeoff? ==> Follows(h, ledger.cells[k], NextBody(h, ledger.cells[k], c, f))
    ensures WellFormed(h, Concluded(h, ledger, k, c, f, commit).ledger)
  {
    if commit && (f.status.Pass? || f.status.Tradeoff?) {
      var body := NextBody(h, ledger.cells[k], c, f);
      var e := Accepting(h, ledger.cells[k], body);
      AcceptingKeepsEntry(h, ledger.cells[k], body);
      AppendedUnique(ledger.cells, k, e, Sealed(h, body));
    }
  }

  /** What a comparison finds is fit to be recorded. */
  predicate Fits(e: Entry, f: Finding, approved: bool) {
    && e.accepted != []
    && ValidReference(f.parent, e.contract) && ValidReference(f.champion, e.contract)
    && f.parent.digest == e.accepted[|e.accepted| - 1].body.subjectDigest && Some(f.champion.digest) == ActiveChampion(e.accepted)
    && f.status == Settled(f.parent.inference, f.champion.inference, approved) && f.approval.Some? == approved
  }

  lemma {:induction false} FoundFits(h: Suite, p: Papers, next: Generator, e: Entry, c: Comparison, approval: Option<Approval>, f: Finding)
    requires EntryValid(h, e) && c.contract == e.contract && c.pairs != [] && e.champions != []
    requires f == Found(p, next, e, c, approval)
    ensures Fits(e, f, approval.Some?)
  {
    EntryHasChampions(h, e);
    MeasuredIsValid(next, f.parent.digest, DeltasAgainst(c.pairs, c.metric.higherIsBetter, false), c.contract);
    MeasuredIsValid(next, f.champion.digest, DeltasAgainst(c.pairs, c.metric.higherIsBetter, true), c.contract);
  }

  lemma {:induction false} FittingKeepsOrder(h: Suite, ledger: Ledger, k: nat, c: Comparison, f: Finding, approval: Option<Approval>, commit: bool)
    requires WellFormed(h, ledger) && k < |ledger.cells| && c.id !in AllIds(ledger.cells)
    requires Fits(ledger.cells[k], f, approval.Some?) && Weighed(approval, c, f).None? && |c.pairs| >= ledger.cells[k].required
    ensures WellFormed(h, Concluded(h, ledger, k, c, f, commit).ledger)
  {
    if f.status.Pass? || f.status.Tradeoff? {
      NextBodyFollows(h, ledger.cells[k], c, f);
    }
    ConcludedKeepsOrder(h, ledger, k, c, f, commit);
  }

  /** A comparison that is not refused concludes from a fitting finding about a known cell. */
  lemma {:induction false} CompareConcludes(h: Suite, p: Papers, next: Generator, ledger: Ledger, c: Comparison, approval: Option<Approval>, commit: bool)
    returns (k: nat, f: Finding)
    requires WellFormed(h, ledger) && Compare(h, p, next, ledger, c, approval, commit).Ok?
    ensures k < |ledger.cells| && c.id !in AllIds(ledger.cells) && ledger.cells[k].accepted != []
    ensures Fits(ledger.cells[k], f, approval.Some?) && Weighed(approval, c, f).None? && |c.pairs| >= ledger.cells[k].required
    ensures SameContract(c, ledger.cells[k]) && ledger.cells[k].champions != [] && c.pairs != [] && c.contract.iterations > 0
    ensures c.parent == ledger.cells[k].accepted[|ledger.cells[k].accepted| - 1].body.subject
    ensures c.champion == ledger.cells[k].champions[|ledger.cells[k].champions| - 1].body.subject
    ensures f == Found(p, next, ledger.cells[k], c, approval) && ledger.cells[k].key == h.key(c.cell.id, c.metric.id)
    ensures Compare(h, p, next, ledger, c, approval, commit).value == Concluded(h, ledger, k, c, f, commit)
  {
    k := Find(ledger.cells, h.key(c.cell.id, c.metric.id)).value;
    var e := ledger.cells[k];
    EntryHasChampions(h, e);
    f := Found(p, next, e, c, approval);
    FoundFits(h, p, next, e, c, approval, f);
  }

  // ----- histories only grow -----

  predicate Extends(e: Entry, f: Entry) {
    && f.key == e.key && f.cell == e.cell && f.metric == e.metric && f.contract == e.contract && f.required == e.required
    && e.accepted <= f.accepted && e.champions <= f.champions
  }

  predicate HasExtension(e: Entry, cells: seq<Entry>) {
    exists j | 0 <= j < |cells| :: Extends(e, cells[j])
  }

  /** Every cell is still there and its histories only had records appended. */
  predicate Grows(before: Ledger, after: Ledger) {
    after.baseline == before.baseline && forall i | 0 <= i < |before.cells| :: HasExtension(before.cells[i], after.cells)
  }

  lemma {:induction false} GrowsTransitive(a: Ledger, b: Ledger, c: Ledger)
    requires Grows(a, b) && Grows(b, c)
    ensures Grows(a, c)
  {
    forall i | 0 <= i < |a.cells| ensures HasExtension(a.cells[i], c.cells) {
      assert HasExtension(a.cells[i], b.cells);
      var j :| 0 <= j < |b.cells| && Extends(a.cells[i], b.cells[j]);
      assert HasExtension(b.cells[j], c.cells);
      var k :| 0 <= k < |c.cells| && Extends(b.cells[j], c.cells[k]);
      assert Extends(a.cells[i], c.cells[k]);
    }
  }

  lemma {:induction false} RegisterGrows(h: Suite, p: Papers, ledger: Ledger, r: Registration)
    requires Register(h, p, ledger, r).Ok?
    ensures Grows(ledger, Register(h, p, ledger, r).value)
  {
    var e := NewEntry(h, r, FirstBody(h, p, r));
    var k := Rank(ledger.cells, e.key);
    var all := Inserted(ledger.cells, e);
    forall i | 0 <= i < |ledger.cells| ensures HasExtension(ledger.cells[i], all) {
      var j := if i < k then i else i + 1;
      assert all[j] == ledger.cells[i];
      assert Extends(ledger.cells[i], all[j]);
    }
  }

  lemma {:induction false} ConcludedGrows(h: Suite, ledger: Ledger, k: nat, c: Comparison, f: Finding, commit: bool)
    requires k < |ledger.cells| && ledger.cells[k].accepted != []
    ensures Grows(ledger, Concluded(h, ledger, k, c, f, commit).ledger)
  {
    var after := Concluded(h, ledger, k, c, f, commit).ledger;
    forall i | 0 <= i < |ledger.cells| ensures HasExtension(ledger.cells[i], after.cells) {
      assert Extends(ledger.cells[i], after.cells[i]);
    }
  }

  /** A comparison that is not refused keeps the ledger in order and changes it exactly when it commits an accepted status. */
  lemma {:induction false} CompareKeeps(h: Suite, p: Papers, next: Generator, ledger: Ledger, c: Comparison, approval: Option<Approval>, commit: bool, report: Report)
    requires WellFormed(h, ledger) && Compare(h, p, next, ledger, c, approval, commit) == Ok(report)
    ensures WellFormed(h, report.ledger) && Grows(ledger, report.ledger)
    ensures report.committed <==> commit && (report.status.Pass? || report.status.Tradeoff?)
    ensures report.ledger == ledger <==> !report.committed
  {
    var k, f := CompareConcludes(h, p, next, ledger, c, approval, commit);
    ConcludedKeeps(h, ledger, k, c, f, approval, commit, report);
  }

  lemma {:induction false} ConcludedKeeps(h: Suite, ledger: Ledger, k: nat, c: Comparison, f: Finding, approval: Option<Approval>, commit: bool, report: Report)
    requires WellFormed(h, ledger) && k < |ledger.cells| && c.id !in AllIds(ledger.cells) && ledger.cells[k].accepted != []
    requires Fits(ledger.cells[k], f, approval.Some?) && Weighed(approval, c, f).None? && |c.pairs| >= ledger.cells[k].required
    requires report == Concluded(h, ledger, k, c, f, commit)
    ensures WellFormed(h, report.ledger) && Grows(ledger, report.ledger)
    ensures report.committed <==> commit && (report.status.Pass? || report.status.Tradeoff?)
    ensures report.ledger == ledger <==> !report.committed
  {
    FittingKeepsOrder(h, ledger, k, c, f, approval, commit);
    ConcludedGrows(h, ledger, k, c, f, commit);
    ConcludedChanges(h, ledger, k, c, f, commit);
  }

  lemma {:induction false} ConcludedChanges(h: Suite, ledger: Ledger, k: nat, c: Comparison, f: Finding, commit: bool)
    requires k < |ledger.cells| && ledger.cells[k].accepted != []
    ensures var report := Concluded(h, ledger, k, c, f, commit);
      && (report.committed <==> commit && (report.status.Pass? || report.status.Tradeoff?))
      && (report.ledger == ledger <==> !report.committed)
  {
    var report := Concluded(h, ledger, k, c, f, commit);
    if report.committed {
      assert |report.ledger.cells[k].accepted| == |ledger.cells[k].accepted| + 1;
    }
  }

  // ----- whole runs -----

  datatype Operation = Registering(registration: Registration) | Comparing(comparison: Comparison, approval: Option<Approval>, commit: bool)

  /** A refused operation leaves the ledger as it was. */
  function Perform(h: Suite, p: Papers, next: Generator, ledger: Ledger, op: Operation): Ledger
    requires WellFormed(h, ledger)
  {
    match op
    case Registering(r) => (match Register(h, p, ledger, r) case Ok(after) => after case Err(_) => ledger)
    case Comparing(c, approval, commit) => (match Compare(h, p, next, ledger, c, approval, commit) case Ok(report) => report.ledger case Err(_) => ledger)
  }

  lemma {:induction false} PerformKeeps(h: Suite, p: Papers, next: Generator, ledger: Ledger, op: Operation)
    requires WellFormed(h, ledger)
    ensures WellFormed(h, Perform(h, p, next, ledger, op)) && Grows(ledger, Perform(h, p, next, ledger, op))
  {
    forall i | 0 <= i < |ledger.cells| ensures HasExtension(ledger.cells[i], ledger.cells) {
      assert Extends(ledger.cells[i], ledger.cells[i]);
    }
    match op {
      case Registering(r) =>
        if Register(h, p, ledger, r).Ok? {
          RegisterKeepsOrder(h, p, ledger, r);
          RegisterGrows(h, p, ledger, r);
        }
      case Comparing(c, approval, commit) =>
        if Compare(h, p, next, ledger, c, approval, commit).Ok? {
          CompareKeeps(h, p, next, ledger, c, approval, commit, Compare(h, p, next, ledger, c, approval, commit).value);
        }
    }
  }

  /** The states of a run, each from the one before by one operation. */
  ghost predicate IsRun(h: Suite, p: Papers, next: Generator, states: seq<Ledger>, ops: seq<Operation>) {
    && |states| == |ops| + 1
    && states[0].cells == []
    && forall i | 0 <= i < |ops| :: WellFormed(h, states[i]) ==> states[i + 1] == Perform(h, p, next, states[i], ops[i])
  }

  lemma {:induction false} EveryStateIsValid(h: Suite, p: Papers, next: Generator, states: seq<Ledger>, ops: seq<Operation>, i: nat)
    requires IsRun(h, p, next, states, ops) && i <= |ops|
    ensures WellFormed(h, states[i])
  {
    if i > 0 {
      EveryStateIsValid(h, p, next, states, ops, i - 1);
      assert states[i - 1 + 1] == Perform(h, p, next, states[i - 1], ops[i - 1]);
      PerformKeeps(h, p, next, states[i - 1], ops[i - 1]);
    }
  }

  /** Along every run from an empty ledger the validator accepts and histories only grow. */
  lemma {:induction false} HistoriesAppendOnly(h: Suite, p: Papers, next: Generator, states: seq<Ledger>, ops: seq<Operation>, i: nat, j: nat)
    requires IsRun(h, p, next, states, ops) && i <= j <= |ops|
    ensures WellFormed(h, states[j]) && Grows(states[i], states[j])
    decreases j - i
  {
    EveryStateIsValid(h, p, next, states, ops, j);
    if i == j {
      forall k | 0 <= k < |states[i].cells| ensures HasExtension(states[i].cells[k], states[i].cells) {
        assert Extends(states[i].cells[k], states[i].cells[k]);
      }
    } else {
      HistoriesAppendOnly(h, p, next, states, ops, i, j - 1);
      assert states[j - 1 + 1] == Perform(h, p, next, states[j - 1], ops[j - 1]);
      PerformKeeps(h, p, next, states[j - 1], ops[j - 1]);
      GrowsTransitive(states[i], states[j - 1], states[j]);
    }
  }

  /** In a ledger that validates, an approved tradeoff leaves the champion in place. */
  lemma {:induction false} TradeoffKeepsChampion(h: Suite, e: Entry, i: nat)
    requires EntryValid(h, e) && i < |e.accepted| && e.accepted[i].body.status.Tradeoff?
    ensures ActiveChampion(e.accepted[..i + 1]) == ActiveChampion(e.accepted[..i])
    ensures Champions(h, e.accepted[..i + 1]) == Champions(h, e.accepted[..i])
  {
    assert Descends(h, e.required, e.contract, e.accepted, i);
    assert e.accepted[..i + 1][..i] == e.accepted[..i];
  }

  lemma {:induction false} CompareReports(h: Suite, p: Papers, next: Generator, ledger: Ledger, c: Comparison, approval: Option<Approval>, commit: bool, r: Result<Report, Refusal>)
    requires WellFormed(h, ledger) && r == Compare(h, p, next, ledger, c, approval, commit)
    ensures r != Err(InvalidLedger)
    ensures r.Ok? ==> WellFormed(h, r.value.ledger) && r.value.ledger.baseline == ledger.baseline && (!r.value.committed ==> r.value.ledger == ledger)
  {
    if r.Ok? {
      CompareKeeps(h, p, next, ledger, c, approval, commit, r.value);
    }
  }

  // ----- the ledger object -----

  class PerformanceLedger {
    var baseline: Digest
    var cells: seq<Entry>

    function View(): Ledger
      reads this
    {
      Ledger(baseline, cells)
    }

    constructor (lock: Digest)
      ensures View() == Ledger(lock, [])
    {
      baseline, cells := lock, [];
    }

    /** Validates, appends the first decision and champion of a cell, sorts, and validates again. */
    method RegisterChampion(h: Suite, p: Papers, r: Registration, lock: Digest) returns (refusal: Option<Refusal>)
      modifies this`cells
      ensures refusal == Some(InvalidLedger) <==> !WellFormed(h, old(View())) || lock != baseline
      ensures refusal != Some(InvalidLedger) ==> match Register(h, p, old(View()), r)
        case Ok(after) => refusal == None && View() == after && WellFormed(h, after)
        case Err(e) => refusal == Some(e) && View() == old(View())
      ensures refusal.Some? ==> View() == old(View())
    {
      var valid := ValidateLedger(h, View(), Some(lock));
      if !valid {
        return Some(InvalidLedger);
      }
      var outcome := Register(h, p, View(), r);
      if outcome.Err? {
        return Some(outcome.error);
      }
      RegisterKeepsOrder(h, p, View(), r);
      cells := Inserted(cells, NewEntry(h, r, FirstBody(h, p, r)));
      valid := ValidateLedger(h, View(), Some(lock));
      assert valid;
      refusal := None;
    }

    /** Validates, compares, and on a committed acceptance appends and validates again. */
    method CompareCandidate(h: Suite, p: Papers, next: Generator, c: Comparison, approval: Option<Approval>, commit: bool, lock: Digest)
      returns (r: Result<Report, Refusal>)
      modifies this`cells
      ensures r == Err(InvalidLedger) <==> !WellFormed(h, old(View())) || lock != baseline
      ensures r != Err(InvalidLedger) ==> r == Compare(h, p, next, old(View()), c, approval, commit) && WellFormed(h, View())
      ensures View() == if r.Ok? then r.value.ledger else old(View())
    {
      var valid := ValidateLedger(h, View(), Some(lock));
      if !valid {
        return Err(InvalidLedger);
      }
      r := Compare(h, p, next, View(), c, approval, commit);
      CompareReports(h, p, next, View(), c, approval, commit, r);
      if r.Ok? && r.value.committed {
        cells := r.value.ledger.cells;
        valid := ValidateLedger(h, View(), Some(lock));
        assert valid;
      }
    }
  }
}
