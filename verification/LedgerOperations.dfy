/** `register_champion` and `compare_candidate`: what they append, and what they leave alone. */
module LedgerOperations {
  import opened Outcomes
  import opened Statistics
  import opened Bootstrap
  import opened LedgerRecords
  import opened LedgerValidation

  // ----- evidence, already normalised: repetitions and pairs sorted by their ids -----

  datatype Registration = Registration(
    id: Identifier, cell: Cell, metric: Metric, contract: Contract, baseline: Digest, subject: Subject, required: nat, values: seq<real>)

  datatype Triple = Triple(candidate: real, parent: real, champion: real)

  datatype Comparison = Comparison(
    id: Identifier, cell: Cell, metric: Metric, contract: Contract, baseline: Digest,
    candidate: Subject, parent: Subject, champion: Subject, required: nat, pairs: seq<Triple>)

  /** An approved tradeoff, with the gain it required and the gain that was observed. */
  datatype Approval = Approval(comparison: Identifier, cell: Cell, metric: Metric, candidate: Subject, required: real, observed: real)

  /** The digests of evidence documents. */
  datatype Papers = Papers(registration: Registration -> Digest, comparison: Comparison -> Digest, approval: Approval -> Digest)

  datatype Refusal =
    | InvalidLedger | InvalidEvidence | WrongBaseline | AlreadyRegistered | DuplicateId | UnknownCell
    | ContractMismatch | WrongParent | WrongChampion | NoRegression | TradeoffMismatch

  // ----- registration -----

  function FirstBody(h: Suite, p: Papers, r: Registration): DecisionBody
    requires r.values != []
  {
    DecisionBody(1, r.id, Pass, r.subject, h.subject(r.subject), p.registration(r), |r.values|, Median(r.values), None, None, true, None, None, None)
  }

  function Sealed(h: Suite, body: DecisionBody): Decision {
    Decision(body, h.decision(body))
  }

  function NewEntry(h: Suite, r: Registration, body: DecisionBody): Entry {
    Entry(h.key(r.cell.id, r.metric.id), r.cell, r.metric, r.contract, r.required, [Sealed(h, body)], [ChampionOf(h, body, 1, None)])
  }

  /** How many cells sort before `key`. */
  function Rank(cells: seq<Entry>, key: Key): (k: nat)
    ensures k <= |cells|
  {
    if cells == [] || key < cells[0].key then 0 else 1 + Rank(cells[1..], key)
  }

  /** The cells with one more, in key order. */
  function Inserted(cells: seq<Entry>, e: Entry): seq<Entry> {
    var k := Rank(cells, e.key);
    cells[..k] + [e] + cells[k..]
  }

  predicate HasKey(cells: seq<Entry>, key: Key) {
    exists i | 0 <= i < |cells| :: cells[i].key == key
  }

  function Register(h: Suite, p: Papers, ledger: Ledger, r: Registration): Result<Ledger, Refusal> {
    if !ValidContract(r.contract) || r.required < MINIMUM_PAIRS || |r.values| < r.required then Err(InvalidEvidence)
    else if r.baseline != ledger.baseline then Err(WrongBaseline)
    else if HasKey(ledger.cells, h.key(r.cell.id, r.metric.id)) then Err(AlreadyRegistered)
    else if r.id in AllIds(ledger.cells) then Err(DuplicateId)
    else Ok(Ledger(ledger.baseline, Inserted(ledger.cells, NewEntry(h, r, FirstBody(h, p, r)))))
  }

  lemma {:induction false} FirstEntryValid(h: Suite, r: Registration, body: DecisionBody)
    requires ValidContract(r.contract) && r.required >= MINIMUM_PAIRS && body.pairCount >= r.required
    requires body.sequence == 1 && body.subjectDigest == h.subject(body.subject) && InitialDecision(body)
    ensures EntryValid(h, NewEntry(h, r, body))
  {
    var e := NewEntry(h, r, body);
    assert e.accepted[..0] == [];
    assert Descends(h, e.required, e.contract, e.accepted, 0);
    assert Champions(h, e.accepted[..0]) == [];
  }

  lemma {:induction false} RankSplits(cells: seq<Entry>, key: Key)
    requires KeysAscend(cells) && !HasKey(cells, key)
    ensures forall i | 0 <= i < |cells| :: i < Rank(cells, key) <==> cells[i].key < key
  {
    if cells != [] {
      assert cells[0].key != key;
      if cells[0].key < key {
        var rest := cells[1..];
        forall i | 0 <= i < |rest| ensures rest[i].key != key {
          assert cells[i + 1].key != key;
        }
        RankSplits(rest, key);
        forall i | 0 <= i < |cells| ensures i < Rank(cells, key) <==> cells[i].key < key {
          if i > 0 {
            assert cells[i] == rest[i - 1];
          }
        }
      }
    }
  }

  lemma {:induction false} InsertedAscends(cells: seq<Entry>, e: Entry)
    requires KeysAscend(cells) && !HasKey(cells, e.key)
    ensures KeysAscend(Inserted(cells, e))
  {
    RankSplits(cells, e.key);
    var k := Rank(cells, e.key);
    var all := Inserted(cells, e);
    forall i, j | 0 <= i < j < |all| ensures all[i].key < all[j].key {
      assert i < k ==> all[i] == cells[i];
      assert i > k ==> all[i] == cells[i - 1];
      assert j < k ==> all[j] == cells[j];
      assert j > k ==> all[j] == cells[j - 1];
    }
  }

  lemma {:induction false} InsertedUnique(cells: seq<Entry>, e: Entry, k: nat)
    requires UniqueIds(cells) && FreshIds(e.accepted, AllIds(cells)) && k <= |cells|
    ensures UniqueIds(cells[..k] + [e] + cells[k..])
  {
    var all := cells[..k] + [e] + cells[k..];
    forall i, a, j, b | 0 <= i < |all| && 0 <= a < |all[i].accepted| && 0 <= j < |all| && 0 <= b < |all[j].accepted| && all[i].accepted[a].body.id == all[j].accepted[b].body.id
      ensures i == j && a == b
    {
      var s, t := if i < k then i else i - 1, if j < k then j else j - 1;
      assert i != k ==> all[i] == cells[s] && all[i].accepted[a].body.id in AllIds(cells);
      assert j != k ==> all[j] == cells[t] && all[j].accepted[b].body.id in AllIds(cells);
    }
  }

  /** A registration that is not refused yields a ledger in order. */
  lemma {:induction false} RegisterKeepsOrder(h: Suite, p: Papers, ledger: Ledger, r: Registration)
    requires WellFormed(h, ledger) && Register(h, p, ledger, r).Ok?
    ensures WellFormed(h, Register(h, p, ledger, r).value)
  {
    var body := FirstBody(h, p, r);
    var e := NewEntry(h, r, body);
    FirstEntryValid(h, r, body);
    InsertedAscends(ledger.cells, e);
    InsertedUnique(ledger.cells, e, Rank(ledger.cells, e.key));
    var all := Inserted(ledger.cells, e);
    forall i | 0 <= i < |all| ensures EntryValid(h, all[i]) {
      var k := Rank(ledger.cells, e.key);
      assert i < k ==> all[i] == ledger.cells[i];
      assert i > k ==> all[i] == ledger.cells[i - 1];
    }
  }

  // ----- comparison -----

  function DeltasAgainst(pairs: seq<Triple>, higherIsBetter: bool, champion: bool): (r: seq<real>)
    ensures |r| == |pairs|
  {
    seq(|pairs|, i requires 0 <= i < |pairs| =>
      NormalizedDelta(pairs[i].candidate, if champion then pairs[i].champion else pairs[i].parent, higherIsBetter))
  }

  function CandidateValues(pairs: seq<Triple>): (r: seq<real>)
    ensures |r| == |pairs|
  {
    seq(|pairs|, i requires 0 <= i < |pairs| => pairs[i].candidate)
  }

  function Measured(next: Generator, digest: Digest, deltas: seq<real>, contract: Contract): Reference
    requires deltas != [] && contract.iterations > 0
  {
    Reference(digest, Median(deltas), Infer(next, deltas, contract))
  }

  lemma {:induction false} MeasuredIsValid(next: Generator, digest: Digest, deltas: seq<real>, contract: Contract)
    requires deltas != [] && contract.iterations > 0
    ensures ValidReference(Measured(next, digest, deltas, contract), contract)
  {
    IntervalOrdered(next, deltas, contract);
  }

  function Settled(parent: Inference, champion: Inference, approved: bool): Status {
    if ProvenRegression(parent, champion) then
      if approved then Tradeoff else Fail
    else if OrdinaryPass(parent, champion) then Pass
    else Undecided
  }

  predicate Promoted(status: Status, champion: Inference) {
    status.Pass? && champion.verdict.Improvement?
  }

  /** What a comparison found: the two references, the status it settles to and the approval's digest. */
  datatype Finding = Finding(median: real, evidence: Digest, parent: Reference, champion: Reference, status: Status, approval: Option<Digest>)

  function NextBody(h: Suite, e: Entry, c: Comparison, f: Finding): DecisionBody
    requires e.accepted != []
  {
    DecisionBody(
      |e.accepted| + 1, c.id, f.status, c.candidate, h.subject(c.candidate), f.evidence, |c.pairs|, f.median,
      Some(f.parent), Some(f.champion), Promoted(f.status, f.champion.inference), f.approval,
      if f.approval.Some? then Some(ObservedRegression(f.parent, f.champion)) else None,
      Some(e.accepted[|e.accepted| - 1].hash))
  }

  /** Appends the decision and, when it is promoted, its champion record. */
  function Accepting(h: Suite, e: Entry, body: DecisionBody): Entry {
    e.(accepted := e.accepted + [Sealed(h, body)],
       champions := if body.promoted then e.champions + [ChampionOf(h, body, |e.champions| + 1, HashOfLast(e.champions))] else e.champions)
  }

  predicate Follows(h: Suite, e: Entry, body: DecisionBody) {
    && e.accepted != []
    && body.sequence == |e.accepted| + 1 && (body.status.Pass? || body.status.Tradeoff?)
    && body.subjectDigest == h.subject(body.subject) && body.pairCount >= e.required
    && LaterDecision(body, e.contract, Some(e.accepted[|e.accepted| - 1].hash))
    && body.parent.value.digest == e.accepted[|e.accepted| - 1].body.subjectDigest
    && Some(body.champion.value.digest) == ActiveChampion(e.accepted)
  }

  lemma {:induction false} AcceptedGrows(h: Suite, required: nat, contract: Contract, accepted: seq<Decision>, d: Decision)
    requires AcceptedValid(h, required, contract, accepted) && ChampionsNamed(accepted) && accepted != []
    requires ValidDecision(h, d, |accepted|, required, contract, HashBefore(accepted, |accepted|))
    requires d.body.parent.value.digest == accepted[|accepted| - 1].body.subjectDigest
    requires Some(d.body.champion.value.digest) == ActiveChampion(accepted)
    ensures AcceptedValid(h, required, contract, accepted + [d])
    ensures ChampionsNamed(accepted + [d])
  {
    var all := accepted + [d];
    assert all[..|accepted|] == accepted;
    forall i | 0 <= i < |all| ensures Descends(h, required, contract, all, i) {
      if i < |accepted| {
        assert Descends(h, required, contract, accepted, i);
      }
    }
    assert forall i | 0 <= i < |accepted| :: all[..i] == accepted[..i];
  }

  lemma {:induction false} AcceptingKeepsEntry(h: Suite, e: Entry, body: DecisionBody)
    requires EntryValid(h, e) && Follows(h, e, body)
    ensures EntryValid(h, Accepting(h, e, body))
  {
    AcceptedGrows(h, e.required, e.contract, e.accepted, Sealed(h, body));
    var all := Accepting(h, e, body).accepted;
    assert all[..|e.accepted|] == e.accepted;
  }

  function Find(cells: seq<Entry>, key: Key): (r: Option<nat>)
    ensures r.Some? ==> r.value < |cells| && cells[r.value].key == key
    ensures r.None? <==> !HasKey(cells, key)
  {
    if cells == [] then None
    else if cells[0].key == key then Some(0)
    else
      assert forall i | 1 <= i < |cells| :: cells[i] == cells[1..][i - 1];
      match Find(cells[1..], key)
      case Some(k) => Some(k + 1)
      case None => None
  }

  predicate SameContract(c: Comparison, e: Entry) {
    c.cell == e.cell && c.metric == e.metric && c.contract == e.contract && c.required == e.required
  }

  predicate ApprovalFits(a: Approval, c: Comparison) {
    a.comparison == c.id && a.cell == c.cell && a.metric == c.metric && a.candidate == c.candidate
  }

  function Found(p: Papers, next: Generator, e: Entry, c: Comparison, approval: Option<Approval>): Finding
    requires c.pairs != [] && c.contract.iterations > 0 && e.accepted != [] && e.champions != []
  {
    var parent := Measured(next, e.accepted[|e.accepted| - 1].body.subjectDigest, DeltasAgainst(c.pairs, c.metric.higherIsBetter, false), c.contract);
    var champion := Measured(next, e.champions[|e.champions| - 1].body.subjectDigest, DeltasAgainst(c.pairs, c.metric.higherIsBetter, true), c.contract);
    Finding(
      Median(CandidateValues(c.pairs)), p.comparison(c), parent, champion,
      Settled(parent.inference, champion.inference, approval.Some?), if approval.Some? then Some(p.approval(approval.value)) else None)
  }

  datatype Report = Report(ledger: Ledger, status: Status, promoted: bool, committed: bool)

  /** The checks on the evidence before any statistics. */
  function Screened(ledger: Ledger, e: Entry, c: Comparison): (r: Option<Refusal>)
    requires e.accepted != [] && e.champions != []
    ensures r != Some(InvalidLedger)
  {
    if !SameContract(c, e) then Some(ContractMismatch)
    else if c.parent != e.accepted[|e.accepted| - 1].body.subject then Some(WrongParent)
    else if c.champion != e.champions[|e.champions| - 1].body.subject then Some(WrongChampion)
    else if c.id in AllIds(ledger.cells) then Some(DuplicateId)
    else None
  }

  function Weighed(approval: Option<Approval>, c: Comparison, f: Finding): (r: Option<Refusal>)
    ensures r != Some(InvalidLedger)
  {
    if approval.None? then None
    else if approval.value.required <= 0.0 || approval.value.observed < approval.value.required then Some(InvalidEvidence)
    else if !ProvenRegression(f.parent.inference, f.champion.inference) then Some(NoRegression)
    else if !ApprovalFits(approval.value, c) then Some(TradeoffMismatch)
    else None
  }

  function Concluded(h: Suite, ledger: Ledger, k: nat, c: Comparison, f: Finding, commit: bool): Report
    requires k < |ledger.cells| && ledger.cells[k].accepted != []
  {
    var promoted := Promoted(f.status, f.champion.inference);
    if commit && (f.status.Pass? || f.status.Tradeoff?) then
      var e := Accepting(h, ledger.cells[k], NextBody(h, ledger.cells[k], c, f));
      Report(Ledger(ledger.baseline, ledger.cells[k := e]), f.status, promoted, true)
    else Report(ledger, f.status, promoted, false)
  }

  function Compare(h: Suite, p: Papers, next: Generator, ledger: Ledger, c: Comparison, approval: Option<Approval>, commit: bool): (r: Result<Report, Refusal>)
    requires WellFormed(h, ledger)
    ensures r != Err(InvalidLedger)
  {
    if !ValidContract(c.contract) || c.required < MINIMUM_PAIRS || |c.pairs| < c.required then Err(InvalidEvidence)
    else if c.baseline != ledger.baseline then Err(WrongBaseline)
    else match Find(ledger.cells, h.key(c.cell.id, c.metric.id))
      case None => Err(UnknownCell)
      case Some(k) =>
        var e := ledger.cells[k];
        EntryHasChampions(h, e);
        match Screened(ledger, e, c)
        case Some(refusal) => Err(refusal)
        case None =>
          var f := Found(p, next, e, c, approval);
          match Weighed(approval, c, f)
          case Some(refusal) => Err(refusal)
          case None => Ok(Concluded(h, ledger, k, c, f, commit))
  }

  lemma {:induction false} EntryHasChampions(h: Suite, e: Entry)
    requires EntryValid(h, e)
    ensures e.champions != [] && ActiveChampion(e.accepted) == Some(e.champions[|e.champions| - 1].body.subjectDigest)
  {
    assert Descends(h, e.required, e.contract, e.accepted, 0);
    LastChampionIsActive(h, e.accepted);
  }
}
