/**
 The two linked histories of the champion ledger (`lab/performance_ledger.py`): records,
 what the validator demands of each, and which champion history fits an accepted history.
 */
module LedgerRecords {
  import opened Outcomes
  import opened Bootstrap

  type Digest = nat
  type Identifier = nat
  type Subject = nat
  type Key = nat

  datatype Cell = Cell(id: Identifier, dimensions: nat)

  datatype Metric = Metric(id: Identifier, higherIsBetter: bool, unit: nat)

  datatype Status = Pass | Tradeoff | Fail | Undecided

  /** What a decision says about an earlier subject it was compared with. */
  datatype Reference = Reference(digest: Digest, delta: real, inference: Inference)

  datatype DecisionBody = DecisionBody(
    sequence: nat, id: Identifier, status: Status, subject: Subject, subjectDigest: Digest, evidence: Digest,
    pairCount: nat, median: real, parent: Option<Reference>, champion: Option<Reference>, promoted: bool,
    tradeoff: Option<Digest>, regression: Option<real>, previous: Option<Digest>)

  datatype Decision = Decision(body: DecisionBody, hash: Digest)

  datatype ChampionBody = ChampionBody(
    sequence: nat, acceptedSequence: nat, id: Identifier, subject: Subject, subjectDigest: Digest, evidence: Digest,
    median: real, observations: nat, previous: Option<Digest>)

  datatype Champion = Champion(body: ChampionBody, hash: Digest)

  datatype Entry = Entry(
    key: Key, cell: Cell, metric: Metric, contract: Contract, required: nat, accepted: seq<Decision>, champions: seq<Champion>)

  datatype Ledger = Ledger(baseline: Digest, cells: seq<Entry>)

  const MINIMUM_PAIRS: nat := 7

  /** The digest of each kind of document, and the key of a cell and metric, as unknown functions. */
  datatype Suite = Suite(
    subject: Subject -> Digest, decision: DecisionBody -> Digest, champion: ChampionBody -> Digest, key: (Identifier, Identifier) -> Key)

  // ----- one decision record -----

  predicate ValidInference(i: Inference, contract: Contract) {
    i.contract == contract && i.lower <= i.upper && i.verdict == Classify(i.lower, i.upper)
  }

  predicate Equivalent(i: Inference) {
    i.statistic == 0.0 && i.lower == 0.0 && i.upper == 0.0
  }

  predicate ProvenRegression(parent: Inference, champion: Inference) {
    parent.verdict.Regression? || champion.verdict.Regression?
  }

  predicate OrdinaryPass(parent: Inference, champion: Inference) {
    && !ProvenRegression(parent, champion)
    && (parent.verdict.Improvement? || champion.verdict.Improvement? || (Equivalent(parent) && Equivalent(champion)))
  }

  function Largest(a: real, b: real, c: real): real {
    var m := if a >= b then a else b;
    if m >= c then m else c
  }

  function ObservedRegression(parent: Reference, champion: Reference): real {
    Largest(0.0, -parent.delta, -champion.delta)
  }

  predicate ValidReference(r: Reference, contract: Contract) {
    ValidInference(r.inference, contract) && r.inference.statistic == r.delta
  }

  predicate InitialDecision(b: DecisionBody) {
    && b.parent.None? && b.champion.None? && b.tradeoff.None? && b.regression.None? && b.previous.None?
    && b.status.Pass? && b.promoted
  }

  predicate LaterDecision(b: DecisionBody, contract: Contract, previous: Option<Digest>) {
    && b.parent.Some? && b.champion.Some?
    && b.previous == previous
    && ValidReference(b.parent.value, contract) && ValidReference(b.champion.value, contract)
    && if b.status.Tradeoff? then
         && b.tradeoff.Some? && !b.promoted
         && ProvenRegression(b.parent.value.inference, b.champion.value.inference)
         && b.regression == Some(ObservedRegression(b.parent.value, b.champion.value))
       else
         && b.tradeoff.None? && b.regression.None?
         && OrdinaryPass(b.parent.value.inference, b.champion.value.inference)
         && b.promoted == b.champion.value.inference.verdict.Improvement?
  }

  predicate ValidDecision(h: Suite, r: Decision, index: nat, required: nat, contract: Contract, previous: Option<Digest>) {
    && r.body.sequence == index + 1
    && (r.body.status.Pass? || r.body.status.Tradeoff?)
    && r.body.subjectDigest == h.subject(r.body.subject)
    && r.body.pairCount >= required
    && (if index == 0 then InitialDecision(r.body) else LaterDecision(r.body, contract, previous))
    && r.hash == h.decision(r.body)
  }

  function HashBefore(accepted: seq<Decision>, i: nat): Option<Digest>
    requires i <= |accepted|
  {
    if i == 0 then None else Some(accepted[i - 1].hash)
  }

  /** Record `i` is valid and descends from the record before it. */
  predicate Descends(h: Suite, required: nat, contract: Contract, accepted: seq<Decision>, i: nat)
    requires i < |accepted|
  {
    && ValidDecision(h, accepted[i], i, required, contract, HashBefore(accepted, i))
    && (i > 0 ==> accepted[i].body.parent.value.digest == accepted[i - 1].body.subjectDigest)
  }

  predicate AcceptedValid(h: Suite, required: nat, contract: Contract, accepted: seq<Decision>) {
    forall i | 0 <= i < |accepted| :: Descends(h, required, contract, accepted, i)
  }

  // ----- champion records -----

  function ChampionOf(h: Suite, b: DecisionBody, sequence: nat, previous: Option<Digest>): Champion {
    var body := ChampionBody(sequence, b.sequence, b.id, b.subject, b.subjectDigest, b.evidence, b.median, b.pairCount, previous);
    Champion(body, h.champion(body))
  }

  function HashOfLast(champions: seq<Champion>): Option<Digest> {
    if champions == [] then None else Some(champions[|champions| - 1].hash)
  }

  /** The champion history of an accepted history: one chained record per promoted decision, in order. */
  function Champions(h: Suite, accepted: seq<Decision>): seq<Champion> {
    if accepted == [] then []
    else
      var rest := Champions(h, accepted[..|accepted| - 1]);
      var last := accepted[|accepted| - 1];
      if last.body.promoted then rest + [ChampionOf(h, last.body, |rest| + 1, HashOfLast(rest))] else rest
  }

  /** The subject of the last promoted decision. */
  function ActiveChampion(accepted: seq<Decision>): Option<Digest> {
    if accepted == [] then None
    else if accepted[|accepted| - 1].body.promoted then Some(accepted[|accepted| - 1].body.subjectDigest)
    else ActiveChampion(accepted[..|accepted| - 1])
  }

  /** What the validator checks of one champion record. */
  predicate ValidChampion(h: Suite, c: Champion, index: nat, required: nat, previous: Option<Digest>, accepted: seq<Decision>) {
    && c.body.sequence == index + 1
    && 0 < c.body.acceptedSequence <= |accepted|
    && c.body.subjectDigest == h.subject(c.body.subject)
    && c.body.observations >= required
    && (if index == 0 then c.body.previous.None? && c.body.acceptedSequence == 1 else c.body.previous == previous)
    && Copies(c.body, accepted[c.body.acceptedSequence - 1].body)
    && c.hash == h.champion(c.body)
  }

  predicate Copies(c: ChampionBody, d: DecisionBody) {
    && d.id == c.id && d.subject == c.subject && d.subjectDigest == c.subjectDigest && d.evidence == c.evidence
    && d.median == c.median && d.pairCount == c.observations && d.status.Pass? && d.promoted
  }

  predicate LinkedAt(h: Suite, required: nat, accepted: seq<Decision>, champions: seq<Champion>, k: nat)
    requires k < |champions|
  {
    && ValidChampion(h, champions[k], k, required, HashOfLast(champions[..k]), accepted)
    && (k > 0 ==> champions[k - 1].body.acceptedSequence < champions[k].body.acceptedSequence)
  }

  predicate Linked(h: Suite, required: nat, accepted: seq<Decision>, champions: seq<Champion>) {
    forall k | 0 <= k < |champions| :: LinkedAt(h, required, accepted, champions, k)
  }

  predicate HasChampion(champions: seq<Champion>, sequence: nat) {
    exists k | 0 <= k < |champions| :: champions[k].body.acceptedSequence == sequence
  }

  /** Exactly the promoted decisions have a champion record. */
  predicate Covered(accepted: seq<Decision>, champions: seq<Champion>) {
    forall i | 0 <= i < |accepted| :: accepted[i].body.promoted <==> HasChampion(champions, i + 1)
  }

  // ----- the champion history is determined by the accepted history -----

  lemma {:induction false} ChampionsAreLinked(h: Suite, required: nat, contract: Contract, accepted: seq<Decision>)
    requires AcceptedValid(h, required, contract, accepted)
    ensures Linked(h, required, accepted, Champions(h, accepted)) && Covered(accepted, Champions(h, accepted))
    ensures accepted != [] ==> Champions(h, accepted) != []
    decreases |accepted|
  {
    if accepted != [] {
      var n := |accepted| - 1;
      PrefixValid(h, required, contract, accepted, n);
      ChampionsAreLinked(h, required, contract, accepted[..n]);
      assert Descends(h, required, contract, accepted, n);
      LinkOneMore(h, required, contract, accepted, Champions(h, accepted[..n]));
    }
  }

  lemma {:induction false} LinkOneMore(h: Suite, required: nat, contract: Contract, accepted: seq<Decision>, prior: seq<Champion>)
    requires accepted != [] && Descends(h, required, contract, accepted, |accepted| - 1)
    requires Linked(h, required, accepted[..|accepted| - 1], prior) && Covered(accepted[..|accepted| - 1], prior)
    requires |accepted| > 1 ==> prior != []
    ensures var last := accepted[|accepted| - 1].body;
      var all := if last.promoted then prior + [ChampionOf(h, last, |prior| + 1, HashOfLast(prior))] else prior;
      Linked(h, required, accepted, all) && Covered(accepted, all) && all != []
  {
    var n := |accepted| - 1;
    var last := accepted[n].body;
    var all := if last.promoted then prior + [ChampionOf(h, last, |prior| + 1, HashOfLast(prior))] else prior;
    forall k | 0 <= k < |all| ensures LinkedAt(h, required, accepted, all, k) {
      if k < |prior| {
        assert LinkedAt(h, required, accepted[..n], prior, k);
        assert all[..k] == prior[..k];
      } else {
        assert all[..k] == prior;
        if k > 0 {
          assert LinkedAt(h, required, accepted[..n], prior, k - 1);
        }
      }
    }
    CoverOneMore(h, required, accepted, prior, all);
  }

  lemma {:induction false} CoverOneMore(h: Suite, required: nat, accepted: seq<Decision>, prior: seq<Champion>, all: seq<Champion>)
    requires accepted != [] && accepted[|accepted| - 1].body.sequence == |accepted|
    requires Linked(h, required, accepted[..|accepted| - 1], prior) && Covered(accepted[..|accepted| - 1], prior)
    requires if accepted[|accepted| - 1].body.promoted
      then |all| == |prior| + 1 && all[..|prior|] == prior && all[|prior|].body.acceptedSequence == |accepted|
      else all == prior
    ensures Covered(accepted, all)
  {
    var n := |accepted| - 1;
    forall k | 0 <= k < |prior| ensures prior[k].body.acceptedSequence <= n {
      assert LinkedAt(h, required, accepted[..n], prior, k);
    }
    forall i | 0 <= i < |accepted| ensures accepted[i].body.promoted <==> HasChampion(all, i + 1) {
      if i < n {
        assert accepted[..n][i].body.promoted <==> HasChampion(prior, i + 1);
        if HasChampion(prior, i + 1) {
          var k :| 0 <= k < |prior| && prior[k].body.acceptedSequence == i + 1;
          assert all[k] == prior[k];
        }
        assert forall k | 0 <= k < |prior| :: all[k] == prior[k];
      } else {
        assert forall k | 0 <= k < |prior| :: all[k] == prior[k];
        assert accepted[n].body.promoted ==> all[|prior|].body.acceptedSequence == n + 1;
      }
    }
  }

  lemma {:induction false} PrefixValid(h: Suite, required: nat, contract: Contract, accepted: seq<Decision>, n: nat)
    requires AcceptedValid(h, required, contract, accepted) && n <= |accepted|
    ensures AcceptedValid(h, required, contract, accepted[..n])
  {
    forall i | 0 <= i < n ensures Descends(h, required, contract, accepted[..n], i) {
      assert Descends(h, required, contract, accepted, i);
    }
  }

  lemma {:induction false} SequencesIncrease(h: Suite, required: nat, accepted: seq<Decision>, champions: seq<Champion>, a: nat, b: nat)
    requires Linked(h, required, accepted, champions) && a < b < |champions|
    ensures champions[a].body.acceptedSequence < champions[b].body.acceptedSequence
  {
    assert LinkedAt(h, required, accepted, champions, b);
    if a < b - 1 {
      SequencesIncrease(h, required, accepted, champions, a, b - 1);
    }
  }

  /** Dropping the last decision, and its champion record if it has one, keeps the links. */
  lemma {:induction false} LinkOneLess(h: Suite, required: nat, accepted: seq<Decision>, champions: seq<Champion>, m: nat)
    requires accepted != [] && Linked(h, required, accepted, champions) && Covered(accepted, champions) && m <= |champions|
    requires forall k | 0 <= k < m :: champions[k].body.acceptedSequence < |accepted|
    requires forall k | m <= k < |champions| :: champions[k].body.acceptedSequence == |accepted|
    ensures var n := |accepted| - 1;
      Linked(h, required, accepted[..n], champions[..m]) && Covered(accepted[..n], champions[..m])
  {
    var n := |accepted| - 1;
    forall k | 0 <= k < m ensures LinkedAt(h, required, accepted[..n], champions[..m], k) {
      assert LinkedAt(h, required, accepted, champions, k);
      assert champions[..m][..k] == champions[..k];
    }
    forall i | 0 <= i < n ensures accepted[..n][i].body.promoted <==> HasChampion(champions[..m], i + 1) {
      assert accepted[i].body.promoted <==> HasChampion(champions, i + 1);
      assert forall k | 0 <= k < m :: champions[..m][k] == champions[k];
      if HasChampion(champions, i + 1) {
        var k :| 0 <= k < |champions| && champions[k].body.acceptedSequence == i + 1;
        assert champions[..m][k] == champions[k];
      }
    }
  }

  lemma {:induction false} SequencesBounded(h: Suite, required: nat, accepted: seq<Decision>, champions: seq<Champion>)
    requires Linked(h, required, accepted, champions)
    ensures forall k | 0 <= k < |champions| :: 0 < champions[k].body.acceptedSequence <= |accepted|
    ensures champions != [] ==> accepted != []
  {
    if champions != [] {
      assert LinkedAt(h, required, accepted, champions, 0);
    }
    forall k | 0 <= k < |champions| ensures 0 < champions[k].body.acceptedSequence <= |accepted| {
      assert LinkedAt(h, required, accepted, champions, k);
    }
  }

  lemma {:induction false} LinkedAreChampions(h: Suite, required: nat, contract: Contract, accepted: seq<Decision>, champions: seq<Champion>)
    requires AcceptedValid(h, required, contract, accepted) && Linked(h, required, accepted, champions) && Covered(accepted, champions)
    ensures champions == Champions(h, accepted)
    decreases |accepted|
  {
    SequencesBounded(h, required, accepted, champions);
    if accepted != [] {
      var n := |accepted| - 1;
      assert Descends(h, required, contract, accepted, n);
      assert accepted[n].body.promoted <==> HasChampion(champions, n + 1);
      PrefixValid(h, required, contract, accepted, n);
      var m := |champions|;
      if accepted[n].body.promoted {
        var k :| 0 <= k < |champions| && champions[k].body.acceptedSequence == n + 1;
        if k < |champions| - 1 {
          SequencesIncrease(h, required, accepted, champions, k, |champions| - 1);
        }
        m := |champions| - 1;
        assert k == m && LinkedAt(h, required, accepted, champions, m);
        forall j | 0 <= j < m ensures champions[j].body.acceptedSequence < |accepted| {
          SequencesIncrease(h, required, accepted, champions, j, m);
        }
        assert champions == champions[..m] + [champions[m]];
      } else {
        assert champions[..m] == champions;
      }
      LinkOneLess(h, required, accepted, champions, m);
      LinkedAreChampions(h, required, contract, accepted[..n], champions[..m]);
    }
  }

  /** Both directions: what the validator checks pins the champion history down exactly. */
  lemma {:induction false} ChampionHistoryIsExact(h: Suite, required: nat, contract: Contract, accepted: seq<Decision>, champions: seq<Champion>)
    requires AcceptedValid(h, required, contract, accepted)
    ensures Linked(h, required, accepted, champions) && Covered(accepted, champions) <==> champions == Champions(h, accepted)
  {
    ChampionsAreLinked(h, required, contract, accepted);
    if Linked(h, required, accepted, champions) && Covered(accepted, champions) {
      LinkedAreChampions(h, required, contract, accepted, champions);
    }
  }

  /** The last champion record is that of the active champion. */
  lemma {:induction false} LastChampionIsActive(h: Suite, accepted: seq<Decision>)
    requires accepted != [] && accepted[0].body.promoted
    ensures Champions(h, accepted) != []
    ensures ActiveChampion(accepted) == Some(Champions(h, accepted)[|Champions(h, accepted)| - 1].body.subjectDigest)
    decreases |accepted|
  {
    var n := |accepted| - 1;
    if !accepted[n].body.promoted {
      LastChampionIsActive(h, accepted[..n]);
    }
  }
}
