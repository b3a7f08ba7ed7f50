/** `validate_ledger`: its loops and cursors, and the ledgers it accepts. */
module LedgerValidation {
  import opened Outcomes
  import opened Bootstrap
  import opened LedgerRecords

  // ----- the ledgers that are in order -----

  /** Every later decision names the champion active just before it. */
  predicate ChampionsNamed(accepted: seq<Decision>) {
    forall i | 0 < i < |accepted| ::
      accepted[i].body.champion.Some? && Some(accepted[i].body.champion.value.digest) == ActiveChampion(accepted[..i])
  }

  predicate EntryValid(h: Suite, e: Entry) {
    && e.key == h.key(e.cell.id, e.metric.id) && ValidContract(e.contract) && e.required >= MINIMUM_PAIRS
    && e.accepted != []
    && AcceptedValid(h, e.required, e.contract, e.accepted)
    && e.champions == Champions(h, e.accepted)
    && ChampionsNamed(e.accepted)
  }

  predicate KeysAscend(cells: seq<Entry>) {
    forall i, j | 0 <= i < j < |cells| :: cells[i].key < cells[j].key
  }

  predicate UniqueIds(cells: seq<Entry>) {
    forall i, a, j, b | 0 <= i < |cells| && 0 <= a < |cells[i].accepted| && 0 <= j < |cells| && 0 <= b < |cells[j].accepted| ::
      cells[i].accepted[a].body.id == cells[j].accepted[b].body.id ==> i == j && a == b
  }

  predicate WellFormed(h: Suite, ledger: Ledger) {
    && (forall i | 0 <= i < |ledger.cells| :: EntryValid(h, ledger.cells[i]))
    && KeysAscend(ledger.cells)
    && UniqueIds(ledger.cells)
  }

  // ----- the validator -----

  function IdsIn(accepted: seq<Decision>): set<Identifier> {
    set a | 0 <= a < |accepted| :: accepted[a].body.id
  }

  predicate FreshIds(accepted: seq<Decision>, seen: set<Identifier>) {
    && (forall a | 0 <= a < |accepted| :: accepted[a].body.id !in seen)
    && (forall a, b | 0 <= a < b < |accepted| :: accepted[a].body.id != accepted[b].body.id)
  }

  method ValidateAccepted(h: Suite, e: Entry, seen: set<Identifier>) returns (ok: bool, ids: set<Identifier>)
    ensures ok <==> AcceptedValid(h, e.required, e.contract, e.accepted) && FreshIds(e.accepted, seen)
    ensures ok ==> ids == seen + IdsIn(e.accepted)
  {
    ids := seen;
    var previous: Option<Digest> := None;
    for k := 0 to |e.accepted|
      invariant previous == HashBefore(e.accepted, k)
      invariant ids == seen + IdsIn(e.accepted[..k])
      invariant forall i | 0 <= i < k :: Descends(h, e.required, e.contract, e.accepted, i)
      invariant FreshIds(e.accepted[..k], seen)
    {
      var r := e.accepted[k];
      if !ValidDecision(h, r, k, e.required, e.contract, previous) {
        assert !Descends(h, e.required, e.contract, e.accepted, k);
        return false, ids;
      }
      if r.body.id in ids {
        assert r.body.id in seen || exists a | 0 <= a < k :: e.accepted[..k][a].body.id == r.body.id;
        return false, ids;
      }
      if k > 0 && r.body.parent.value.digest != e.accepted[k - 1].body.subjectDigest {
        assert !Descends(h, e.required, e.contract, e.accepted, k);
        return false, ids;
      }
      assert e.accepted[..k + 1] == e.accepted[..k] + [r];
      ids := ids + {r.body.id};
      previous := Some(r.hash);
    }
    assert e.accepted[..|e.accepted|] == e.accepted;
    ok := true;
  }

  method ValidateChampions(h: Suite, e: Entry) returns (ok: bool)
    ensures ok <==> Linked(h, e.required, e.accepted, e.champions)
  {
    var previous: Option<Digest> := None;
    var last := 0;
    for k := 0 to |e.champions|
      invariant previous == HashOfLast(e.champions[..k])
      invariant last == if k == 0 then 0 else e.champions[k - 1].body.acceptedSequence
      invariant forall i | 0 <= i < k :: LinkedAt(h, e.required, e.accepted, e.champions, i)
    {
      var c := e.champions[k];
      if !ValidChampion(h, c, k, e.required, previous, e.accepted) || c.body.acceptedSequence <= last {
        assert !LinkedAt(h, e.required, e.accepted, e.champions, k);
        return false;
      }
      last := c.body.acceptedSequence;
      previous := Some(c.hash);
    }
    ok := true;
  }

  /** The dictionary from accepted sequence to champion digest. */
  predicate Indexes(index: map<nat, Digest>, champions: seq<Champion>) {
    && (forall k | 0 <= k < |champions| :: champions[k].body.acceptedSequence in index)
    && (forall n | n in index :: HasChampion(champions, n))
  }

  method IndexChampions(champions: seq<Champion>) returns (index: map<nat, Digest>)
    ensures Indexes(index, champions)
    ensures forall n | n in index :: exists k :: 0 <= k < |champions| && champions[k].body.acceptedSequence == n && champions[k].body.subjectDigest == index[n]
  {
    index := map[];
    for k := 0 to |champions|
      invariant forall i | 0 <= i < k :: champions[i].body.acceptedSequence in index
      invariant forall n | n in index :: exists i :: 0 <= i < k && champions[i].body.acceptedSequence == n && champions[i].body.subjectDigest == index[n]
    {
      index := index[champions[k].body.acceptedSequence := champions[k].body.subjectDigest];
    }
  }

  /** What the cursor relies on about the accepted records. */
  predicate Numbered(accepted: seq<Decision>) {
    forall i | 0 <= i < |accepted| :: accepted[i].body.sequence == i + 1 && (if i == 0 then accepted[i].body.promoted else accepted[i].body.champion.Some?)
  }

  /** What the cursor relies on about the champion records. */
  predicate Refers(champions: seq<Champion>, accepted: seq<Decision>) {
    && (champions != [] ==> champions[0].body.acceptedSequence == 1)
    && forall k | 0 <= k < |champions| ::
         && 0 < champions[k].body.acceptedSequence <= |accepted|
         && champions[k].body.subjectDigest == accepted[champions[k].body.acceptedSequence - 1].body.subjectDigest
  }

  lemma {:induction false} AcceptedFacts(h: Suite, required: nat, contract: Contract, accepted: seq<Decision>)
    requires AcceptedValid(h, required, contract, accepted)
    ensures Numbered(accepted)
  {
    forall i | 0 <= i < |accepted|
      ensures accepted[i].body.sequence == i + 1 && (if i == 0 then accepted[i].body.promoted else accepted[i].body.champion.Some?)
    {
      assert Descends(h, required, contract, accepted, i);
    }
  }

  lemma {:induction false} LinkedFacts(h: Suite, required: nat, accepted: seq<Decision>, champions: seq<Champion>)
    requires Linked(h, required, accepted, champions)
    ensures Refers(champions, accepted)
  {
    forall k | 0 <= k < |champions|
      ensures 0 < champions[k].body.acceptedSequence <= |accepted|
      ensures champions[k].body.subjectDigest == accepted[champions[k].body.acceptedSequence - 1].body.subjectDigest
    {
      assert LinkedAt(h, required, accepted, champions, k);
    }
    if champions != [] {
      assert LinkedAt(h, required, accepted, champions, 0);
    }
  }

  /** The records before `n` pass the cursor. */
  predicate CursorPasses(accepted: seq<Decision>, champions: seq<Champion>, n: nat) {
    n <= |accepted| && Covered(accepted[..n], champions) && ChampionsNamed(accepted[..n])
  }

  /** Every record passes the cursor, which ends on the last champion record. */
  predicate CursorEndsActive(accepted: seq<Decision>, champions: seq<Champion>) {
    champions != [] && CursorPasses(accepted, champions, |accepted|) && ActiveChampion(accepted) == Some(champions[|champions| - 1].body.subjectDigest)
  }

  lemma {:induction false} CursorStep(accepted: seq<Decision>, champions: seq<Champion>, i: nat)
    requires 0 < i < |accepted| && CursorPasses(accepted, champions, i) && accepted[i].body.champion.Some?
    ensures CursorPasses(accepted, champions, i + 1) <==>
      && Some(accepted[i].body.champion.value.digest) == ActiveChampion(accepted[..i])
      && (accepted[i].body.promoted <==> HasChampion(champions, i + 1))
    ensures ActiveChampion(accepted[..i + 1]) == if accepted[i].body.promoted then Some(accepted[i].body.subjectDigest) else ActiveChampion(accepted[..i])
  {
    var more := accepted[..i + 1];
    assert more[i] == accepted[i];
    assert more[..i] == accepted[..i];
    assert forall j | 0 <= j < i :: more[j] == accepted[..i][j] && more[..j] == accepted[..i][..j];
  }

  lemma {:induction false} CursorPrefix(accepted: seq<Decision>, champions: seq<Champion>, n: nat)
    requires n <= |accepted| && Covered(accepted, champions) && ChampionsNamed(accepted)
    ensures CursorPasses(accepted, champions, n)
  {
    assert forall j | 0 <= j < n :: accepted[..n][j] == accepted[j] && accepted[..n][..j] == accepted[..j];
  }

  lemma {:induction false} CursorDown(accepted: seq<Decision>, champions: seq<Champion>, n: nat)
    requires n <= |accepted|
    ensures CursorPasses(accepted, champions, |accepted|) ==> CursorPasses(accepted, champions, n)
  {
    if CursorPasses(accepted, champions, |accepted|) {
      CursorAtEnd(accepted, champions);
      CursorPrefix(accepted, champions, n);
    }
  }

  lemma {:induction false} CursorAtEnd(accepted: seq<Decision>, champions: seq<Champion>)
    ensures CursorPasses(accepted, champions, |accepted|) <==> Covered(accepted, champions) && ChampionsNamed(accepted)
  {
    assert accepted[..|accepted|] == accepted;
  }

  lemma {:induction false} CoveredEndsActive(h: Suite, required: nat, contract: Contract, accepted: seq<Decision>, champions: seq<Champion>)
    requires AcceptedValid(h, required, contract, accepted) && Linked(h, required, accepted, champions) && Covered(accepted, champions)
    requires accepted != [] && accepted[0].body.promoted
    ensures champions != [] && ActiveChampion(accepted) == Some(champions[|champions| - 1].body.subjectDigest)
  {
    LinkedAreChampions(h, required, contract, accepted, champions);
    LastChampionIsActive(h, accepted);
  }

  lemma {:induction false} CursorMeans(h: Suite, required: nat, contract: Contract, accepted: seq<Decision>, champions: seq<Champion>)
    requires AcceptedValid(h, required, contract, accepted) && Linked(h, required, accepted, champions)
    requires accepted != [] && accepted[0].body.promoted
    ensures CursorEndsActive(accepted, champions) <==> Covered(accepted, champions) && ChampionsNamed(accepted)
  {
    CursorAtEnd(accepted, champions);
    if Covered(accepted, champions) {
      CoveredEndsActive(h, required, contract, accepted, champions);
    }
  }

  /** The champion cursor: walks the accepted history and compares it with the champion records. */
  method ValidateCursor(h: Suite, e: Entry) returns (ok: bool)
    requires AcceptedValid(h, e.required, e.contract, e.accepted) && Linked(h, e.required, e.accepted, e.champions)
    requires e.accepted != [] && e.champions != []
    ensures ok <==> Covered(e.accepted, e.champions) && ChampionsNamed(e.accepted)
  {
    AcceptedFacts(h, e.required, e.contract, e.accepted);
    LinkedFacts(h, e.required, e.accepted, e.champions);
    CursorMeans(h, e.required, e.contract, e.accepted, e.champions);
    ok := WalkCursor(e.accepted, e.champions);
  }

  method WalkCursor(accepted: seq<Decision>, champions: seq<Champion>) returns (ok: bool)
    requires accepted != [] && champions != [] && Numbered(accepted) && Refers(champions, accepted)
    ensures ok <==> CursorEndsActive(accepted, champions)
  {
    var active := champions[|champions| - 1].body.subjectDigest;
    var cursor := champions[0].body.subjectDigest;
    var index := IndexChampions(champions);
    assert HasChampion(champions, 1);
    assert accepted[..1] == [accepted[0]];
    for i := 1 to |accepted|
      invariant CursorPasses(accepted, champions, i)
      invariant ActiveChampion(accepted[..i]) == Some(cursor)
    {
      CursorStep(accepted, champions, i);
      CursorDown(accepted, champions, i + 1);
      var r := accepted[i].body;
      var indexed := r.sequence in index;
      assert indexed ==> index[r.sequence] == r.subjectDigest;
      if r.champion.value.digest != cursor || (r.promoted && (!indexed || index[r.sequence] != r.subjectDigest)) || (!r.promoted && indexed) {
        return false;
      }
      if r.promoted {
        cursor := index[r.sequence];
      }
    }
    assert accepted[..|accepted|] == accepted;
    ok := cursor == active;
  }

  method ValidateEntry(h: Suite, e: Entry, seen: set<Identifier>) returns (ok: bool, ids: set<Identifier>)
    ensures ok <==> EntryValid(h, e) && FreshIds(e.accepted, seen)
    ensures ok ==> ids == seen + IdsIn(e.accepted)
  {
    ids := seen;
    if e.key != h.key(e.cell.id, e.metric.id) || !ValidContract(e.contract) || e.required < MINIMUM_PAIRS || e.accepted == [] {
      return false, ids;
    }
    if e.champions == [] {
      if AcceptedValid(h, e.required, e.contract, e.accepted) {
        ChampionsAreLinked(h, e.required, e.contract, e.accepted);
      }
      return false, ids;
    }
    ok, ids := ValidateAccepted(h, e, seen);
    if !ok {
      return;
    }
    ChampionHistoryIsExact(h, e.required, e.contract, e.accepted, e.champions);
    ok := ValidateChampions(h, e);
    if !ok {
      return;
    }
    ok := ValidateCursor(h, e);
  }

  function AllIds(cells: seq<Entry>): set<Identifier> {
    set i, a | 0 <= i < |cells| && 0 <= a < |cells[i].accepted| :: cells[i].accepted[a].body.id
  }

  /** A further cell keeps the ids unique exactly when its own ids are new. */
  lemma {:induction false} UniqueOneMore(cells: seq<Entry>, e: Entry)
    requires UniqueIds(cells)
    ensures UniqueIds(cells + [e]) <==> FreshIds(e.accepted, AllIds(cells))
    ensures AllIds(cells + [e]) == AllIds(cells) + IdsIn(e.accepted)
  {
    var all := cells + [e];
    var n := |cells|;
    assert forall i | 0 <= i < n :: all[i] == cells[i];
    if FreshIds(e.accepted, AllIds(cells)) {
      forall i, a, j, b | 0 <= i < |all| && 0 <= a < |all[i].accepted| && 0 <= j < |all| && 0 <= b < |all[j].accepted| && all[i].accepted[a].body.id == all[j].accepted[b].body.id
        ensures i == j && a == b
      {
        assert i < n ==> all[i].accepted[a].body.id in AllIds(cells);
        assert j < n ==> all[j].accepted[b].body.id in AllIds(cells);
      }
    }
    if UniqueIds(all) {
      forall a | 0 <= a < |e.accepted| ensures e.accepted[a].body.id !in AllIds(cells) {
        assert all[n].accepted[a] == e.accepted[a];
      }
      assert forall a | 0 <= a < |e.accepted| :: all[n].accepted[a] == e.accepted[a];
    }
    forall x ensures x in AllIds(all) <==> x in AllIds(cells) + IdsIn(e.accepted) {
      if x in AllIds(cells) {
        var i, a :| 0 <= i < n && 0 <= a < |cells[i].accepted| && cells[i].accepted[a].body.id == x;
        assert all[i].accepted[a].body.id == x;
      }
      if x in IdsIn(e.accepted) {
        var a :| 0 <= a < |e.accepted| && e.accepted[a].body.id == x;
        assert all[n].accepted[a].body.id == x;
      }
    }
  }

  lemma {:induction false} UniquePrefix(cells: seq<Entry>, n: nat)
    requires UniqueIds(cells) && n <= |cells|
    ensures UniqueIds(cells[..n])
  {
    assert forall i | 0 <= i < n :: cells[..n][i] == cells[i];
  }

  lemma {:induction false} UniqueStep(cells: seq<Entry>, k: nat)
    requires k < |cells| && UniqueIds(cells[..k])
    ensures UniqueIds(cells[..k + 1]) <==> FreshIds(cells[k].accepted, AllIds(cells[..k]))
    ensures UniqueIds(cells) ==> UniqueIds(cells[..k + 1])
    ensures AllIds(cells[..k + 1]) == AllIds(cells[..k]) + IdsIn(cells[k].accepted)
  {
    UniqueOneMore(cells[..k], cells[k]);
    assert cells[..k + 1] == cells[..k] + [cells[k]];
    if UniqueIds(cells) {
      UniquePrefix(cells, k + 1);
    }
  }

  method KeysInOrder(cells: seq<Entry>) returns (ok: bool)
    ensures ok <==> KeysAscend(cells)
  {
    for k := 0 to |cells|
      invariant KeysAscend(cells[..k])
    {
      if k > 0 && cells[k - 1].key >= cells[k].key {
        return false;
      }
      assert forall i | 0 <= i < k :: cells[..k][i].key <= cells[..k][k - 1].key;
    }
    assert cells[..|cells|] == cells;
    ok := true;
  }

  /** `lock` is the digest of the supplied baseline lock, when one is supplied. */
  method ValidateLedger(h: Suite, ledger: Ledger, lock: Option<Digest>) returns (ok: bool)
    ensures ok <==> WellFormed(h, ledger) && (lock.Some? ==> lock.value == ledger.baseline)
  {
    if lock.Some? && lock.value != ledger.baseline {
      return false;
    }
    var cells := ledger.cells;
    var seen: set<Identifier> := {};
    for k := 0 to |cells|
      invariant forall i | 0 <= i < k :: EntryValid(h, cells[i])
      invariant UniqueIds(cells[..k]) && seen == AllIds(cells[..k])
    {
      UniqueStep(cells, k);
      var valid, ids := ValidateEntry(h, cells[k], seen);
      if !valid {
        return false;
      }
      seen := ids;
    }
    assert cells[..|cells|] == cells;
    ok := KeysInOrder(cells);
  }
}
