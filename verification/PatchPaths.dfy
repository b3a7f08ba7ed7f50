/** How the editor carries old path entries over to the projected paths (`patch_paths` in `src/android.rs`). */
module PatchPaths {
  import opened Outcomes
  import opened Toml

  datatype EditorPath = EditorPath(name: Text, endpoint: Text)

  function NameOf(n: Node): Option<Text> {
    if n.Inline? then TextOf(Get(n.fields, Name)) else None
  }

  // ----- which old entry each projected path takes -----

  predicate Free(existing: seq<Node>, reserved: set<nat>, name: Text, i: nat)
    requires i < |existing|
  {
    i !in reserved && NameOf(existing[i]) == Some(name)
  }

  /** The first unreserved old entry of that name, at or after `from`. */
  function FirstFree(existing: seq<Node>, reserved: set<nat>, name: Text, from: nat): (r: Option<nat>)
    requires from <= |existing|
    ensures r.Some? ==> from <= r.value < |existing| && Free(existing, reserved, name, r.value)
    ensures forall i | from <= i < (if r.Some? then r.value else |existing|) :: !Free(existing, reserved, name, i)
    decreases |existing| - from
  {
    if from == |existing| then None
    else if Free(existing, reserved, name, from) then Some(from)
    else FirstFree(existing, reserved, name, from + 1)
  }

  function Elements(r: seq<Option<nat>>): set<nat> {
    set i | 0 <= i < |r| && r[i].Some? :: r[i].value
  }

  /** Reservations by name, made in projected order before anything else is assigned. */
  function Reservations(existing: seq<Node>, projected: seq<EditorPath>): (r: seq<Option<nat>>)
    ensures |r| == |projected|
  {
    if projected == [] then []
    else
      var n := |projected| - 1;
      var rest := Reservations(existing, projected[..n]);
      rest + [FirstFree(existing, Elements(rest), projected[n].name, 0)]
  }

  /** A path without a reservation takes the old entry at its own position when nobody reserved it. */
  function AssignedTo(existing: seq<Node>, reservations: seq<Option<nat>>, i: nat): Option<nat>
    requires i < |reservations|
  {
    if reservations[i].Some? then reservations[i]
    else if i < |existing| && i !in Elements(reservations) then Some(i)
    else None
  }

  function Base(existing: seq<Node>, from: Option<nat>): Fields {
    if from.Some? && from.value < |existing| && existing[from.value].Inline? then existing[from.value].fields else End
  }

  function Patched(base: Fields, path: EditorPath): Node {
    Inline(Set(Set(base, Name, Str(path.name)), Endpoint, Str(path.endpoint)))
  }

  function PatchedPaths(existing: seq<Node>, projected: seq<EditorPath>): (r: seq<Node>)
    ensures |r| == |projected|
  {
    var reservations := Reservations(existing, projected);
    seq(|projected|, i requires 0 <= i < |projected| => Patched(Base(existing, AssignedTo(existing, reservations, i)), projected[i]))
  }

  // ----- reservations are distinct and by name -----

  predicate Sound(existing: seq<Node>, projected: seq<EditorPath>, r: seq<Option<nat>>) {
    && |r| == |projected|
    && (forall i | 0 <= i < |r| && r[i].Some? :: r[i].value < |existing| && NameOf(existing[r[i].value]) == Some(projected[i].name))
    && (forall i, j | 0 <= i < j < |r| && r[i].Some? && r[j].Some? :: r[i].value != r[j].value)
  }

  lemma {:induction false} ReservationsSound(existing: seq<Node>, projected: seq<EditorPath>)
    ensures Sound(existing, projected, Reservations(existing, projected))
  {
    if projected != [] {
      var n := |projected| - 1;
      ReservationsSound(existing, projected[..n]);
      var rest := Reservations(existing, projected[..n]);
      SoundOneMore(existing, projected, rest, FirstFree(existing, Elements(rest), projected[n].name, 0));
    }
  }

  lemma {:induction false} SoundOneMore(existing: seq<Node>, projected: seq<EditorPath>, rest: seq<Option<nat>>, found: Option<nat>)
    requires projected != [] && Sound(existing, projected[..|projected| - 1], rest)
    requires found.Some? ==> found.value < |existing| && Free(existing, Elements(rest), projected[|projected| - 1].name, found.value)
    ensures Sound(existing, projected, rest + [found])
  {
    assert forall i | 0 <= i < |rest| && rest[i].Some? :: rest[i].value in Elements(rest);
    assert forall i | 0 <= i < |rest| :: projected[..|projected| - 1][i] == projected[i];
  }

  /** No old entry is carried over twice. */
  lemma {:induction false} AssignmentInjective(existing: seq<Node>, projected: seq<EditorPath>, i: nat, j: nat)
    requires i < j < |projected|
    ensures var r := Reservations(existing, projected);
      AssignedTo(existing, r, i).Some? && AssignedTo(existing, r, j).Some? ==> AssignedTo(existing, r, i) != AssignedTo(existing, r, j)
    ensures AssignedTo(existing, Reservations(existing, projected), i).Some? ==> AssignedTo(existing, Reservations(existing, projected), i).value < |existing|
  {
    ReservationsSound(existing, projected);
    var r := Reservations(existing, projected);
    assert r[i].Some? ==> r[i].value in Elements(r);
    assert r[j].Some? ==> r[j].value in Elements(r);
  }

  // ----- as many old entries are reused as there can be -----

  function OldCount(existing: seq<Node>, name: Text): nat {
    if existing == [] then 0
    else OldCount(existing[..|existing| - 1], name) + if NameOf(existing[|existing| - 1]) == Some(name) then 1 else 0
  }

  function ProjectedCount(projected: seq<EditorPath>, name: Text): nat {
    if projected == [] then 0
    else ProjectedCount(projected[..|projected| - 1], name) + if projected[|projected| - 1].name == name then 1 else 0
  }

  /** How many old entries of that name are among the reserved ones. */
  function ReservedCount(existing: seq<Node>, reserved: set<nat>, name: Text): nat {
    if existing == [] then 0
    else
      var n := |existing| - 1;
      ReservedCount(existing[..n], reserved, name) + if n in reserved && NameOf(existing[n]) == Some(name) then 1 else 0
  }

  /** How many projected paths of that name got a reservation. */
  function ReusedCount(projected: seq<EditorPath>, r: seq<Option<nat>>, name: Text): nat
    requires |r| == |projected|
  {
    if projected == [] then 0
    else
      var n := |projected| - 1;
      ReusedCount(projected[..n], r[..n], name) + if projected[n].name == name && r[n].Some? then 1 else 0
  }

  lemma {:induction false} ReservedAtMostOld(existing: seq<Node>, reserved: set<nat>, name: Text)
    ensures ReservedCount(existing, reserved, name) <= OldCount(existing, name)
    ensures (forall i | 0 <= i < |existing| :: !Free(existing, reserved, name, i)) ==> ReservedCount(existing, reserved, name) == OldCount(existing, name)
  {
    if existing != [] {
      var n := |existing| - 1;
      ReservedAtMostOld(existing[..n], reserved, name);
      if forall i | 0 <= i < |existing| :: !Free(existing, reserved, name, i) {
        assert forall i | 0 <= i < n :: Free(existing[..n], reserved, name, i) ==> Free(existing, reserved, name, i);
        assert !Free(existing, reserved, name, n);
      }
    }
  }

  lemma {:induction false} ReservingOne(existing: seq<Node>, reserved: set<nat>, k: nat, name: Text)
    requires k !in reserved
    ensures ReservedCount(existing, reserved + {k}, name) ==
      ReservedCount(existing, reserved, name) + if k < |existing| && NameOf(existing[k]) == Some(name) then 1 else 0
  {
    if existing != [] {
      ReservingOne(existing[..|existing| - 1], reserved, k, name);
    }
  }

  function Smaller(a: nat, b: nat): nat {
    if a <= b then a else b
  }

  lemma {:induction false} ReuseCounts(existing: seq<Node>, projected: seq<EditorPath>, name: Text)
    ensures var r := Reservations(existing, projected);
      && ReusedCount(projected, r, name) == ReservedCount(existing, Elements(r), name)
      && ReusedCount(projected, r, name) == Smaller(ProjectedCount(projected, name), OldCount(existing, name))
  {
    if projected == [] {
      assert Elements(Reservations(existing, projected)) == {};
      NothingReserved(existing, name);
    } else {
      var n := |projected| - 1;
      ReuseCounts(existing, projected[..n], name);
      var rest := Reservations(existing, projected[..n]);
      var r := Reservations(existing, projected);
      assert r[..n] == rest;
      var found := FirstFree(existing, Elements(rest), projected[n].name, 0);
      ReservedAtMostOld(existing, Elements(rest), name);
      if found.Some? {
        ElementsMore(rest, found);
        ReservingOne(existing, Elements(rest), found.value, name);
        ReservedAtMostOld(existing, Elements(r), name);
      } else {
        ElementsMore(rest, found);
        assert Elements(r) == Elements(rest);
      }
    }
  }

  lemma {:induction false} NothingReserved(existing: seq<Node>, name: Text)
    ensures ReservedCount(existing, {}, name) == 0
  {
    if existing != [] {
      NothingReserved(existing[..|existing| - 1], name);
    }
  }

  lemma {:induction false} ElementsMore(r: seq<Option<nat>>, more: Option<nat>)
    ensures Elements(r + [more]) == Elements(r) + if more.Some? then {more.value} else {}
  {
    var all := r + [more];
    forall x | x in Elements(r) ensures x in Elements(all) {
      var i :| 0 <= i < |r| && r[i].Some? && r[i].value == x;
      assert all[i] == r[i];
    }
    if more.Some? {
      assert all[|r|].Some?;
    }
  }

  /** The patched path keeps the projected name and endpoint and every other field of the entry it took. */
  lemma {:induction false} PatchedKeeps(existing: seq<Node>, projected: seq<EditorPath>, i: nat, k: Key)
    requires i < |projected|
    ensures var fields := PatchedPaths(existing, projected)[i].fields;
      var base := Base(existing, AssignedTo(existing, Reservations(existing, projected), i));
      && TextOf(Get(fields, Name)) == Some(projected[i].name)
      && TextOf(Get(fields, Endpoint)) == Some(projected[i].endpoint)
      && (k != Name && k != Endpoint ==> Get(fields, k) == Get(base, k))
  {
    var base := Base(existing, AssignedTo(existing, Reservations(existing, projected), i));
    assert PatchedPaths(existing, projected)[i] == Patched(base, projected[i]);
  }

  /**
   For each name, the projected paths that take an old entry of that name are as many as
   they can be, and a path whose name is used up never takes one by position instead.
   */
  lemma {:induction false} ReuseIsMaximal(existing: seq<Node>, projected: seq<EditorPath>, name: Text)
    ensures SameNamed(existing, projected, Reservations(existing, projected), name) == Smaller(ProjectedCount(projected, name), OldCount(existing, name))
  {
    ReuseCounts(existing, projected, name);
    ReservationsSound(existing, projected);
    SameNamedAreReserved(existing, projected, |projected|, name);
    assert projected[..|projected|] == projected;
    assert Reservations(existing, projected)[..|projected|] == Reservations(existing, projected);
  }

  /** How many projected paths of that name are assigned an old entry of that name. */
  function SameNamed(existing: seq<Node>, projected: seq<EditorPath>, r: seq<Option<nat>>, name: Text): nat
    requires |r| == |projected|
  {
    SameNamedUpTo(existing, projected, r, |projected|, name)
  }

  predicate TakesSameName(existing: seq<Node>, path: EditorPath, from: Option<nat>, name: Text) {
    path.name == name && from.Some? && from.value < |existing| && NameOf(existing[from.value]) == Some(name)
  }

  function SameNamedUpTo(existing: seq<Node>, projected: seq<EditorPath>, r: seq<Option<nat>>, n: nat, name: Text): nat
    requires |r| == |projected| && n <= |projected|
  {
    if n == 0 then 0
    else
      var last := if TakesSameName(existing, projected[n - 1], AssignedTo(existing, r, n - 1), name) then 1 else 0;
      SameNamedUpTo(existing, projected, r, n - 1, name) + last
  }

  /** Without a reservation every old entry of that name is reserved by someone else. */
  lemma {:induction false} UsedUp(existing: seq<Node>, projected: seq<EditorPath>, i: nat, k: nat)
    requires i < |projected| && Reservations(existing, projected)[i].None? && k < |existing|
    requires NameOf(existing[k]) == Some(projected[i].name)
    ensures k in Elements(Reservations(existing, projected))
  {
    var n := |projected| - 1;
    var rest := Reservations(existing, projected[..n]);
    var r := Reservations(existing, projected);
    if i == n {
      assert !Free(existing, Elements(rest), projected[n].name, k);
    } else {
      UsedUp(existing, projected[..n], i, k);
    }
    ElementsMore(rest, r[n]);
  }

  lemma {:induction false} SameNamedAreReserved(existing: seq<Node>, projected: seq<EditorPath>, n: nat, name: Text)
    requires n <= |projected|
    requires Sound(existing, projected, Reservations(existing, projected))
    ensures var r := Reservations(existing, projected);
      SameNamedUpTo(existing, projected, r, n, name) == ReusedCount(projected[..n], r[..n], name)
  {
    if n > 0 {
      SameNamedAreReserved(existing, projected, n - 1, name);
      var r := Reservations(existing, projected);
      assert projected[..n][..n - 1] == projected[..n - 1] && r[..n][..n - 1] == r[..n - 1];
      if r[n - 1].None? && n - 1 < |existing| && NameOf(existing[n - 1]) == Some(projected[n - 1].name) {
        UsedUp(existing, projected, n - 1, n - 1);
      }
    }
  }

  // ----- the loops -----

  method Reserve(existing: seq<Node>, projected: seq<EditorPath>) returns (reservations: seq<Option<nat>>, reserved: set<nat>)
    ensures reservations == Reservations(existing, projected) && reserved == Elements(reservations)
  {
    reservations, reserved := [], {};
    for i := 0 to |projected|
      invariant reservations == Reservations(existing, projected[..i]) && reserved == Elements(reservations)
    {
      var found: Option<nat> := None;
      var k := 0;
      while k < |existing| && found.None?
        invariant k <= |existing|
        invariant found.None? ==> FirstFree(existing, reserved, projected[i].name, 0) == FirstFree(existing, reserved, projected[i].name, k)
        invariant found.Some? ==> FirstFree(existing, reserved, projected[i].name, 0) == found
        decreases |existing| - k, if found.None? then 1 else 0
      {
        if k !in reserved && NameOf(existing[k]) == Some(projected[i].name) {
          found := Some(k);
        } else {
          k := k + 1;
        }
      }
      assert projected[..i + 1][..i] == projected[..i];
      ElementsMore(reservations, found);
      if found.Some? {
        reserved := reserved + {found.value};
      }
      reservations := reservations + [found];
    }
    assert projected[..|projected|] == projected;
  }

  method ReplacePaths(existing: seq<Node>, projected: seq<EditorPath>) returns (replacement: seq<Node>)
    ensures replacement == PatchedPaths(existing, projected)
  {
    var reservations, reserved := Reserve(existing, projected);
    replacement := [];
    var claimed: set<nat> := {};
    for i := 0 to |projected|
      invariant |replacement| == i && replacement == PatchedPaths(existing, projected)[..i]
      invariant forall x | x in claimed :: x < i || x in reserved
    {
      var from: Option<nat> := reservations[i];
      if from.None? && i < |existing| && i !in claimed && i !in reserved {
        from := Some(i);
      }
      if from.Some? {
        assert reservations[i].Some? ==> reservations[i].value in Elements(reservations);
        claimed := claimed + {from.value};
      }
      var path := Base(existing, from);
      path := Set(path, Name, Str(projected[i].name));
      path := Set(path, Endpoint, Str(projected[i].endpoint));
      replacement := replacement + [Inline(path)];
    }
  }
}
