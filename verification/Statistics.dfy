/** Order statistics over exact numbers: sorting, the median and the interpolated percentile. */
module Statistics {
  predicate IsSorted(s: seq<real>) {
    forall i, j | 0 <= i <= j < |s| :: s[i] <= s[j]
  }

  predicate Within(s: seq<real>, low: real, high: real) {
    forall i | 0 <= i < |s| :: low <= s[i] <= high
  }

  function Insert(x: real, s: seq<real>): (r: seq<real>)
    ensures |r| == |s| + 1
  {
    if s == [] || x <= s[0] then [x] + s else [s[0]] + Insert(x, s[1..])
  }

  /** Python's `sorted` on numbers. */
  function Sort(s: seq<real>): (r: seq<real>)
    ensures |r| == |s|
  {
    if s == [] then [] else Insert(s[0], Sort(s[1..]))
  }

  lemma {:induction false} InsertPermutes(x: real, s: seq<real>)
    ensures multiset(Insert(x, s)) == multiset(s) + multiset{x}
  {
    if s != [] && x > s[0] {
      InsertPermutes(x, s[1..]);
      assert s == [s[0]] + s[1..];
    }
  }

  lemma {:induction false} SortPermutes(s: seq<real>)
    ensures multiset(Sort(s)) == multiset(s)
  {
    if s != [] {
      SortPermutes(s[1..]);
      InsertPermutes(s[0], Sort(s[1..]));
      assert s == [s[0]] + s[1..];
    }
  }

  lemma {:induction false} InsertWithin(x: real, s: seq<real>, low: real, high: real)
    requires Within(s, low, high) && low <= x <= high
    ensures Within(Insert(x, s), low, high)
  {
    if s != [] && x > s[0] {
      InsertWithin(x, s[1..], low, high);
    }
  }

  lemma {:induction false} SortWithin(s: seq<real>, low: real, high: real)
    requires Within(s, low, high)
    ensures Within(Sort(s), low, high)
  {
    if s != [] {
      SortWithin(s[1..], low, high);
      InsertWithin(s[0], Sort(s[1..]), low, high);
    }
  }

  predicate AtLeast(s: seq<real>, low: real) {
    forall i | 0 <= i < |s| :: low <= s[i]
  }

  lemma {:induction false} InsertAtLeast(x: real, s: seq<real>, low: real)
    requires AtLeast(s, low) && low <= x
    ensures AtLeast(Insert(x, s), low)
  {
    if s != [] && x > s[0] {
      InsertAtLeast(x, s[1..], low);
    }
  }

  lemma {:induction false} InsertSorted(x: real, s: seq<real>)
    requires IsSorted(s)
    ensures IsSorted(Insert(x, s))
  {
    if s != [] && x > s[0] {
      InsertSorted(x, s[1..]);
      InsertAtLeast(x, s[1..], s[0]);
    }
  }

  lemma {:induction false} SortSorts(s: seq<real>)
    ensures IsSorted(Sort(s))
  {
    if s != [] {
      SortSorts(s[1..]);
      InsertSorted(s[0], Sort(s[1..]));
    }
  }

  // ----- negation -----

  function Negated(s: seq<real>): (r: seq<real>)
    ensures |r| == |s|
  {
    seq(|s|, i requires 0 <= i < |s| => -s[i])
  }

  function Mirrored(s: seq<real>): (r: seq<real>)
    ensures |r| == |s|
  {
    seq(|s|, i requires 0 <= i < |s| => -s[|s| - 1 - i])
  }

  /** Inserting at the upper end appends. */
  lemma {:induction false} InsertLast(x: real, s: seq<real>)
    requires IsSorted(s) && (s != [] ==> s[|s| - 1] <= x)
    ensures Insert(x, s) == s + [x]
  {
    if s != [] {
      if x <= s[0] {
        assert forall i | 0 <= i < |s| :: s[i] == x;
      } else {
        InsertLast(x, s[1..]);
        assert s + [x] == [s[0]] + (s[1..] + [x]);
      }
    }
  }

  /** Inserting below the last element leaves it last. */
  lemma {:induction false} InsertBelowLast(x: real, s: seq<real>, last: real)
    requires x <= last
    ensures Insert(x, s + [last]) == Insert(x, s) + [last]
  {
    if s == [] {
      assert s + [last] == [last];
    } else if x > s[0] {
      InsertBelowLast(x, s[1..], last);
      assert (s + [last])[1..] == s[1..] + [last];
    }
  }

  lemma {:induction false} MirroredSnoc(s: seq<real>, last: real)
    ensures Mirrored(s + [last]) == [-last] + Mirrored(s)
  {
  }

  lemma {:induction false} InsertMirrored(x: real, s: seq<real>)
    requires IsSorted(s)
    ensures Insert(-x, Mirrored(s)) == Mirrored(Insert(x, s))
  {
    if s == [] {
      assert Mirrored(s) == [];
      assert Mirrored([x]) == [-x];
    } else {
      var init, last := s[..|s| - 1], s[|s| - 1];
      assert s == init + [last];
      MirroredSnoc(init, last);
      if last <= x {
        InsertLast(x, s);
        MirroredSnoc(s, x);
      } else {
        InsertBelowLast(x, init, last);
        MirroredSnoc(Insert(x, init), last);
        InsertMirrored(x, init);
        assert Mirrored(s)[1..] == Mirrored(init);
      }
    }
  }

  lemma {:induction false} NegatedTail(s: seq<real>)
    requires s != []
    ensures Negated(s)[0] == -s[0] && Negated(s)[1..] == Negated(s[1..])
  {
  }

  lemma {:induction false} SortNegated(s: seq<real>)
    ensures Sort(Negated(s)) == Mirrored(Sort(s))
  {
    var n := Negated(s);
    if s == [] {
      assert n == [];
    } else {
      var t := s[1..];
      NegatedTail(s);
      assert Sort(n) == Insert(n[0], Sort(n[1..]));
      SortNegated(t);
      SortSorts(t);
      InsertMirrored(s[0], Sort(t));
    }
  }

  // ----- the median -----

  function Median(s: seq<real>): real
    requires s != []
  {
    var t := Sort(s);
    if |t| % 2 == 1 then t[|t| / 2] else (t[|t| / 2 - 1] + t[|t| / 2]) / 2.0
  }

  lemma {:induction false} MedianWithin(s: seq<real>, low: real, high: real)
    requires s != [] && Within(s, low, high)
    ensures low <= Median(s) <= high
  {
    SortWithin(s, low, high);
  }

  lemma {:induction false} MedianNegated(s: seq<real>)
    requires s != []
    ensures Median(Negated(s)) == -Median(s)
  {
    SortNegated(s);
    var t, u := Sort(s), Sort(Negated(s));
    var half := |s| / 2;
    if |s| % 2 == 1 {
      assert |s| == 2 * half + 1;
      assert u[half] == -t[half];
    } else {
      assert |s| == 2 * half;
      assert u[half] == -t[half - 1] && u[half - 1] == -t[half];
    }
  }

  // ----- the percentile -----

  function Between(low: real, high: real, fraction: real): real {
    low * (1.0 - fraction) + high * fraction
  }

  lemma {:induction false} Scaled(x: real, fraction: real)
    requires 0.0 <= x && 0.0 <= fraction
    ensures 0.0 <= x * fraction
    ensures fraction <= 1.0 ==> x * fraction <= x
  {
    if fraction <= 1.0 {
      assert x - x * fraction == x * (1.0 - fraction);
      assert 0.0 <= x * (1.0 - fraction);
    }
  }

  lemma {:induction false} BetweenBounds(low: real, high: real, fraction: real)
    requires low <= high && 0.0 <= fraction <= 1.0
    ensures low <= Between(low, high, fraction) <= high
  {
    assert Between(low, high, fraction) == low + (high - low) * fraction;
    Scaled(high - low, fraction);
  }

  lemma {:induction false} BetweenMonotone(low: real, high: real, f: real, g: real)
    requires low <= high && f <= g
    ensures Between(low, high, f) <= Between(low, high, g)
  {
    assert Between(low, high, g) - Between(low, high, f) == (high - low) * (g - f);
    Scaled(high - low, g - f);
  }

  function Position(n: nat, probability: real): real {
    (n - 1) as real * probability
  }

  lemma {:induction false} PositionBounds(n: nat, p: real)
    requires n > 0 && 0.0 <= p <= 1.0
    ensures 0.0 <= Position(n, p) <= (n - 1) as real
  {
    var m := (n - 1) as real;
    Scaled(m, p);
  }

  /** Linear interpolation at a position between two indices. */
  function At(s: seq<real>, position: real): real
    requires s != [] && 0.0 <= position <= (|s| - 1) as real
  {
    var lower := position.Floor;
    if lower as real == position then s[lower] else Between(s[lower], s[lower + 1], position - lower as real)
  }

  function Percentile(s: seq<real>, probability: real): real
    requires s != [] && 0.0 <= probability <= 1.0
  {
    PositionBounds(|s|, probability);
    At(s, Position(|s|, probability))
  }

  lemma {:induction false} AtWithin(s: seq<real>, position: real)
    requires s != [] && IsSorted(s) && 0.0 <= position <= (|s| - 1) as real
    ensures s[position.Floor] <= At(s, position)
    ensures At(s, position) <= s[if position.Floor as real == position then position.Floor else position.Floor + 1]
  {
    var lower := position.Floor;
    if lower as real != position {
      BetweenBounds(s[lower], s[lower + 1], position - lower as real);
    }
  }

  lemma {:induction false} AtMonotone(s: seq<real>, p: real, q: real)
    requires s != [] && IsSorted(s) && 0.0 <= p <= q <= (|s| - 1) as real
    ensures At(s, p) <= At(s, q)
  {
    AtWithin(s, p);
    AtWithin(s, q);
    if p.Floor == q.Floor && p.Floor as real != p {
      BetweenMonotone(s[p.Floor], s[p.Floor + 1], p - p.Floor as real, q - q.Floor as real);
    }
  }

  lemma {:induction false} BetweenFlipped(a: real, b: real, fraction: real)
    ensures Between(-a, -b, fraction) == -Between(b, a, 1.0 - fraction)
  {
  }

  lemma {:induction false} AtMirrored(s: seq<real>, position: real)
    requires s != [] && 0.0 <= position <= (|s| - 1) as real
    ensures At(Mirrored(s), position) == -At(s, (|s| - 1) as real - position)
  {
    var lower := position.Floor;
    var other := (|s| - 1) as real - position;
    if lower as real == position {
      assert other.Floor == |s| - 1 - lower;
      assert Mirrored(s)[lower] == -s[|s| - 1 - lower];
    } else {
      assert other.Floor == |s| - 2 - lower;
      var fraction := position - lower as real;
      assert other - other.Floor as real == 1.0 - fraction;
      var m := Mirrored(s);
      assert m[lower] == -s[|s| - 1 - lower] && m[lower + 1] == -s[|s| - 2 - lower];
      BetweenFlipped(s[|s| - 1 - lower], s[|s| - 2 - lower], fraction);
    }
  }

  lemma {:induction false} PercentileMonotone(s: seq<real>, p: real, q: real)
    requires s != [] && IsSorted(s) && 0.0 <= p <= q <= 1.0
    ensures Percentile(s, p) <= Percentile(s, q)
  {
    PositionBounds(|s|, p);
    PositionBounds(|s|, q);
    assert Position(|s|, q) - Position(|s|, p) == (|s| - 1) as real * (q - p);
    Scaled((|s| - 1) as real, q - p);
    AtMonotone(s, Position(|s|, p), Position(|s|, q));
  }

  lemma {:induction false} PercentileWithin(s: seq<real>, p: real, low: real, high: real)
    requires s != [] && IsSorted(s) && 0.0 <= p <= 1.0 && Within(s, low, high)
    ensures low <= Percentile(s, p) <= high
  {
    PositionBounds(|s|, p);
    AtWithin(s, Position(|s|, p));
  }

  lemma {:induction false} PercentileMirrored(s: seq<real>, p: real)
    requires s != [] && 0.0 <= p <= 1.0
    ensures Percentile(Mirrored(s), p) == -Percentile(s, 1.0 - p)
  {
    PositionBounds(|s|, p);
    PositionBounds(|s|, 1.0 - p);
    assert Position(|s|, 1.0 - p) == (|s| - 1) as real - Position(|s|, p);
    AtMirrored(s, Position(|s|, p));
  }
}
