/** What the median and the percentile mean, by counting: no sorting in the statements. */
module OrderStatistics {
  import opened Statistics

  function AtMost(s: seq<real>, x: real): nat {
    if s == [] then 0 else (if s[0] <= x then 1 else 0) + AtMost(s[1..], x)
  }

  function Below(s: seq<real>, x: real): nat {
    if s == [] then 0 else (if s[0] < x then 1 else 0) + Below(s[1..], x)
  }

  /** An element with exactly `k` places below it, counting from zero. */
  predicate Ranked(s: seq<real>, k: nat, x: real) {
    x in s && Below(s, x) <= k < AtMost(s, x)
  }

  /** A fraction of the way from the element ranked `i` to the one ranked `j`. */
  predicate Blends(s: seq<real>, i: nat, j: nat, fraction: real, a: real, b: real, v: real) {
    Ranked(s, i, a) && Ranked(s, j, b) && v == a + (b - a) * fraction
  }

  ghost predicate Blend(s: seq<real>, i: nat, j: nat, fraction: real, v: real) {
    exists a, b :: Blends(s, i, j, fraction, a, b, v)
  }

  /** The middle element, or half way between the two middle ones. */
  ghost predicate IsMedian(s: seq<real>, m: real) {
    if |s| % 2 == 1 then Ranked(s, |s| / 2, m) else |s| > 0 && Blend(s, |s| / 2 - 1, |s| / 2, 0.5, m)
  }

  /** Linear interpolation between the elements ranked next to a fraction of the way through the sample. */
  ghost predicate Interpolates(s: seq<real>, probability: real, v: real)
    requires 0.0 <= probability <= 1.0
  {
    && s != []
    && var position := (|s| - 1) as real * probability;
       var k := position.Floor;
       0 <= k < |s| && Blend(s, k, if k + 1 < |s| then k + 1 else k, position - k as real, v)
  }

  // ----- counting does not depend on order -----

  lemma {:induction false} CountsTotal(s: seq<real>, x: real)
    ensures Below(s, x) <= AtMost(s, x) <= |s|
  {
    if s != [] {
      CountsTotal(s[1..], x);
    }
  }

  lemma {:induction false} CountsApart(s: seq<real>, x: real, y: real)
    requires x < y
    ensures AtMost(s, x) <= Below(s, y)
  {
    if s != [] {
      CountsApart(s[1..], x, y);
    }
  }

  lemma {:induction false} InsertCounts(y: real, s: seq<real>, x: real)
    ensures AtMost(Insert(y, s), x) == AtMost(s, x) + if y <= x then 1 else 0
    ensures Below(Insert(y, s), x) == Below(s, x) + if y < x then 1 else 0
  {
    var r := Insert(y, s);
    if s == [] || y <= s[0] {
      assert r[1..] == s;
    } else {
      InsertCounts(y, s[1..], x);
      assert r[1..] == Insert(y, s[1..]);
    }
  }

  lemma {:induction false} SortCounts(s: seq<real>, x: real)
    ensures AtMost(Sort(s), x) == AtMost(s, x) && Below(Sort(s), x) == Below(s, x)
  {
    if s != [] {
      SortCounts(s[1..], x);
      InsertCounts(s[0], Sort(s[1..]), x);
    }
  }

  lemma {:induction false} PrefixAtMost(t: seq<real>, k: nat, x: real)
    requires k <= |t| && forall i | 0 <= i < k :: t[i] <= x
    ensures AtMost(t, x) >= k
  {
    if k > 0 {
      PrefixAtMost(t[1..], k - 1, x);
    }
  }

  lemma {:induction false} SuffixBelow(t: seq<real>, k: nat, x: real)
    requires k <= |t| && forall i | k <= i < |t| :: x <= t[i]
    ensures Below(t, x) <= k
  {
    if t != [] {
      SuffixBelow(t[1..], if k > 0 then k - 1 else 0, x);
    }
  }

  /** Sorting puts at index `k` the element ranked `k`. */
  lemma {:induction false} SortRanks(s: seq<real>, k: nat)
    requires k < |s|
    ensures Ranked(s, k, Sort(s)[k])
  {
    var t := Sort(s);
    SortSorts(s);
    PrefixAtMost(t, k + 1, t[k]);
    SuffixBelow(t, k, t[k]);
    SortCounts(s, t[k]);
    SortPermutes(s);
    assert t[k] in multiset(t);
  }

  /** Only one value has a rank. */
  lemma {:induction false} RankUnique(s: seq<real>, k: nat, x: real, y: real)
    requires Ranked(s, k, x) && Ranked(s, k, y)
    ensures x == y
  {
    if x < y {
      CountsApart(s, x, y);
    } else if y < x {
      CountsApart(s, y, x);
    }
  }

  lemma {:induction false} BlendUnique(s: seq<real>, i: nat, j: nat, fraction: real, v: real, w: real)
    requires Blend(s, i, j, fraction, v) && Blend(s, i, j, fraction, w)
    ensures v == w
  {
    var a, b :| Blends(s, i, j, fraction, a, b, v);
    var c, d :| Blends(s, i, j, fraction, c, d, w);
    RankUnique(s, i, a, c);
    RankUnique(s, j, b, d);
  }

  lemma {:induction false} RanksAscend(s: seq<real>, k: nat, x: real, y: real)
    requires Ranked(s, k, x) && Ranked(s, k + 1, y)
    ensures x <= y
  {
    if y < x {
      CountsApart(s, y, x);
    }
  }

  // ----- the median -----

  /** The median is the middle of the sample: at least half of it lies on either side, itself included. */
  lemma {:induction false} MedianMeans(s: seq<real>)
    requires s != []
    ensures IsMedian(s, Median(s))
    ensures 2 * AtMost(s, Median(s)) >= |s| && 2 * (|s| - Below(s, Median(s))) >= |s|
  {
    var t, half := Sort(s), |s| / 2;
    SortRanks(s, half);
    if |s| % 2 == 0 {
      SortRanks(s, half - 1);
      MiddleSplits(s, half, t[half - 1], t[half]);
      assert Blends(s, half - 1, half, 0.5, t[half - 1], t[half], Median(s));
    }
  }

  lemma {:induction false} MiddleSplits(s: seq<real>, half: nat, a: real, b: real)
    requires 0 < half && |s| == 2 * half && Ranked(s, half - 1, a) && Ranked(s, half, b)
    ensures AtMost(s, (a + b) / 2.0) >= half && Below(s, (a + b) / 2.0) <= half
  {
    var m := (a + b) / 2.0;
    RanksAscend(s, half - 1, a, b);
    if a < b {
      CountsApart(s, a, m);
      CountsApart(s, m, b);
      CountsTotal(s, m);
    } else {
      assert m == a == b;
    }
  }

  /** Nothing else is a median. */
  lemma {:induction false} MedianIff(s: seq<real>, m: real)
    requires s != []
    ensures m == Median(s) <==> IsMedian(s, m)
  {
    MedianMeans(s);
    if IsMedian(s, m) {
      if |s| % 2 == 1 {
        RankUnique(s, |s| / 2, m, Median(s));
      } else {
        BlendUnique(s, |s| / 2 - 1, |s| / 2, 0.5, m, Median(s));
      }
    }
  }

  // ----- the percentile -----

  lemma {:induction false} PercentileMeans(s: seq<real>, p: real)
    requires s != [] && 0.0 <= p <= 1.0
    ensures Interpolates(s, p, Percentile(Sort(s), p))
  {
    var t := Sort(s);
    PositionBounds(|s|, p);
    var position := (|s| - 1) as real * p;
    var k := position.Floor;
    var next := if k + 1 < |s| then k + 1 else k;
    SortRanks(s, k);
    SortRanks(s, next);
    BlendIs(t[k], t[next], position - k as real);
    assert Blends(s, k, next, position - k as real, t[k], t[next], Percentile(t, p));
  }

  lemma {:induction false} BlendIs(a: real, b: real, fraction: real)
    ensures a + (b - a) * fraction == Between(a, b, fraction)
    ensures fraction == 0.0 ==> a + (b - a) * fraction == a
  {
  }

  lemma {:induction false} PercentileIff(s: seq<real>, p: real, v: real)
    requires s != [] && 0.0 <= p <= 1.0
    ensures v == Percentile(Sort(s), p) <==> Interpolates(s, p, v)
  {
    PercentileMeans(s, p);
    if Interpolates(s, p, v) {
      var position := (|s| - 1) as real * p;
      var k := position.Floor;
      BlendUnique(s, k, if k + 1 < |s| then k + 1 else k, position - k as real, v, Percentile(Sort(s), p));
    }
  }
}
