/** Sets of byte offsets as ordered ranges (`RangeSet` in `src/mux/stream.rs`, ranges in `src/protocol/frame.rs`). */
module OffsetRanges {
  datatype Range = Range(start: nat, end: nat)

  predicate Within(r: Range, o: int) {
    r.start <= o < r.end
  }

  predicate In(s: seq<Range>, o: int) {
    exists i | 0 <= i < |s| :: Within(s[i], o)
  }

  /** Non-empty ranges in order, with a gap between neighbours. */
  predicate Canonical(s: seq<Range>) {
    && (forall i | 0 <= i < |s| :: s[i].start < s[i].end)
    && (forall i, j | 0 <= i < j < |s| :: s[i].end < s[j].start)
  }

  function Larger(a: nat, b: nat): nat {
    if a >= b then a else b
  }

  function Smaller(a: nat, b: nat): nat {
    if a <= b then a else b
  }

  /** Adds a range, merging every range it overlaps or touches. */
  method Insert(s: seq<Range>, start: nat, end: nat) returns (t: seq<Range>)
    requires Canonical(s) && start < end
    ensures Canonical(t)
    ensures forall o :: In(t, o) <==> In(s, o) || start <= o < end
  {
    var i := 0;
    while i < |s| && s[i].end < start
      invariant 0 <= i <= |s|
      invariant forall k | 0 <= k < i :: s[k].end < start
    {
      i := i + 1;
    }
    var merged := Range(start, end);
    var j := i;
    while j < |s| && s[j].start <= merged.end
      invariant i <= j <= |s| && merged.start <= start && end <= merged.end
      invariant forall k | 0 <= k < i :: s[k].end < merged.start
      invariant forall o :: Within(merged, o) <==> start <= o < end || exists k | i <= k < j :: Within(s[k], o)
    {
      var wider := Range(Smaller(merged.start, s[j].start), Larger(merged.end, s[j].end));
      MergeWithin(merged, s[j], wider);
      merged := wider;
      j := j + 1;
    }
    t := s[..i] + [merged] + s[j..];
    InsertedMeans(s, i, merged, j, start, end, t);
  }

  lemma {:induction false} MergeWithin(a: Range, b: Range, c: Range)
    requires a.start < a.end && b.start < b.end && b.start <= a.end && a.start <= b.end
    requires c == Range(Smaller(a.start, b.start), Larger(a.end, b.end))
    ensures forall o :: Within(c, o) <==> Within(a, o) || Within(b, o)
  {
  }

  lemma {:induction false} InsertedMeans(s: seq<Range>, i: nat, merged: Range, j: nat, start: nat, end: nat, t: seq<Range>)
    requires i <= j <= |s| && t == s[..i] + [merged] + s[j..]
    requires forall o :: Within(merged, o) <==> start <= o < end || exists k | i <= k < j :: Within(s[k], o)
    ensures forall o :: In(t, o) <==> In(s, o) || start <= o < end
  {
    forall o ensures In(t, o) <==> In(s, o) || start <= o < end {
      if In(s, o) {
        var k :| 0 <= k < |s| && Within(s[k], o);
        if k < i {
          assert t[k] == s[k];
        } else if k < j {
          assert t[i] == merged;
        } else {
          assert t[i + 1 + (k - j)] == s[k];
        }
      }
      if start <= o < end {
        assert Within(t[i], o);
      }
      if In(t, o) {
        var k :| 0 <= k < |t| && Within(t[k], o);
        assert k < i ==> t[k] == s[k];
        assert k > i ==> t[k] == s[j + (k - i - 1)];
      }
    }
  }

  /** The last range that starts at or before an offset decides whether a span is covered. */
  method Covers(s: seq<Range>, start: nat, end: nat) returns (covered: bool)
    requires Canonical(s) && start < end
    ensures covered <==> forall o | start <= o < end :: In(s, o)
  {
    var i := 0;
    while i < |s| && s[i].start <= start
      invariant 0 <= i <= |s|
      invariant forall k | 0 <= k < i :: s[k].start <= start
    {
      i := i + 1;
    }
    covered := i > 0 && s[i - 1].end >= end;
    if covered {
      forall o | start <= o < end ensures In(s, o) {
        assert Within(s[i - 1], o);
      }
    } else {
      var o := if i == 0 || s[i - 1].end <= start then start else s[i - 1].end;
      assert start <= o < end;
      forall k | 0 <= k < |s| ensures !Within(s[k], o) {
        assert k < i - 1 ==> s[k].end < s[i - 1].start;
        assert i < k ==> s[i].end < s[k].start;
        assert 0 < i <= k ==> s[i - 1].end < s[k].start;
      }
      assert !In(s, o);
    }
  }

  /** The parts of a span that no range covers, in order. */
  method Uncovered(s: seq<Range>, start: nat, end: nat) returns (missing: seq<Range>)
    requires Canonical(s) && start < end
    ensures Canonical(missing)
    ensures forall o :: In(missing, o) <==> start <= o < end && !In(s, o)
  {
    missing := [];
    var cursor := start;
    var i := 0;
    while i < |s| && s[i].start < end
      invariant 0 <= i <= |s| && start <= cursor <= end
      invariant Canonical(missing) && (missing != [] ==> missing[|missing| - 1].end < cursor)
      invariant forall k | 0 <= k < i :: s[k].end <= cursor || cursor == end
      invariant forall o :: In(missing, o) <==> start <= o < cursor && !In(s, o)
    {
      var r := s[i];
      if r.start > cursor {
        GapIsUncovered(s, i, cursor, r.start);
        AppendMeans(missing, Range(cursor, r.start));
        missing := missing + [Range(cursor, r.start)];
      }
      assert forall o | Within(r, o) :: In(s, o);
      cursor := Larger(cursor, Smaller(r.end, end));
      i := i + 1;
    }
    if cursor < end {
      GapIsUncovered(s, i, cursor, end);
      AppendMeans(missing, Range(cursor, end));
      missing := missing + [Range(cursor, end)];
    }
  }

  lemma {:induction false} GapIsUncovered(s: seq<Range>, i: nat, from: nat, to: nat)
    requires Canonical(s) && i <= |s|
    requires forall k | 0 <= k < i :: s[k].end <= from
    requires i < |s| ==> to <= s[i].start
    ensures forall o | from <= o < to :: !In(s, o)
  {
    forall o | from <= o < to ensures !In(s, o) {
      assert forall k | i < k < |s| :: s[i].end < s[k].start;
    }
  }

  lemma {:induction false} AppendMeans(s: seq<Range>, r: Range)
    ensures forall o :: In(s + [r], o) <==> In(s, o) || Within(r, o)
  {
    forall o ensures In(s + [r], o) <==> In(s, o) || Within(r, o) {
      if In(s, o) {
        var k :| 0 <= k < |s| && Within(s[k], o);
        assert (s + [r])[k] == s[k];
      }
      assert (s + [r])[|s|] == r;
    }
  }

  lemma {:induction false} InTail(s: seq<Range>, o: int)
    requires s != []
    ensures In(s, o) <==> Within(s[0], o) || In(s[1..], o)
  {
    if In(s[1..], o) {
      var i :| 0 <= i < |s[1..]| && Within(s[1..][i], o);
      assert s[i + 1] == s[1..][i];
    }
    if In(s, o) && !Within(s[0], o) {
      var i :| 0 <= i < |s| && Within(s[i], o);
      assert s[1..][i - 1] == s[i];
    }
  }
}
