/** The paired bootstrap of `lab/performance_ledger.py`, over exact numbers. */
module Bootstrap {
  import opened Outcomes
  import opened Statistics
  import opened OrderStatistics
  import SplitMix64

  // ----- the random generator -----

  /** From a state to the next state and the value drawn; the ledger uses `SplitMix64.Next`. */
  type Generator = nat -> (nat, nat)

  // ----- resampling -----

  function StateAfter(next: Generator, state: nat, draws: nat): nat {
    if draws == 0 then state else next(StateAfter(next, state, draws - 1)).0
  }

  /** The ledger's own generator draws no value twice within any 2^64 draws. */
  lemma {:induction false} LedgerDrawsDistinct(seed: nat, i: nat, j: nat)
    requires seed < SplitMix64.WORD64 && i < j < SplitMix64.WORD64
    ensures SplitMix64.Next(StateAfter(SplitMix64.Next, seed, i)).1 != SplitMix64.Next(StateAfter(SplitMix64.Next, seed, j)).1
  {
    forall state ensures SplitMix64.Next(state).0 == SplitMix64.Advance(state) {
      SplitMix64.NextAdvances(state);
    }
    SameStates(SplitMix64.Next, seed, i);
    SameStates(SplitMix64.Next, seed, j);
    SplitMix64.DrawsDistinct(seed, i, j);
  }

  lemma {:induction false} SameStates(next: Generator, seed: nat, draws: nat)
    requires forall state :: next(state).0 == SplitMix64.Advance(state)
    ensures StateAfter(next, seed, draws) == SplitMix64.StateAfter(seed, draws)
  {
    if draws > 0 {
      SameStates(next, seed, draws - 1);
    }
  }

  function Sampled(next: Generator, deltas: seq<real>, state: nat, draws: nat): (r: seq<real>)
    requires deltas != []
    ensures |r| == draws
  {
    if draws == 0 then []
    else Sampled(next, deltas, state, draws - 1) + [deltas[next(StateAfter(next, state, draws - 1)).1 % |deltas|]]
  }

  function RoundState(next: Generator, size: nat, seed: nat, rounds: nat): nat {
    if rounds == 0 then seed else StateAfter(next, RoundState(next, size, seed, rounds - 1), size)
  }

  /** The median of one resample. */
  function RoundMedian(next: Generator, deltas: seq<real>, seed: nat, round: nat): real
    requires deltas != []
  {
    Median(Sampled(next, deltas, RoundState(next, |deltas|, seed, round), |deltas|))
  }

  function Medians(next: Generator, deltas: seq<real>, seed: nat, rounds: nat): (r: seq<real>)
    requires deltas != []
    ensures |r| == rounds
  {
    seq(rounds, i requires 0 <= i < rounds => RoundMedian(next, deltas, seed, i))
  }

  lemma {:induction false} SampledWithin(next: Generator, deltas: seq<real>, state: nat, draws: nat, low: real, high: real)
    requires deltas != [] && Within(deltas, low, high)
    ensures Within(Sampled(next, deltas, state, draws), low, high)
  {
    if draws > 0 {
      SampledWithin(next, deltas, state, draws - 1, low, high);
    }
  }

  lemma {:induction false} SampledNegated(next: Generator, deltas: seq<real>, state: nat, draws: nat)
    requires deltas != []
    ensures Sampled(next, Negated(deltas), state, draws) == Negated(Sampled(next, deltas, state, draws))
  {
    if draws > 0 {
      SampledNegated(next, deltas, state, draws - 1);
    }
  }

  lemma {:induction false} RoundMedianWithin(next: Generator, deltas: seq<real>, seed: nat, round: nat, low: real, high: real)
    requires deltas != [] && Within(deltas, low, high)
    ensures low <= RoundMedian(next, deltas, seed, round) <= high
  {
    var state := RoundState(next, |deltas|, seed, round);
    SampledWithin(next, deltas, state, |deltas|, low, high);
    MedianWithin(Sampled(next, deltas, state, |deltas|), low, high);
  }

  lemma {:induction false} MediansWithin(next: Generator, deltas: seq<real>, seed: nat, rounds: nat, low: real, high: real)
    requires deltas != [] && Within(deltas, low, high)
    ensures Within(Medians(next, deltas, seed, rounds), low, high)
  {
    forall i | 0 <= i < rounds ensures low <= Medians(next, deltas, seed, rounds)[i] <= high {
      RoundMedianWithin(next, deltas, seed, i, low, high);
    }
  }

  lemma {:induction false} RoundMedianNegated(next: Generator, deltas: seq<real>, seed: nat, round: nat)
    requires deltas != []
    ensures RoundMedian(next, Negated(deltas), seed, round) == -RoundMedian(next, deltas, seed, round)
  {
    var state := RoundState(next, |deltas|, seed, round);
    SampledNegated(next, deltas, state, |deltas|);
    MedianNegated(Sampled(next, deltas, state, |deltas|));
  }

  lemma {:induction false} MediansNegated(next: Generator, deltas: seq<real>, seed: nat, rounds: nat)
    requires deltas != []
    ensures Medians(next, Negated(deltas), seed, rounds) == Negated(Medians(next, deltas, seed, rounds))
  {
    forall i | 0 <= i < rounds ensures Medians(next, Negated(deltas), seed, rounds)[i] == Negated(Medians(next, deltas, seed, rounds))[i] {
      RoundMedianNegated(next, deltas, seed, i);
    }
  }

  // ----- the inference -----

  datatype Class = Regression | Improvement | Inconclusive

  /** The preregistered contract: at least 10000 rounds and a 64-bit seed. */
  datatype Contract = Contract(iterations: nat, seed: nat)

  const MINIMUM_ITERATIONS: nat := 10_000

  predicate ValidContract(c: Contract) {
    c.iterations >= MINIMUM_ITERATIONS && c.seed < SplitMix64.WORD64
  }

  datatype Inference = Inference(contract: Contract, statistic: real, lower: real, upper: real, verdict: Class)

  function Classify(lower: real, upper: real): Class {
    if upper < 0.0 then Regression else if lower > 0.0 then Improvement else Inconclusive
  }

  function Opposite(c: Class): Class {
    match c
    case Regression => Improvement
    case Improvement => Regression
    case Inconclusive => Inconclusive
  }

  function Bound(next: Generator, deltas: seq<real>, c: Contract, probability: real): real
    requires deltas != [] && c.iterations > 0 && 0.0 <= probability <= 1.0
  {
    Percentile(Sort(Medians(next, deltas, c.seed, c.iterations)), probability)
  }

  function Infer(next: Generator, deltas: seq<real>, c: Contract): Inference
    requires deltas != [] && c.iterations > 0
  {
    var lower := Bound(next, deltas, c, 0.025);
    var upper := Bound(next, deltas, c, 0.975);
    Inference(c, Median(deltas), lower, upper, Classify(lower, upper))
  }

  /** The interval lies within the deltas, whatever the generator and the seed. */
  lemma {:induction false} IntervalWithin(next: Generator, deltas: seq<real>, c: Contract, low: real, high: real)
    requires deltas != [] && c.iterations > 0 && Within(deltas, low, high)
    ensures low <= Infer(next, deltas, c).lower <= Infer(next, deltas, c).upper <= high
    ensures low <= Infer(next, deltas, c).statistic <= high
  {
    MediansWithin(next, deltas, c.seed, c.iterations, low, high);
    var medians := Medians(next, deltas, c.seed, c.iterations);
    SortSorts(medians);
    SortWithin(medians, low, high);
    PercentileWithin(Sort(medians), 0.025, low, high);
    PercentileWithin(Sort(medians), 0.975, low, high);
    PercentileMonotone(Sort(medians), 0.025, 0.975);
    MedianWithin(deltas, low, high);
  }

  lemma {:induction false} BoundNegated(next: Generator, deltas: seq<real>, c: Contract, p: real)
    requires deltas != [] && c.iterations > 0 && 0.0 <= p <= 1.0
    ensures Bound(next, Negated(deltas), c, p) == -Bound(next, deltas, c, 1.0 - p)
  {
    var medians := Medians(next, deltas, c.seed, c.iterations);
    MediansNegated(next, deltas, c.seed, c.iterations);
    SortNegated(medians);
    PercentileMirrored(Sort(medians), p);
  }

  /** Exchanging candidate and reference mirrors the interval and exchanges the verdicts. */
  lemma {:induction false} InferenceMirrors(next: Generator, deltas: seq<real>, c: Contract)
    requires deltas != [] && c.iterations > 0
    ensures var i, m := Infer(next, deltas, c), Infer(next, Negated(deltas), c);
      m.lower == -i.upper && m.upper == -i.lower && m.statistic == -i.statistic && m.verdict == Opposite(i.verdict)
  {
    BoundNegated(next, deltas, c, 0.025);
    BoundNegated(next, deltas, c, 0.975);
    MedianNegated(deltas);
    IntervalOrdered(next, deltas, c);
  }

  lemma {:induction false} IntervalOrdered(next: Generator, deltas: seq<real>, c: Contract)
    requires deltas != [] && c.iterations > 0
    ensures Infer(next, deltas, c).lower <= Infer(next, deltas, c).upper
  {
    var medians := Medians(next, deltas, c.seed, c.iterations);
    SortSorts(medians);
    PercentileMonotone(Sort(medians), 0.025, 0.975);
  }

  function Least(s: seq<real>): (m: real)
    requires s != []
    ensures m in s && forall x | x in s :: m <= x
  {
    if |s| == 1 then s[0]
    else
      var m := Least(s[1..]);
      assert s == [s[0]] + s[1..];
      if s[0] <= m then s[0] else m
  }

  /** Deltas of one sign, or all zero, are classified as one expects. */
  lemma {:induction false} UniformDeltasClassified(next: Generator, deltas: seq<real>, c: Contract)
    requires deltas != [] && c.iterations > 0
    ensures (forall x | x in deltas :: x > 0.0) ==> Infer(next, deltas, c).verdict == Improvement
    ensures (forall x | x in deltas :: x < 0.0) ==> Infer(next, deltas, c).verdict == Regression
    ensures (forall x | x in deltas :: x == 0.0) ==> Infer(next, deltas, c) == Inference(c, 0.0, 0.0, 0.0, Inconclusive)
  {
    var low, high := Extremes(deltas);
    IntervalWithin(next, deltas, c, low, high);
    var i := Infer(next, deltas, c);
    SignsClassified(i.lower, i.upper, low, high);
  }

  lemma {:induction false} Extremes(s: seq<real>) returns (low: real, high: real)
    requires s != []
    ensures low in s && high in s && Within(s, low, high)
  {
    low, high := Least(s), -Least(Negated(s));
    var k :| 0 <= k < |s| && Negated(s)[k] == -high;
    assert s[k] == high;
    forall i | 0 <= i < |s| ensures low <= s[i] <= high {
      assert s[i] in s && Negated(s)[i] in Negated(s);
    }
  }

  lemma {:induction false} SignsClassified(lower: real, upper: real, low: real, high: real)
    requires low <= lower <= upper <= high
    ensures low > 0.0 ==> Classify(lower, upper) == Improvement
    ensures high < 0.0 ==> Classify(lower, upper) == Regression
    ensures low == high == 0.0 ==> lower == upper == 0.0 && Classify(lower, upper) == Inconclusive
  {
  }

  // ----- paired deltas -----

  datatype Pair = Pair(candidate: real, reference: real)

  function NormalizedDelta(candidate: real, reference: real, higherIsBetter: bool): real {
    if higherIsBetter then candidate - reference else reference - candidate
  }

  function Deltas(pairs: seq<Pair>, higherIsBetter: bool): (r: seq<real>)
    ensures |r| == |pairs|
  {
    seq(|pairs|, i requires 0 <= i < |pairs| => NormalizedDelta(pairs[i].candidate, pairs[i].reference, higherIsBetter))
  }

  function Swapped(pairs: seq<Pair>): (r: seq<Pair>)
    ensures |r| == |pairs|
  {
    seq(|pairs|, i requires 0 <= i < |pairs| => Pair(pairs[i].reference, pairs[i].candidate))
  }

  lemma {:induction false} SwappingMirrors(next: Generator, pairs: seq<Pair>, higherIsBetter: bool, c: Contract)
    requires pairs != [] && c.iterations > 0
    ensures var i, m := Infer(next, Deltas(pairs, higherIsBetter), c), Infer(next, Deltas(Swapped(pairs), higherIsBetter), c);
      m.lower == -i.upper && m.upper == -i.lower && m.verdict == Opposite(i.verdict)
  {
    assert Deltas(Swapped(pairs), higherIsBetter) == Negated(Deltas(pairs, higherIsBetter));
    InferenceMirrors(next, Deltas(pairs, higherIsBetter), c);
  }

  // ----- the loops -----

  method Resample(next: Generator, deltas: seq<real>, state: nat) returns (sample: seq<real>, after: nat)
    requires deltas != []
    ensures sample == Sampled(next, deltas, state, |deltas|) && after == StateAfter(next, state, |deltas|)
  {
    sample, after := [], state;
    for k := 0 to |deltas|
      invariant sample == Sampled(next, deltas, state, k) && after == StateAfter(next, state, k)
    {
      var drawn := next(after);
      after := drawn.0;
      sample := sample + [deltas[drawn.1 % |deltas|]];
    }
  }

  lemma {:induction false} MediansSnoc(next: Generator, deltas: seq<real>, seed: nat, k: nat)
    requires deltas != []
    ensures Medians(next, deltas, seed, k + 1) == Medians(next, deltas, seed, k) + [RoundMedian(next, deltas, seed, k)]
  {
  }

  method BootstrapMedians(next: Generator, deltas: seq<real>, seed: nat, rounds: nat) returns (medians: seq<real>)
    requires deltas != []
    ensures medians == Medians(next, deltas, seed, rounds)
  {
    var state := seed;
    medians := [];
    for k := 0 to rounds
      invariant medians == Medians(next, deltas, seed, k)
      invariant state == RoundState(next, |deltas|, seed, k)
    {
      var sample, after := Resample(next, deltas, state);
      MediansSnoc(next, deltas, seed, k);
      assert Median(sample) == RoundMedian(next, deltas, seed, k);
      medians := medians + [Median(sample)];
      state := after;
    }
  }

  // ----- what an inference says -----

  /** One median for every round's resample. */
  ghost predicate Bootstrapped(next: Generator, deltas: seq<real>, c: Contract, medians: seq<real>)
    requires deltas != []
  {
    && |medians| == c.iterations
    && forall i | 0 <= i < |medians| :: IsMedian(Sampled(next, deltas, RoundState(next, |deltas|, c.seed, i), |deltas|), medians[i])
  }

  predicate Holds(lower: real, upper: real, x: real) {
    lower <= x <= upper
  }

  /** An improvement or a regression exactly when every value of the interval is one. */
  ghost predicate Judges(lower: real, upper: real, verdict: Class) {
    && (verdict.Improvement? <==> forall x: real | Holds(lower, upper, x) :: x > 0.0)
    && (verdict.Regression? <==> forall x: real | Holds(lower, upper, x) :: x < 0.0)
  }

  /**
   The statistic is the median of the deltas; the interval runs between the 2.5 and the 97.5
   percent points of the resampled medians, and the verdict judges it.
   */
  ghost predicate Describes(next: Generator, deltas: seq<real>, c: Contract, medians: seq<real>, i: Inference)
    requires deltas != []
  {
    && Bootstrapped(next, deltas, c, medians)
    && i.contract == c && IsMedian(deltas, i.statistic)
    && Interpolates(medians, 0.025, i.lower) && Interpolates(medians, 0.975, i.upper)
    && i.lower <= i.upper && Judges(i.lower, i.upper, i.verdict)
  }

  lemma {:induction false} ClassifyJudges(lower: real, upper: real)
    requires lower <= upper
    ensures Judges(lower, upper, Classify(lower, upper))
  {
    assert Holds(lower, upper, lower) && Holds(lower, upper, upper);
  }

  lemma {:induction false} MediansMean(next: Generator, deltas: seq<real>, c: Contract)
    requires deltas != []
    ensures Bootstrapped(next, deltas, c, Medians(next, deltas, c.seed, c.iterations))
  {
    var medians := Medians(next, deltas, c.seed, c.iterations);
    forall k | 0 <= k < |medians| ensures IsMedian(Sampled(next, deltas, RoundState(next, |deltas|, c.seed, k), |deltas|), medians[k]) {
      MedianMeans(Sampled(next, deltas, RoundState(next, |deltas|, c.seed, k), |deltas|));
    }
  }

  lemma {:induction false} InferenceMeans(next: Generator, deltas: seq<real>, c: Contract)
    requires deltas != [] && c.iterations > 0
    ensures Describes(next, deltas, c, Medians(next, deltas, c.seed, c.iterations), Infer(next, deltas, c))
  {
    var medians, i := Medians(next, deltas, c.seed, c.iterations), Infer(next, deltas, c);
    MediansMean(next, deltas, c);
    MedianMeans(deltas);
    PercentileMeans(medians, 0.025);
    PercentileMeans(medians, 0.975);
    IntervalOrdered(next, deltas, c);
    ClassifyJudges(i.lower, i.upper);
  }

  /** The bootstrap; an empty list of deltas or an invalid contract is an error. */
  method PairedBootstrapInference(next: Generator, deltas: seq<real>, contract: Contract) returns (r: Option<Inference>)
    ensures r.Some? <==> deltas != [] && ValidContract(contract)
    ensures r.Some? ==> r.value == Infer(next, deltas, contract)
    ensures r.Some? ==> exists medians :: Describes(next, deltas, contract, medians, r.value)
  {
    if contract.iterations < MINIMUM_ITERATIONS || contract.seed >= SplitMix64.WORD64 || deltas == [] {
      return None;
    }
    var medians := BootstrapMedians(next, deltas, contract.seed, contract.iterations);
    var sorted := Sort(medians);
    var lower := Percentile(sorted, 0.025);
    var upper := Percentile(sorted, 0.975);
    r := Some(Inference(contract, Median(deltas), lower, upper, Classify(lower, upper)));
    InferenceMeans(next, deltas, contract);
  }
}
