/** The SplitMix64 generator behind the bootstrap (`lab/performance_ledger.py`): it never repeats a draw. */
module SplitMix64 {
  import opened NetemSeed

  const WORD64: nat := 0x1_0000_0000_0000_0000
  const GAMMA: nat := 0x9E3779B97F4A7C15
  const FIRST: nat := 0xBF58476D1CE4E5B9
  const SECOND: nat := 0x94D049BB133111EB

  function ShiftRight(v: nat, k: nat): nat
    decreases k
  {
    if k == 0 then v else ShiftRight(v / 2, k - 1)
  }

  /** A word exclusive-or its own upper bits. */
  function Fold(bits: nat, v: nat, k: nat): nat {
    XorBits(bits, v, ShiftRight(v, k))
  }

  function Mix(state: nat): nat {
    var a := Fold(64, state, 30) * FIRST % WORD64;
    var b := Fold(64, a, 27) * SECOND % WORD64;
    Fold(64, b, 31)
  }

  function Advance(state: nat): nat {
    (state + GAMMA) % WORD64
  }

  /** From a state to the next state and the value drawn. */
  function Next(state: nat): (nat, nat) {
    (Advance(state), Mix(Advance(state)))
  }

  lemma {:induction false} NextAdvances(state: nat)
    ensures Next(state).0 == Advance(state)
  {
  }

  // ----- folding loses nothing -----

  lemma {:induction false} ShiftSmall(bits: nat, v: nat, k: nat)
    requires v < Pow2(bits)
    ensures if k <= bits then ShiftRight(v, k) < Pow2(bits - k) else ShiftRight(v, k) == 0
    decreases k
  {
    if k > 0 && bits > 0 {
      ShiftSmall(bits - 1, v / 2, k - 1);
    } else if k > 0 {
      ShiftSmall(0, v / 2, k - 1);
    }
  }

  lemma {:induction false} ShiftXor(bits: nat, a: nat, b: nat, k: nat)
    requires k <= bits
    ensures ShiftRight(XorBits(bits, a, b), k) == XorBits(bits - k, ShiftRight(a, k), ShiftRight(b, k))
    decreases k
  {
    if k > 0 {
      LowBit((a % 2 + b % 2) % 2, XorBits(bits - 1, a / 2, b / 2));
      ShiftXor(bits - 1, a / 2, b / 2, k - 1);
    }
  }

  lemma {:induction false} FoldInjective(bits: nat, x: nat, y: nat, k: nat)
    requires k > 0 && x < Pow2(bits) && y < Pow2(bits) && Fold(bits, x, k) == Fold(bits, y, k)
    ensures x == y
    decreases bits
  {
    var high, other := ShiftRight(x, k), ShiftRight(y, k);
    ShiftSmall(bits, x, k);
    ShiftSmall(bits, y, k);
    if k <= bits {
      ShiftXor(bits, x, high, k);
      ShiftXor(bits, y, other, k);
      FoldInjective(bits - k, high, other, k);
    }
    assert high == other;
    XorBitsCancels(bits, x, high);
    XorBitsCancels(bits, y, other);
  }

  // ----- multiplying by an odd constant loses nothing -----

  lemma {:induction false} UndoGamma(x: nat)
    requires x < WORD64
    ensures x * GAMMA % WORD64 * 0xF1DE83E19937733D % WORD64 == x
  {
    var q := x * GAMMA / WORD64;
    assert x * GAMMA % WORD64 * 0xF1DE83E19937733D == x + WORD64 * (x * 0x957BBF35006ED677 - q * 0xF1DE83E19937733D);
    Reduced(x, x * 0x957BBF35006ED677 - q * 0xF1DE83E19937733D);
  }

  lemma {:induction false} UndoFirst(x: nat)
    requires x < WORD64
    ensures x * FIRST % WORD64 * 0x96DE1B173F119089 % WORD64 == x
  {
    var q := x * FIRST / WORD64;
    assert x * FIRST % WORD64 * 0x96DE1B173F119089 == x + WORD64 * (x * 0x70C3BCA78F27F46C - q * 0x96DE1B173F119089);
    Reduced(x, x * 0x70C3BCA78F27F46C - q * 0x96DE1B173F119089);
  }

  lemma {:induction false} UndoSecond(x: nat)
    requires x < WORD64
    ensures x * SECOND % WORD64 * 0x319642B2D24D8EC3 % WORD64 == x
  {
    var q := x * SECOND / WORD64;
    assert x * SECOND % WORD64 * 0x319642B2D24D8EC3 == x + WORD64 * (x * 0x1CD336EDA85F1453 - q * 0x319642B2D24D8EC3);
    Reduced(x, x * 0x1CD336EDA85F1453 - q * 0x319642B2D24D8EC3);
  }

  lemma {:induction false} Reduced(x: nat, q: int)
    requires x < WORD64 && x + WORD64 * q >= 0
    ensures (x + WORD64 * q) % WORD64 == x
  {
  }

  lemma {:induction false} WordBits()
    ensures Pow2(64) == WORD64
  {
    assert Pow2(8) == 256 * Pow2(0);
    assert Pow2(16) == 256 * Pow2(8);
    assert Pow2(24) == 256 * Pow2(16);
    assert Pow2(32) == 256 * Pow2(24);
    assert Pow2(40) == 256 * Pow2(32);
    assert Pow2(48) == 256 * Pow2(40);
    assert Pow2(56) == 256 * Pow2(48);
    assert Pow2(64) == 256 * Pow2(56);
  }

  /** Different states draw different values. */
  lemma {:induction false} MixInjective(x: nat, y: nat)
    requires x < WORD64 && y < WORD64 && Mix(x) == Mix(y)
    ensures x == y
  {
    WordBits();
    var a, b := Fold(64, x, 30) * FIRST % WORD64, Fold(64, y, 30) * FIRST % WORD64;
    var c, d := Fold(64, a, 27) * SECOND % WORD64, Fold(64, b, 27) * SECOND % WORD64;
    FoldInjective(64, c, d, 31);
    UndoSecond(Fold(64, a, 27));
    UndoSecond(Fold(64, b, 27));
    FoldInjective(64, a, b, 27);
    UndoFirst(Fold(64, x, 30));
    UndoFirst(Fold(64, y, 30));
    FoldInjective(64, x, y, 30);
  }

  // ----- the whole period -----

  function StateAfter(seed: nat, draws: nat): nat {
    if draws == 0 then seed else Advance(StateAfter(seed, draws - 1))
  }

  lemma {:induction false} StateIs(seed: nat, draws: nat)
    requires seed < WORD64
    ensures StateAfter(seed, draws) == (seed + draws * GAMMA) % WORD64
  {
    if draws > 0 {
      StateIs(seed, draws - 1);
      AddReduced(seed + (draws - 1) * GAMMA);
    }
  }

  lemma {:induction false} AddReduced(n: nat)
    ensures (n % WORD64 + GAMMA) % WORD64 == (n + GAMMA) % WORD64
  {
    var q, r := n / WORD64, n % WORD64 + GAMMA;
    var p, m := r / WORD64, r % WORD64;
    assert n + GAMMA == m + WORD64 * (p + q);
    Reduced(m, p + q);
  }

  /** From every seed, the first 2^64 draws are all different. */
  lemma {:induction false} DrawsDistinct(seed: nat, i: nat, j: nat)
    requires seed < WORD64 && i < j < WORD64
    ensures Next(StateAfter(seed, i)).1 != Next(StateAfter(seed, j)).1
  {
    StatesDistinct(seed, i + 1, j - i);
    StateIs(seed, i + 1);
    StateIs(seed, j + 1);
    if Mix(StateAfter(seed, i + 1)) == Mix(StateAfter(seed, j + 1)) {
      MixInjective(StateAfter(seed, i + 1), StateAfter(seed, j + 1));
    }
  }

  lemma {:induction false} StatesDistinct(seed: nat, i: nat, n: nat)
    requires seed < WORD64 && 0 < n < WORD64
    ensures StateAfter(seed, i) != StateAfter(seed, i + n)
  {
    StateIs(seed, i);
    StateIs(seed, i + n);
    Apart(seed, i, n);
  }

  lemma {:induction false} Apart(seed: nat, i: nat, n: nat)
    requires 0 < n < WORD64
    ensures (seed + i * GAMMA) % WORD64 != (seed + (i + n) * GAMMA) % WORD64
  {
    if (seed + i * GAMMA) % WORD64 == (seed + (i + n) * GAMMA) % WORD64 {
      var q := (seed + (i + n) * GAMMA) / WORD64 - (seed + i * GAMMA) / WORD64;
      assert n * GAMMA == WORD64 * q;
      Reduced(0, q);
      UndoGamma(n);
    }
  }
}
