/**
 The packet-RNG seeds of `lab/internet_condition_schedule.py`: a keyed six-round
 Feistel permutation of the 32-bit words, cycle-walked over the non-zero words and
 addressed by the (epoch, direction, path) ordinal.

 The SHA-256 draw that keys each round is a parameter: every result below holds
 for every round function, hence for every seed.
 */
module NetemSeed {

  const HALF: int := 0x1_0000
  const WORD: int := 0x1_0000_0000
  const ROUNDS: nat := 6

  type Half = x: int | 0 <= x < HALF
  type Word = x: int | 0 <= x < WORD

  /** The low 16 bits of the draw for one round index and one right half. */
  type RoundFunction = (nat, Half) -> Half

  function Pow2(bits: nat): (p: nat)
    ensures p >= 1
  {
    if bits == 0 then 1 else 2 * Pow2(bits - 1)
  }

  /** Exclusive or of the low `bits` bits of two naturals, bit by bit. */
  function XorBits(bits: nat, a: nat, b: nat): (r: nat)
    ensures r < Pow2(bits)
  {
    if bits == 0 then 0
    else (a % 2 + b % 2) % 2 + 2 * XorBits(bits - 1, a / 2, b / 2)
  }

  lemma {:induction false} LowBit(c: nat, q: nat)
    requires c < 2
    ensures (c + 2 * q) % 2 == c && (c + 2 * q) / 2 == q
  {
  }

  lemma {:induction false} XorBitsCancels(bits: nat, a: nat, b: nat)
    requires a < Pow2(bits)
    ensures XorBits(bits, XorBits(bits, a, b), b) == a
  {
    if bits > 0 {
      var low, high := (a % 2 + b % 2) % 2, XorBits(bits - 1, a / 2, b / 2);
      LowBit(low, high);
      XorBitsCancels(bits - 1, a / 2, b / 2);
      assert (low + b % 2) % 2 == a % 2;
    }
  }

  /** The bit of a number at a position. */
  function BitAt(n: nat, k: nat): nat
    decreases k
  {
    if k == 0 then n % 2 else BitAt(n / 2, k - 1)
  }

  /** A bit of the exclusive or is set exactly where the two numbers differ. */
  lemma {:induction false} XorBitsAt(bits: nat, a: nat, b: nat, k: nat)
    requires k < bits
    ensures BitAt(XorBits(bits, a, b), k) == if BitAt(a, k) != BitAt(b, k) then 1 else 0
    decreases k
  {
    LowBit((a % 2 + b % 2) % 2, XorBits(bits - 1, a / 2, b / 2));
    if k > 0 {
      XorBitsAt(bits - 1, a / 2, b / 2, k - 1);
    }
  }

  /** Cutting a number off above a position leaves the bits below it. */
  lemma {:induction false} LowBitsKept(n: nat, bits: nat, k: nat)
    requires k < bits
    ensures BitAt(n % Pow2(bits), k) == BitAt(n, k)
    decreases k
  {
    var m := Pow2(bits - 1);
    HalvedRemainder(n, m);
    if k > 0 {
      LowBitsKept(n / 2, bits - 1, k - 1);
    }
  }

  lemma {:induction false} HalvedRemainder(n: nat, m: nat)
    requires m > 0
    ensures n % (2 * m) % 2 == n % 2 && n % (2 * m) / 2 == n / 2 % m
  {
    var q, r := n / 2 / m, n / 2 % m;
    var low := n % 2;
    assert n == 2 * (m * q + r) + low;
    assert n == (2 * m) * q + (2 * r + low);
    Quotient(2 * m, q, 2 * r + low);
  }

  lemma {:induction false} Quotient(m: nat, q: int, r: nat)
    requires r < m
    ensures (m * q + r) % m == r
  {
    var x := m * q + r;
    var d := q - x / m;
    assert m * d == x % m - r;
    SmallMultiple(m, d);
  }

  lemma {:induction false} SmallMultiple(m: nat, d: int)
    requires 0 < m + m * d && m * d < m
    ensures d == 0
  {
    if d > 0 {
      assert m * d == m + m * (d - 1);
      NonNegative(m, d - 1);
    } else if d < 0 {
      assert m * d == -(m + m * (-d - 1));
      NonNegative(m, -d - 1);
    }
  }

  lemma {:induction false} NonNegative(a: nat, b: nat)
    ensures a * b >= 0
  {
  }

  lemma {:induction false} HalfBits()
    ensures Pow2(16) == HALF
  {
    assert Pow2(4) == 16;
    assert Pow2(8) == 16 * Pow2(4);
    assert Pow2(12) == 16 * Pow2(8);
    assert Pow2(16) == 16 * Pow2(12);
  }

  function Xor(a: Half, b: Half): Half {
    HalfBits();
    XorBits(16, a, b)
  }

  lemma {:induction false} XorCancels(a: Half, b: Half)
    ensures Xor(Xor(a, b), b) == a
  {
    HalfBits();
    XorBitsCancels(16, a, b);
  }

  datatype Halves = Halves(left: Half, right: Half)

  function Split(value: Word): Halves {
    Halves(value / HALF, value % HALF)
  }

  function Join(h: Halves): Word {
    h.left * HALF + h.right
  }

  lemma {:induction false} JoinSplit(value: Word, h: Halves)
    ensures Join(Split(value)) == value
    ensures Split(Join(h)) == h
  {
  }

  /** One Feistel round, and the round that undoes it. */
  function Round(f: RoundFunction, index: nat, h: Halves): Halves {
    Halves(h.right, Xor(h.left, f(index, h.right)))
  }

  function Unround(f: RoundFunction, index: nat, h: Halves): Halves {
    Halves(Xor(h.right, f(index, h.left)), h.left)
  }

  lemma {:induction false} RoundInverse(f: RoundFunction, index: nat, h: Halves)
    ensures Unround(f, index, Round(f, index, h)) == h
    ensures Round(f, index, Unround(f, index, h)) == h
  {
    XorCancels(h.left, f(index, h.right));
    XorCancels(h.right, f(index, h.left));
  }

  /** The first `n` rounds, in order; and the same rounds undone in reverse. */
  function Rounds(f: RoundFunction, n: nat, h: Halves): Halves {
    if n == 0 then h else Round(f, n - 1, Rounds(f, n - 1, h))
  }

  function Unrounds(f: RoundFunction, n: nat, h: Halves): Halves {
    if n == 0 then h else Unrounds(f, n - 1, Unround(f, n - 1, h))
  }

  lemma {:induction false} UnroundsAfterRounds(f: RoundFunction, n: nat, h: Halves)
    ensures Unrounds(f, n, Rounds(f, n, h)) == h
  {
    if n > 0 {
      UnroundsAfterRounds(f, n - 1, h);
      RoundInverse(f, n - 1, Rounds(f, n - 1, h));
    }
  }

  lemma {:induction false} RoundsAfterUnrounds(f: RoundFunction, n: nat, h: Halves)
    ensures Rounds(f, n, Unrounds(f, n, h)) == h
  {
    if n > 0 {
      RoundsAfterUnrounds(f, n - 1, Unround(f, n - 1, h));
      RoundInverse(f, n - 1, h);
    }
  }

  lemma {:induction false} RoundsInverse(f: RoundFunction, n: nat, h: Halves)
    ensures Unrounds(f, n, Rounds(f, n, h)) == h
    ensures Rounds(f, n, Unrounds(f, n, h)) == h
  {
    UnroundsAfterRounds(f, n, h);
    RoundsAfterUnrounds(f, n, h);
  }

  ghost function Permuted(f: RoundFunction, value: Word): Word {
    Join(Rounds(f, ROUNDS, Split(value)))
  }

  ghost function Unpermuted(f: RoundFunction, value: Word): Word {
    Join(Unrounds(f, ROUNDS, Split(value)))
  }

  /** The keyed permutation is a bijection of the 32-bit words, for every key. */
  lemma {:induction false} PermutedIsBijection(f: RoundFunction, value: Word)
    ensures Unpermuted(f, Permuted(f, value)) == value
    ensures Permuted(f, Unpermuted(f, value)) == value
  {
    var h := Split(value);
    JoinSplit(value, Rounds(f, ROUNDS, h));
    RoundsInverse(f, ROUNDS, h);
    JoinSplit(value, Unrounds(f, ROUNDS, h));
  }

  lemma {:induction false} PermutedInjective(f: RoundFunction, a: Word, b: Word)
    requires Permuted(f, a) == Permuted(f, b)
    ensures a == b
  {
    PermutedIsBijection(f, a);
    PermutedIsBijection(f, b);
  }

  method Permute(f: RoundFunction, value: Word) returns (r: Word)
    ensures r == Permuted(f, value)
  {
    var left: Half, right: Half := value / HALF, value % HALF;
    var round := 0;
    while round < ROUNDS
      invariant 0 <= round <= ROUNDS
      invariant Halves(left, right) == Rounds(f, round, Split(value))
    {
      var roundValue := f(round, right);
      left, right := right, Xor(left, roundValue);
      round := round + 1;
    }
    r := left * HALF + right;
  }

  /** What the cycle walk yields from a non-zero start: skip the single zero image. */
  ghost function Walked(f: RoundFunction, start: Word): Word {
    if Permuted(f, start) != 0 then Permuted(f, start) else Permuted(f, 0)
  }

  /** At most one word maps to zero, so the walk never needs a third application. */
  lemma {:induction false} WalkedNonZero(f: RoundFunction, start: Word)
    requires start != 0
    ensures Walked(f, start) != 0
  {
    if Permuted(f, start) == 0 && Permuted(f, 0) == 0 {
      PermutedInjective(f, start, 0);
    }
  }

  lemma {:induction false} WalkedInjective(f: RoundFunction, a: Word, b: Word)
    requires a != 0 && b != 0
    requires Walked(f, a) == Walked(f, b)
    ensures a == b
  {
    if Permuted(f, a) == Permuted(f, b) {
      PermutedInjective(f, a, b);
    } else if Permuted(f, a) == 0 {
      PermutedInjective(f, 0, b);
    } else {
      assert Permuted(f, b) == 0;
      PermutedInjective(f, 0, a);
    }
  }

  const MAX_EPOCHS: nat := 100_000
  const DIRECTION_COUNT: nat := 2
  const PATH_COUNT: nat := 5

  /** One row of a schedule: an epoch, a direction index and a path offset. */
  datatype Coordinate = Coordinate(epoch: nat, direction: nat, path: nat)

  predicate InSchedule(c: Coordinate) {
    c.epoch < MAX_EPOCHS && c.direction < DIRECTION_COUNT && c.path < PATH_COUNT
  }

  function Ordinal(c: Coordinate): nat {
    c.epoch * DIRECTION_COUNT * PATH_COUNT + c.direction * PATH_COUNT + c.path
  }

  lemma {:induction false} OrdinalInjective(a: Coordinate, b: Coordinate)
    requires InSchedule(a) && InSchedule(b)
    requires Ordinal(a) == Ordinal(b)
    ensures a == b
  {
    assert Ordinal(a) == 10 * a.epoch + 5 * a.direction + a.path;
    assert Ordinal(b) == 10 * b.epoch + 5 * b.direction + b.path;
  }

  ghost function SeedOf(f: RoundFunction, c: Coordinate): Word
    requires InSchedule(c)
  {
    assert Ordinal(c) == 10 * c.epoch + 5 * c.direction + c.path;
    Walked(f, Ordinal(c) + 1)
  }

  /**
   The seeds handed to `tc netem` are non-zero 32-bit words, pairwise distinct over
   every epoch, direction and path a schedule can hold, whatever the round function.
   */
  lemma {:induction false} SeedsDistinct(f: RoundFunction, a: Coordinate, b: Coordinate)
    requires InSchedule(a) && InSchedule(b)
    ensures 1 <= SeedOf(f, a) < WORD
    ensures SeedOf(f, a) == SeedOf(f, b) <==> a == b
  {
    WalkedNonZero(f, Ordinal(a) + 1);
    if SeedOf(f, a) == SeedOf(f, b) {
      WalkedInjective(f, Ordinal(a) + 1, Ordinal(b) + 1);
      OrdinalInjective(a, b);
    }
  }

  /** The seed generator, with the walk as the loop the generator runs. */
  method NetemSeedFor(f: RoundFunction, c: Coordinate) returns (seed: Word, applications: nat)
    requires InSchedule(c)
    ensures seed == SeedOf(f, c) && seed != 0
    ensures 1 <= applications <= 2
  {
    var ordinal := c.epoch * DIRECTION_COUNT * PATH_COUNT + c.direction * PATH_COUNT + c.path;
    assert ordinal == 10 * c.epoch + 5 * c.direction + c.path;
    var start: Word := ordinal + 1;
    var candidate: Word := start;
    applications := 0;
    while applications == 0 || candidate == 0
      invariant applications <= 2
      invariant applications == 0 ==> candidate == start
      invariant applications == 1 ==> candidate == Permuted(f, start)
      invariant applications == 2 ==> Permuted(f, start) == 0 && candidate == Permuted(f, 0) != 0
      decreases 2 - applications
    {
      WalkedNonZero(f, start);
      candidate := Permute(f, candidate);
      applications := applications + 1;
    }
    seed := candidate;
  }
}
