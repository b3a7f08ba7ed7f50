/** Decimal numerals as the lab tools print and read them. */
module Decimal {

  predicate IsDigit(c: char) {
    '0' <= c <= '9'
  }

  predicate AllDigits(s: string) {
    forall i :: 0 <= i < |s| ==> IsDigit(s[i])
  }

  function DigitChar(d: nat): (c: char)
    requires d < 10
    ensures IsDigit(c)
    ensures DigitValue(c) == d
  {
    '0' + d as char
  }

  function DigitValue(c: char): (d: nat)
    requires IsDigit(c)
    ensures d < 10
  {
    (c - '0') as int
  }

  /** `str(n)`. */
  function Digits(n: nat): string {
    if n < 10 then [DigitChar(n)] else Digits(n / 10) + [DigitChar(n % 10)]
  }

  /** `int(s)` on a string of decimal digits; leading zeros are allowed. */
  function ParseNat(s: string): nat
    requires AllDigits(s)
  {
    if s == "" then 0
    else 10 * ParseNat(s[..|s| - 1]) + DigitValue(s[|s| - 1])
  }

  /** `0|[1-9][0-9]*` */
  predicate IsNumeral(s: string) {
    s != "" && AllDigits(s) && (s[0] == '0' ==> |s| == 1)
  }

  function Pow10(k: nat): (p: nat)
    ensures p >= 1
  {
    if k == 0 then 1 else 10 * Pow10(k - 1)
  }

  lemma {:induction false} DigitsRoundTrip(n: nat)
    ensures IsNumeral(Digits(n))
    ensures ParseNat(Digits(n)) == n
    ensures n > 0 ==> Digits(n)[0] != '0'
  {
    if n >= 10 {
      DigitsRoundTrip(n / 10);
      var s := Digits(n);
      assert s[..|s| - 1] == Digits(n / 10);
    } else {
      assert Digits(n)[..0] == "";
    }
  }

  /** Every numeral without redundant leading zeros is the print of its value. */
  lemma {:induction false} ParseRoundTrip(s: string)
    requires IsNumeral(s)
    ensures Digits(ParseNat(s)) == s
    ensures s[0] != '0' ==> ParseNat(s) > 0
  {
    var front, last := s[..|s| - 1], s[|s| - 1];
    assert s == front + [last];
    if front != "" {
      ParseRoundTrip(front);
    } else {
      assert ParseNat(front) == 0;
    }
  }

  /** The length of a numeral, bounded both ways by powers of ten. */
  lemma {:induction false} DigitsLength(n: nat, k: nat)
    requires k >= 1
    ensures n < Pow10(k) <==> |Digits(n)| <= k
  {
    if n >= 10 {
      if k == 1 {
        assert Pow10(1) == 10 * Pow10(0);
        assert |Digits(n)| == |Digits(n / 10)| + 1;
        DigitsNonEmpty(n / 10);
      } else {
        DigitsLength(n / 10, k - 1);
        assert n < 10 * Pow10(k - 1) <==> n / 10 < Pow10(k - 1);
      }
    } else {
      assert Pow10(k) == 10 * Pow10(k - 1);
    }
  }

  lemma {:induction false} DigitsNonEmpty(n: nat)
    ensures Digits(n) != ""
  {
  }

  /** `f"{n:04d}"` for n below ten thousand, and fixed-width printing in general. */
  function Padded(width: nat, n: nat): (s: string)
    ensures |s| == width
  {
    if width == 0 then "" else Padded(width - 1, n / 10) + [DigitChar(n % 10)]
  }

  lemma {:induction false} PaddedRoundTrip(width: nat, n: nat)
    requires n < Pow10(width)
    ensures AllDigits(Padded(width, n))
    ensures ParseNat(Padded(width, n)) == n
  {
    if width > 0 {
      PaddedRoundTrip(width - 1, n / 10);
      var s := Padded(width, n);
      assert s[..|s| - 1] == Padded(width - 1, n / 10);
    }
  }

  /** `s.rstrip("0")` */
  function TrimZeros(s: string): (r: string)
    ensures r <= s
  {
    if s != "" && s[|s| - 1] == '0' then TrimZeros(s[..|s| - 1]) else s
  }

  function Zeros(n: nat): (s: string)
    ensures |s| == n
  {
    seq(n, _ => '0')
  }

  lemma {:induction false} TrimZerosRestores(s: string)
    ensures s == TrimZeros(s) + Zeros(|s| - |TrimZeros(s)|)
  {
    if s != "" && s[|s| - 1] == '0' {
      var front := s[..|s| - 1];
      TrimZerosRestores(front);
      assert s == front + ['0'];
      var k := |front| - |TrimZeros(front)|;
      assert Zeros(k + 1) == Zeros(k) + ['0'];
    }
  }

  lemma {:induction false} TrimZerosAppend(a: string, b: string)
    requires TrimZeros(b) != ""
    ensures TrimZeros(a + b) == a + TrimZeros(b)
  {
    if b[|b| - 1] == '0' {
      assert (a + b)[..|a + b| - 1] == a + b[..|b| - 1];
      TrimZerosAppend(a, b[..|b| - 1]);
    }
  }

  lemma {:induction false} TrimZerosNonEmpty(s: string)
    requires AllDigits(s) && ParseNat(s) > 0
    ensures TrimZeros(s) != ""
  {
    if s[|s| - 1] == '0' {
      TrimZerosNonEmpty(s[..|s| - 1]);
    }
  }
}
