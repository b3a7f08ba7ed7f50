/** The `tc` tokens of a schedule row: printing, strict parsing, and their round trips. */
module Tokens {
  import opened Decimal
  import opened Outcomes

  const PPM_MAX: nat := 1_000_000

  /** `_percent_token`: four fractional digits at most, no trailing zero. */
  function PercentToken(ppm: nat): string
    requires ppm <= PPM_MAX
  {
    var whole, fractional := ppm / 10_000, ppm % 10_000;
    if fractional == 0 then Digits(whole) + "%"
    else TrimZeros(Digits(whole) + "." + Padded(4, fractional)) + "%"
  }

  /** The position of the first `c` in `s`, or `|s|`: where `str.partition` splits. */
  function FirstOf(s: string, c: char): (i: nat)
    ensures i <= |s|
    ensures i < |s| ==> s[i] == c
    ensures forall j :: 0 <= j < i ==> s[j] != c
  {
    if s == "" then 0
    else if s[0] == c then 0
    else 1 + FirstOf(s[1..], c)
  }

  /** Whether a token fits `(0|[1-9][0-9]*)(\.[0-9]{1,4})?%`. */
  predicate IsPercentShape(token: string) {
    token != "" && token[|token| - 1] == '%' &&
    var number := token[..|token| - 1];
    var dot := FirstOf(number, '.');
    IsNumeral(number[..dot]) &&
    (dot < |number| ==> 1 <= |number| - dot - 1 <= 4 && AllDigits(number[dot + 1..]))
  }

  /** The value a well-shaped percentage token denotes, in parts per million. */
  function PercentValue(token: string): nat
    requires IsPercentShape(token)
  {
    var number := token[..|token| - 1];
    var dot := FirstOf(number, '.');
    var fraction := if dot < |number| then (number[dot + 1..] + "0000")[..4] else "0000";
    ParseNat(number[..dot]) * 10_000 + ParseNat(fraction)
  }

  /** `_percent_ppm`: only the canonical spelling of a value in range is legal. */
  function PercentPpm(token: string): (r: Option<nat>)
    ensures r.Some? ==> r.value <= PPM_MAX && PercentToken(r.value) == token
  {
    if !IsPercentShape(token) then None
    else
      var ppm := PercentValue(token);
      if ppm > PPM_MAX || PercentToken(ppm) != token then None else Some(ppm)
  }

  lemma {:induction false} FirstOfAppend(a: string, b: string, c: char)
    requires c !in a
    ensures FirstOf(a + [c] + b, c) == |a|
    ensures FirstOf(a, c) == |a|
  {
    var s := a + [c] + b;
    var i := FirstOf(s, c);
    assert s[|a|] == c;
    assert forall j :: 0 <= j < |a| ==> s[j] == a[j];
  }

  lemma {:induction false} NoDot(s: string)
    requires AllDigits(s)
    ensures '.' !in s
  {
  }

  lemma {:induction false} ZerosParse()
    ensures AllDigits("0000") && ParseNat("0000") == 0
  {
    assert Padded(4, 0) == "0000" by {
      assert Padded(1, 0) == "0";
      assert Padded(2, 0) == "00";
      assert Padded(3, 0) == "000";
    }
    PaddedRoundTrip(4, 0);
  }

  lemma {:induction false} TenThousand()
    ensures Pow10(4) == 10_000
  {
    assert Pow10(2) == 100;
  }

  lemma {:induction false} WholeShape(w: string)
    requires IsNumeral(w)
    ensures IsPercentShape(w + "%") && PercentValue(w + "%") == ParseNat(w) * 10_000
  {
    var token := w + "%";
    assert token[..|token| - 1] == w;
    NoDot(w);
    FirstOfAppend(w, "", '.');
    assert w[..|w|] == w;
    ZerosParse();
  }

  lemma {:induction false} FractionShape(w: string, t: string)
    requires IsNumeral(w) && AllDigits(t) && 1 <= |t| <= 4
    ensures AllDigits((t + "0000")[..4])
    ensures IsPercentShape(w + "." + t + "%")
    ensures PercentValue(w + "." + t + "%") == ParseNat(w) * 10_000 + ParseNat((t + "0000")[..4])
  {
    var token := w + "." + t + "%";
    var number := token[..|token| - 1];
    assert number == w + ['.'] + t;
    NoDot(w);
    FirstOfAppend(w, t, '.');
    assert number[..|w|] == w && number[|w| + 1..] == t;
  }

  /** Dropping the trailing zeros of a four-digit fraction loses nothing. */
  lemma {:induction false} TrimmedFraction(f: string)
    requires |f| == 4
    ensures (TrimZeros(f) + "0000")[..4] == f
  {
    var t := TrimZeros(f);
    TrimZerosRestores(f);
    assert (t + "0000")[..4] == t + "0000"[..4 - |t|];
    assert "0000"[..4 - |t|] == Zeros(4 - |t|);
  }

  /** The token of a value with a fractional part, spelled out. */
  lemma {:induction false} FractionToken(whole: nat, fractional: nat) returns (t: string)
    requires 0 < fractional < 10_000
    ensures AllDigits(t) && 1 <= |t| <= 4
    ensures TrimZeros(Digits(whole) + "." + Padded(4, fractional)) == Digits(whole) + "." + t
    ensures AllDigits((t + "0000")[..4]) && ParseNat((t + "0000")[..4]) == fractional
  {
    var f := Padded(4, fractional);
    TenThousand();
    PaddedRoundTrip(4, fractional);
    TrimZerosNonEmpty(f);
    TrimZerosAppend(Digits(whole) + ".", f);
    t := TrimZeros(f);
    assert t == f[..|t|];
    TrimmedFraction(f);
  }

  lemma {:induction false} PercentTokenShape(ppm: nat)
    requires ppm <= PPM_MAX
    ensures IsPercentShape(PercentToken(ppm)) && PercentValue(PercentToken(ppm)) == ppm
  {
    var whole, fractional := ppm / 10_000, ppm % 10_000;
    var w := Digits(whole);
    DigitsRoundTrip(whole);
    if fractional == 0 {
      WholeShape(w);
    } else {
      var t := FractionToken(whole, fractional);
      FractionShape(w, t);
    }
  }

  /** Printing then parsing gives the value back, for every probability in range. */
  lemma {:induction false} PercentRoundTrip(ppm: nat)
    requires ppm <= PPM_MAX
    ensures PercentPpm(PercentToken(ppm)) == Some(ppm)
  {
    PercentTokenShape(ppm);
  }

  /** `f"{n}kbit"` and its parser `[1-9][0-9]*kbit`. */
  function RateToken(kbit: nat): string {
    Digits(kbit) + "kbit"
  }

  function RateKbit(token: string): Option<nat> {
    if |token| > 4 && token[|token| - 4..] == "kbit" && IsNumeral(token[..|token| - 4]) && token[0] != '0'
    then Some(ParseNat(token[..|token| - 4])) else None
  }

  /** `f"{n}ms"` and its parser `(0|[1-9][0-9]*)ms`. */
  function TimeToken(ms: nat): string {
    Digits(ms) + "ms"
  }

  function TimeMs(token: string): Option<nat> {
    if |token| > 2 && token[|token| - 2..] == "ms" && IsNumeral(token[..|token| - 2])
    then Some(ParseNat(token[..|token| - 2])) else None
  }

  /** Zero is a legal time but not a legal rate. */
  lemma {:induction false} UnitRoundTrips(n: nat)
    ensures TimeMs(TimeToken(n)) == Some(n)
    ensures RateKbit(RateToken(n)) == if n > 0 then Some(n) else None
  {
    DigitsRoundTrip(n);
    var time, rate := TimeToken(n), RateToken(n);
    assert time[..|time| - 2] == Digits(n) && time[|time| - 2..] == "ms";
    assert rate[..|rate| - 4] == Digits(n) && rate[|rate| - 4..] == "kbit";
    assert rate[0] == Digits(n)[0];
  }

  /** Only canonical spellings parse: each accepted token is the print of its value. */
  lemma {:induction false} UnitParsersCanonical(token: string)
    ensures TimeMs(token).Some? ==> TimeToken(TimeMs(token).value) == token
    ensures RateKbit(token).Some? ==> RateToken(RateKbit(token).value) == token && RateKbit(token).value > 0
  {
    if TimeMs(token).Some? {
      ParseRoundTrip(token[..|token| - 2]);
      assert token == token[..|token| - 2] + token[|token| - 2..];
    }
    if RateKbit(token).Some? {
      ParseRoundTrip(token[..|token| - 4]);
      assert token == token[..|token| - 4] + token[|token| - 4..];
    }
  }
}
