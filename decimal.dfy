/**
 * Decimal integers as text: `fmt.Sprintf("%d", n)` and `strconv.Atoi(s)`
 * as the ticket codec, the TTL clamp and the configuration readers use them.
 * Go strings are byte strings; a `char` here stands for one byte.
 */
module Decimal {
  import opened Wrappers

  const MinInt64: int := -0x8000_0000_0000_0000
  const MaxInt64: int := 0x7FFF_FFFF_FFFF_FFFF

  predicate IsDigit(c: char) { '0' <= c <= '9' }

  predicate AllDigits(s: string) { forall i :: 0 <= i < |s| ==> IsDigit(s[i]) }

  function DigitValue(c: char): (d: nat)
    requires IsDigit(c)
    ensures d < 10
  {
    (c as int) - ('0' as int)
  }

  function DigitChar(d: nat): (c: char)
    requires d < 10
    ensures IsDigit(c) && DigitValue(c) == d
  {
    (('0' as int) + d) as char
  }

  function Pow10(k: nat): (p: nat)
    ensures p >= 1
  {
    if k == 0 then 1 else 10 * Pow10(k - 1)
  }

  /** The value of a non-empty run of decimal digits, most significant first. */
  function DigitsValue(s: string): nat
    requires AllDigits(s)
  {
    if |s| == 0 then 0 else DigitsValue(s[..|s| - 1]) * 10 + DigitValue(s[|s| - 1])
  }

  /** The decimal digits of `n` without leading zeros. */
  function Digits(n: nat): (s: string)
    ensures |s| >= 1 && AllDigits(s)
    ensures s[0] != '-' && s[0] != '+'
  {
    if n < 10 then [DigitChar(n)] else Digits(n / 10) + [DigitChar(n % 10)]
  }

  /** `fmt.Sprintf("%d", n)`. */
  function FormatInt(n: int): string
  {
    if n < 0 then "-" + Digits(-n) else Digits(n)
  }

  /**
   * `strconv.Atoi(s)` on a 64-bit platform: an optional sign, then at least one
   * decimal digit and nothing else, with a value that fits in an int64.
   * Any other input is an error (`None`).
   */
  function Atoi(s: string): (r: Option<int>)
    ensures r.Some? ==> MinInt64 <= r.value <= MaxInt64
    ensures r.Some? ==> |s| >= 1 && (IsDigit(s[0]) || s[0] == '-' || s[0] == '+')
    ensures r.Some? && AllDigits(s) ==> r.value == DigitsValue(s)
    ensures r.Some? ==>
      var body := if s[0] == '-' || s[0] == '+' then s[1..] else s;
      |body| >= 1 && AllDigits(body) &&
      r.value == if s[0] == '-' then 0 - (DigitsValue(body) as int) else DigitsValue(body)
    ensures |s| >= 1 && AllDigits(s) && DigitsValue(s) <= MaxInt64 ==> r == Some(DigitsValue(s))
    ensures |s| >= 2 && s[0] == '+' && AllDigits(s[1..]) && DigitsValue(s[1..]) <= MaxInt64 ==> r == Some(DigitsValue(s[1..]))
    ensures |s| >= 2 && s[0] == '-' && AllDigits(s[1..]) && DigitsValue(s[1..]) <= -MinInt64 ==> r == Some(0 - (DigitsValue(s[1..]) as int))
  {
    if |s| == 0 then None
    else
      var signed := s[0] == '-' || s[0] == '+';
      var body := if signed then s[1..] else s;
      if |body| == 0 || !AllDigits(body) then None
      else
        var v: int := if s[0] == '-' then 0 - (DigitsValue(body) as int) else DigitsValue(body);
        if MinInt64 <= v <= MaxInt64 then Some(v) else None
  }

  lemma {:induction false} DigitsValueOfDigits(n: nat)
    ensures DigitsValue(Digits(n)) == n
  {
    if n >= 10 {
      DigitsValueOfDigits(n / 10);
      var s := Digits(n);
      assert s[..|s| - 1] == Digits(n / 10);
    }
  }

  /** Formatting with `%d` and parsing with `strconv.Atoi` are inverse on int64. */
  lemma AtoiFormatInt(n: int)
    requires MinInt64 <= n <= MaxInt64
    ensures Atoi(FormatInt(n)) == Some(n)
  {
    if n < 0 {
      var s := FormatInt(n);
      DigitsValueOfDigits(-n);
      assert s[0] == '-' && s[1..] == Digits(-n);
      assert DigitsValue(s[1..]) <= -MinInt64;
    } else {
      DigitsValueOfDigits(n);
      assert FormatInt(n) == Digits(n);
    }
  }

  /** A number in [10^(k-1), 10^k) has exactly k digits (and 0 has one). */
  lemma {:induction false} DigitsLength(n: nat, k: nat)
    requires k >= 1 && n < Pow10(k)
    requires k == 1 || Pow10(k - 1) <= n
    ensures |Digits(n)| == k
  {
    if k > 1 {
      assert Pow10(k - 1) == 10 * Pow10(k - 2);
      assert n / 10 < Pow10(k - 1);
      assert k - 1 == 1 || Pow10(k - 2) <= n / 10;
      DigitsLength(n / 10, k - 1);
    }
  }

  /** A number of at least 10^k has more than k digits. */
  lemma {:induction false} DigitsLengthAtLeast(n: nat, k: nat)
    requires Pow10(k) <= n
    ensures |Digits(n)| > k
  {
    if k > 0 {
      assert Pow10(k) == 10 * Pow10(k - 1);
      DigitsLengthAtLeast(n / 10, k - 1);
    }
  }

  lemma DigitsDropOne(n: nat)
    requires n >= 10
    ensures |Digits(n)| >= 2
    ensures Digits(n)[..|Digits(n)| - 1] == Digits(n / 10)
  {
  }

  lemma DivTenTwice(n: nat)
    ensures n / 10 / 10 == n / 100
    ensures n / 100 / 10 == n / 1000
  {
    var q, r := n / 1000, n % 1000;
    assert n == 1000 * q + r;
    var h, t, u := r / 100, r / 10 % 10, r % 10;
    assert r == 100 * h + 10 * t + u;
    assert n / 10 == 100 * q + 10 * h + t;
    assert n / 100 == 10 * q + h;
  }

  /** Dropping the last three digits of a number of at least four digits divides it by 1000. */
  lemma DigitsDropThree(n: nat)
    requires n >= 1000
    ensures |Digits(n)| >= 4
    ensures Digits(n)[..|Digits(n)| - 3] == Digits(n / 1000)
  {
    var q1, q2 := n / 10, n / 100;
    DivTenTwice(n);
    DigitsDropOne(n);
    DigitsDropOne(q1);
    DigitsDropOne(q2);
    var a, b, c := Digits(n), Digits(q1), Digits(q2);
    assert a[..|a| - 3] == b[..|b| - 2] == c[..|c| - 1];
  }

  /** A duration setting in effect: `strconv.Atoi` succeeds and the value is positive. */
  function PositiveAtoi(s: string): (r: Option<int>)
    ensures r.Some? <==> Atoi(s).Some? && Atoi(s).value > 0
    ensures r.Some? ==> r.value == Atoi(s).value
  {
    match Atoi(s)
    case Some(d) => if d > 0 then Some(d) else None
    case None => None
  }

  /**
   * Formatting with `%d` and reading back as a duration setting: a positive
   * int64 is read as itself, and zero or a negative number switches the
   * setting off.
   */
  lemma PositiveAtoiFormatInt(n: int)
    requires MinInt64 <= n <= MaxInt64
    ensures PositiveAtoi(FormatInt(n)) == if n > 0 then Some(n) else None
  {
    AtoiFormatInt(n);
  }
}
