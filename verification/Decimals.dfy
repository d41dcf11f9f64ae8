/** Decimal digits of natural numbers. */
module Decimals {

  predicate IsDigit(c: char) { '0' <= c <= '9' }

  predicate AllDigits(s: string) { forall i | 0 <= i < |s| :: IsDigit(s[i]) }

  function DigitsValue(s: string): nat
    requires AllDigits(s)
  {
    if s == "" then 0
    else 10 * DigitsValue(s[..|s| - 1]) + (s[|s| - 1] as int - '0' as int)
  }

  function Decimal(n: nat): (s: string)
    ensures |s| > 0 && AllDigits(s)
  {
    var digit := ('0' as int + n % 10) as char;
    if n < 10 then [digit] else Decimal(n / 10) + [digit]
  }

  lemma {:induction false} DecimalValue(n: nat)
    ensures DigitsValue(Decimal(n)) == n
  {
    if n >= 10 {
      DecimalValue(n / 10);
      var s := Decimal(n);
      assert s[..|s| - 1] == Decimal(n / 10);
    }
  }

  /** Only zero itself starts with the digit zero. */
  lemma {:induction false} NoLeadingZero(n: nat)
    ensures Decimal(n)[0] == '0' <==> n == 0
  {
    if n >= 10 { NoLeadingZero(n / 10); }
  }

  function Power10(n: nat): nat { if n == 0 then 1 else 10 * Power10(n - 1) }

  /** The first digit counts as often as there are powers of ten after it. */
  lemma {:induction false} FirstDigitCounts(s: string)
    requires s != "" && AllDigits(s)
    ensures AllDigits(s[1..]) && Power10(|s| - 1) > 0
    ensures DigitsValue(s) == (s[0] as int - 48) * Power10(|s| - 1) + DigitsValue(s[1..])
  {
    if |s| > 1 {
      var front := s[..|s| - 1];
      FirstDigitCounts(front);
      assert s[1..][..|s| - 2] == front[1..];
      TenTimes(s[0] as int - 48, Power10(|s| - 2));
    } else {
      assert s[..0] == "" && s[1..] == "";
    }
  }

  lemma TenTimes(a: int, b: int)
    ensures 10 * (a * b) == a * (10 * b)
  {
  }
}
