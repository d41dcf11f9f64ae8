/** Amounts are whole cents and tax rates whole hundredths of a percent. */
module Money {

  /** 100.00 percent in the unit of tax rates. */
  const FULL_RATE: int := 10000

  function Abs(a: int): nat { if a < 0 then -a else a }

  /** `a / b` rounded to the nearest integer, halves away from zero (ROUND_HALF_UP). */
  function HalfUp(a: int, b: int): int
    requires b > 0
  {
    var q := (2 * Abs(a) + b) / (2 * b);
    if a < 0 then -q else q
  }

  /** The division behind the rounding, with the products spelled out. */
  lemma Division(n: nat, b: int)
    requires b > 0
    ensures var q := (2 * n + b) / (2 * b); q >= 0 && 2 * n - b < 2 * (q * b) <= 2 * n + b
  {
    var q, r := (2 * n + b) / (2 * b), (2 * n + b) % (2 * b);
    assert 2 * n + b == q * (2 * b) + r;
    assert q * (2 * b) == 2 * (q * b);
  }

  /**
   * What the rounding means: the result is within half a unit of the quotient, and of the two
   * candidates at distance one half it is the one farther from zero.
   */
  lemma HalfUpIsNearest(a: int, b: int)
    requires b > 0
    ensures IsRounded(a, b, HalfUp(a, b))
  {
    Division(Abs(a), b);
    var q := (2 * Abs(a) + b) / (2 * b);
    assert (-q) * b == -(q * b);
  }

  predicate IsRounded(a: int, b: int, q: int) {
    && -b <= 2 * (q * b) - 2 * a <= b
    && (a >= 0 ==> -b < 2 * (q * b) - 2 * a)
    && (a <= 0 ==> 2 * (q * b) - 2 * a < b)
  }

  /** The bounds of the rounding determine it. */
  lemma HalfUpIsUnique(a: int, b: int, q: int)
    requires b > 0 && IsRounded(a, b, q)
    ensures q == HalfUp(a, b)
  {
    var h := HalfUp(a, b);
    HalfUpIsNearest(a, b);
    StrictlyApart(q, h, b);
    StrictlyApart(h, q, b);
  }

  /** The rounding treats both signs alike. */
  lemma HalfUpIsOdd(a: int, b: int)
    requires b > 0
    ensures HalfUp(-a, b) == -HalfUp(a, b)
  {
  }

  lemma StrictlyApart(p: int, q: int, b: int)
    requires b > 0
    ensures p > q ==> p * b >= q * b + b
  {
    if p > q {
      assert (p - q - 1) * b >= 0;
      assert (p - q - 1) * b == p * b - q * b - b;
    }
  }

  /** Tax on a net amount. */
  function Tax(net: int, rate: int): int { HalfUp(net * rate, FULL_RATE) }
}
