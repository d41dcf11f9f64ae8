/** Net, tax and gross value of a deal entered with or without tax. */
module DealTax {
  import opened Money

  /** The commercial part of a deal: its amount in cents, its tax rate and how the amount is meant. */
  datatype Price = Price(value: int, rate: int, includesTax: bool) {
    predicate Valid() { 0 <= rate <= FULL_RATE }
  }

  function NetValue(p: Price): int
    requires p.Valid()
  {
    if !p.includesTax then p.value else HalfUp(p.value * FULL_RATE, FULL_RATE + p.rate)
  }

  function TaxValue(p: Price): int
    requires p.Valid()
  {
    if p.includesTax then p.value - NetValue(p) else Tax(p.value, p.rate)
  }

  function GrossValue(p: Price): int
    requires p.Valid()
  {
    if p.includesTax then p.value else p.value + TaxValue(p)
  }

  function Exclusive(net: int, rate: int): Price { Price(net, rate, false) }

  function Inclusive(gross: int, rate: int): Price { Price(gross, rate, true) }

  /** The integer nearest to a quotient, with its distance doubled; halves away from zero. */
  predicate IsNearest(q: int, a: int, b: int) {
    var excess := 2 * (q * b) - 2 * a;
    -b <= excess <= b && (a >= 0 ==> excess != -b) && (a <= 0 ==> excess != b)
  }

  /** Net and tax make up the gross value, and the part that is not entered is rounded to the cent. */
  lemma PriceParts(p: Price)
    requires 0 <= p.rate <= 10000
    ensures NetValue(p) + TaxValue(p) == GrossValue(p)
    ensures if p.includesTax
            then GrossValue(p) == p.value && IsNearest(NetValue(p), p.value * 10000, 10000 + p.rate)
            else NetValue(p) == p.value && IsNearest(TaxValue(p), p.value * p.rate, 10000)
  {
    HalfUpIsNearest(p.value * 10000, 10000 + p.rate);
    HalfUpIsNearest(p.value * p.rate, 10000);
  }

  lemma ExpandNet(net: int, rate: int, tax: int)
    ensures (net + tax) * FULL_RATE == net * FULL_RATE + tax * FULL_RATE
    ensures net * (FULL_RATE + rate) == net * FULL_RATE + net * rate
  {
  }

  /**
   * Entering the gross value of a tax-exclusive price as tax-inclusive gives back exactly the
   * same net amount and the same tax, for every amount and every rate.
   */
  lemma ExclusiveThenInclusive(net: int, rate: int)
    requires 0 <= rate <= FULL_RATE
    ensures var back := Inclusive(GrossValue(Exclusive(net, rate)), rate);
            && NetValue(back) == net
            && TaxValue(back) == TaxValue(Exclusive(net, rate))
            && GrossValue(back) == GrossValue(Exclusive(net, rate))
  {
    var tax := Tax(net, rate);
    var gross := net + tax;
    HalfUpIsNearest(net * rate, FULL_RATE);
    ExpandNet(net, rate, tax);
    if rate == 0 { assert net * rate == 0; }
    assert IsRounded(gross * FULL_RATE, FULL_RATE + rate, net);
    HalfUpIsUnique(gross * FULL_RATE, FULL_RATE + rate, net);
  }

  /** Splitting a tax-inclusive amount and rebuilding it from the net is off by at most one cent. */
  lemma InclusiveThenExclusive(gross: int, rate: int)
    requires 0 <= rate <= FULL_RATE
    ensures Abs(Rebuilt(gross, rate) - gross) <= 1
  {
    var net := NetValue(Inclusive(gross, rate));
    var tax := Tax(net, rate);
    HalfUpIsNearest(gross * FULL_RATE, FULL_RATE + rate);
    HalfUpIsNearest(net * rate, FULL_RATE);
    ExpandNet(net, rate, tax);
  }

  function Rebuilt(gross: int, rate: int): int
    requires 0 <= rate <= FULL_RATE
  {
    GrossValue(Exclusive(NetValue(Inclusive(gross, rate)), rate))
  }

  ghost predicate IsGrossOfSomeNet(gross: int, rate: int)
    requires 0 <= rate <= FULL_RATE
  {
    exists net :: GrossValue(Exclusive(net, rate)) == gross
  }

  /**
   * What is left over when the net amount is computed: a remainder of at most half a cent's worth
   * below or less than that above the amount does not reach the rounding of the tax.
   */
  predicate KeepsItsCents(gross: int, rate: int)
    requires 0 <= rate <= FULL_RATE
  {
    var d := FULL_RATE + rate;
    var r := Abs(gross) * FULL_RATE % d;
    2 * r <= FULL_RATE || 2 * (d - r) < FULL_RATE
  }

  lemma HalfUpOfRemainder(a: nat, d: int)
    requires d > 0
    ensures HalfUp(a, d) >= 0 && a - HalfUp(a, d) * d == if 2 * (a % d) < d then a % d else a % d - d
  {
    var q, r := a / d, a % d;
    assert a == q * d + r;
    assert (q + 1) * d == q * d + d;
    HalfUpIsUnique(a, d, if 2 * r < d then q else q + 1);
  }

  /** The split rounds down or up by the remainder. */
  lemma NetOfRemainder(gross: nat, rate: int)
    requires 0 <= rate <= FULL_RATE
    ensures var d := FULL_RATE + rate;
            var r := gross * FULL_RATE % d;
            var net := NetValue(Inclusive(gross, rate));
            net >= 0 && gross * FULL_RATE - net * d == if 2 * r < d then r else r - d
  {
    HalfUpOfRemainder(gross * FULL_RATE, FULL_RATE + rate);
  }

  lemma RebuildOfNonnegative(gross: nat, rate: int)
    requires 0 <= rate <= FULL_RATE
    ensures Rebuilt(gross, rate) == gross <==> KeepsItsCents(gross, rate)
  {
    var net := NetValue(Inclusive(gross, rate));
    NetOfRemainder(gross, rate);
    ExpandNet(net, rate, gross - net);
    HalfUpIsNearest(net * rate, FULL_RATE);
    assert net * rate >= 0;
    if IsRounded(net * rate, FULL_RATE, gross - net) { HalfUpIsUnique(net * rate, FULL_RATE, gross - net); }
    if net == 0 || rate == 0 { assert net * rate == 0; }
  }

  lemma NegativeProduct(a: int, b: int)
    ensures -a * b == -(a * b)
  {
  }

  lemma RebuildIsOdd(gross: int, rate: int)
    requires 0 <= rate <= FULL_RATE
    ensures Rebuilt(-gross, rate) == -Rebuilt(gross, rate)
  {
    var net := NetValue(Inclusive(gross, rate));
    NegativeProduct(gross, FULL_RATE);
    HalfUpIsOdd(gross * FULL_RATE, FULL_RATE + rate);
    NegativeProduct(net, rate);
    HalfUpIsOdd(net * rate, FULL_RATE);
    assert Rebuilt(-gross, rate) == -net + Tax(-net, rate);
  }

  /** The rebuilt amount is the original one exactly when the remainder of the split is small. */
  lemma RebuildIsExactFor(gross: int, rate: int)
    requires 0 <= rate <= FULL_RATE
    ensures Rebuilt(gross, rate) == gross <==> KeepsItsCents(gross, rate)
  {
    RebuildOfNonnegative(Abs(gross), rate);
    if gross < 0 { RebuildIsOdd(-gross, rate); }
  }

  /** So exactly those amounts are gross values of some net amount. */
  lemma GrossValuesAre(gross: int, rate: int)
    requires 0 <= rate <= FULL_RATE
    ensures IsGrossOfSomeNet(gross, rate) <==> KeepsItsCents(gross, rate)
  {
    RebuildIsExactFor(gross, rate);
    if IsGrossOfSomeNet(gross, rate) {
      var net :| GrossValue(Exclusive(net, rate)) == gross;
      ExclusiveThenInclusive(net, rate);
    }
  }

  /** The cent can be lost: one cent including 100 percent tax is rebuilt as two. */
  lemma RebuildCanBeOff()
    ensures Rebuilt(1, FULL_RATE) == 2
  {
  }
}
