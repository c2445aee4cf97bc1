/**
 * The tax-calculation tool, over exact real numbers: the tax on an order
 * total at a rate (8% when no rate is given), and the total with tax.
 */
module Tax {
  import opened Wrappers

  /** The rate used when the caller gives none. */
  const DefaultTaxRate: real := 0.08

  /** The two amounts the tool reports. */
  datatype TaxQuote = TaxQuote(taxAmount: real, totalWithTax: real)

  /** The rate in force: the given one, or the default when it is absent. */
  function EffectiveRate(taxRate: Option<real>): real {
    match taxRate
    case None => DefaultTaxRate
    case Some(rate) => rate
  }

  /**
   * The tax on `orderTotal` and the total with tax. Nothing is rejected:
   * negative totals and rates go straight through.
   */
  function CalculateTax(orderTotal: real, taxRate: Option<real>): (q: TaxQuote)
    ensures taxRate.Some? ==> q.taxAmount == orderTotal * taxRate.value
    ensures taxRate.None? ==> q.taxAmount == orderTotal * 0.08
    ensures q.totalWithTax - q.taxAmount == orderTotal
    ensures q.totalWithTax == orderTotal * (1.0 + EffectiveRate(taxRate))
  {
    var taxAmount := orderTotal * EffectiveRate(taxRate);
    TaxQuote(taxAmount, orderTotal + taxAmount)
  }

  /** Leaving the rate out is the same as passing 0.08. */
  lemma DefaultRateSubstitution(orderTotal: real)
    ensures CalculateTax(orderTotal, None) == CalculateTax(orderTotal, Some(0.08))
  {
  }

  /** Only an absent rate is replaced: an explicit zero rate is kept and gives no tax. */
  lemma ZeroRateIsKept(orderTotal: real)
    ensures CalculateTax(orderTotal, Some(0.0)) == TaxQuote(0.0, orderTotal)
    ensures orderTotal != 0.0 ==> CalculateTax(orderTotal, Some(0.0)) != CalculateTax(orderTotal, None)
  {
  }

  /** Worked values: the default rate on 100, a 10% rate on 100, and a negative total. */
  lemma TaxExamples()
    ensures CalculateTax(100.0, None) == TaxQuote(8.0, 108.0)
    ensures CalculateTax(100.0, Some(0.10)) == TaxQuote(10.0, 110.0)
    ensures CalculateTax(-50.0, None) == TaxQuote(-4.0, -54.0)
  {
  }
}
