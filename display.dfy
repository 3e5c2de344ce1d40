/** The conversion arithmetic behind displaying a PLN amount: in EUR it is
    divided by the exchange rate, in PLN it is shown as it is. Number
    formatting itself is not part of this model. */
module Display {
  import opened Fields
  import Engine
  import Types

  datatype Currency = PLN | EUR

  /** The currency a result is shown in: the forced one if given, otherwise EUR
      in EUR mode and PLN otherwise. */
  function TargetCurrency(forceCurrency: Option<Currency>, isEuroMode: bool): (c: Currency)
    ensures forceCurrency.Some? ==> c == forceCurrency.value
    ensures forceCurrency.None? ==> (c == EUR <==> isEuroMode)
  {
    match forceCurrency
    case Some(c) => c
    case None => if isEuroMode then EUR else PLN
  }

  /** The number `formatResultCurrency` formats for a PLN amount. */
  function ResultDisplayValue(valuePln: real, forceCurrency: Option<Currency>, isEuroMode: bool, exchangeRate: real): (v: real)
    requires exchangeRate != 0.0
    ensures TargetCurrency(forceCurrency, isEuroMode) == EUR ==> v * exchangeRate == valuePln
    ensures TargetCurrency(forceCurrency, isEuroMode) == PLN ==> v == valuePln
  {
    if TargetCurrency(forceCurrency, isEuroMode) == EUR then valuePln / exchangeRate else valuePln
  }

  /** The number `getUnitRateDisplay` formats for a per-unit PLN rate. */
  function UnitRateDisplayValue(ratePln: real, isEuroMode: bool, exchangeRate: real): (v: real)
    requires exchangeRate != 0.0
    ensures isEuroMode ==> v * exchangeRate == ratePln
    ensures !isEuroMode ==> v == ratePln
  {
    if isEuroMode then ratePln / exchangeRate else ratePln
  }

  /** A per-unit rate is converted exactly as an unforced result amount. */
  lemma UnitRateAgreesWithResult(ratePln: real, isEuroMode: bool, exchangeRate: real)
    requires exchangeRate != 0.0
    ensures UnitRateDisplayValue(ratePln, isEuroMode, exchangeRate) == ResultDisplayValue(ratePln, None, isEuroMode, exchangeRate)
  {
  }

  /** Displaying in EUR a non-negative EUR revenue converted to PLN gives back
      the revenue as entered. */
  lemma EuroRoundTrip(revenue: real, exchangeRate: real)
    requires exchangeRate > 0.0 && revenue >= 0.0
    ensures ResultDisplayValue(Engine.ToBase(revenue, true, exchangeRate), None, true, exchangeRate) == revenue
  {
  }

  /** The same for the results of a whole trip in EUR mode: its total revenue
      shown in EUR is the revenue entered. */
  lemma TripRevenueRoundTrip(i: Types.TripInputs, taxRate: real)
    requires i.isEuroMode && i.exchangeRate > 0.0 && Engine.RawRevenue(i) >= 0.0
    ensures ResultDisplayValue(Engine.Compute(i, taxRate).totalRevenue, None, true, i.exchangeRate) == Engine.RawRevenue(i)
  {
  }

  /** A negative revenue entered in EUR is not converted but is still divided
      when shown, so it comes back changed unless the rate is 1. */
  lemma NegativeEuroRevenueNotRestored(revenue: real, exchangeRate: real)
    requires exchangeRate > 0.0 && exchangeRate != 1.0 && revenue < 0.0
    ensures ResultDisplayValue(Engine.ToBase(revenue, true, exchangeRate), None, true, exchangeRate) != revenue
  {
    var v := ResultDisplayValue(revenue, None, true, exchangeRate);
    assert v - revenue == revenue * (1.0 - exchangeRate) / exchangeRate;
    assert revenue * (1.0 - exchangeRate) != 0.0;
  }

  /** In PLN the display is the identity. */
  lemma PlnDisplayIsIdentity(valuePln: real, exchangeRate: real)
    requires exchangeRate != 0.0
    ensures ResultDisplayValue(valuePln, None, false, exchangeRate) == valuePln
    ensures ResultDisplayValue(valuePln, Some(PLN), true, exchangeRate) == valuePln
  {
  }

  /** 2150 PLN of revenue shows as 500 EUR at 4.30 PLN/EUR. */
  lemma ScenarioDEuroDisplay()
    ensures ResultDisplayValue(2150.0, None, true, 4.30) == 500.0
  {
  }
}
