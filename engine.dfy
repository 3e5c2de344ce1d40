/** The results memo of the calculator: revenue by mode, conversion of a EUR
    revenue to PLN, the three cost lines, earnings before tax, tax charged only
    on a profit, net profit and net profit per kilometre. All arithmetic is over
    the reals (no floating-point rounding). */
module Engine {
  import opened Fields
  import opened Types

  /** The revenue figure as entered, in the currency of entry: distance times
      the rate in rate-per-km mode, otherwise the freight amount. */
  function RawRevenue(i: TripInputs): real
  {
    if i.isRatePerKmMode then OrZero(i.distance) * OrZero(i.ratePerKm)
    else OrZero(i.freightAmount)
  }

  /** Converts an entered revenue to PLN: multiplied by the rate only in EUR
      mode and only when it is positive. */
  function ToBase(revenue: real, isEuroMode: bool, exchangeRate: real): real
  {
    if isEuroMode && revenue > 0.0 then revenue * exchangeRate else revenue
  }

  /** Tax on the earnings before tax: nothing on a loss or a break-even. */
  function Tax(earningsBeforeTax: real, taxRate: real): (t: real)
    ensures earningsBeforeTax <= 0.0 ==> t == 0.0
    ensures earningsBeforeTax > 0.0 ==> t == earningsBeforeTax * taxRate
  {
    if earningsBeforeTax > 0.0 then earningsBeforeTax * taxRate else 0.0
  }

  /** The results for the given inputs and the tax rate of their tax residency.
      The ensures are the relations between the result lines. */
  function Compute(i: TripInputs, taxRate: real): (r: CalculationResults)
    ensures r.km == OrZero(i.distance)
    ensures r.totalRevenue == ToBase(RawRevenue(i), i.isEuroMode, i.exchangeRate)
    ensures r.totalOperationalCost == r.totalFuelCost + r.totalTollCost + r.totalServiceCost
    ensures r.suggestedPrice == r.totalOperationalCost
    ensures r.earningsBeforeTax == r.totalRevenue - r.totalOperationalCost
    ensures r.taxCost == Tax(r.earningsBeforeTax, taxRate)
    ensures r.totalNetProfit == r.earningsBeforeTax - r.taxCost
    ensures r.km > 0.0 ==> r.netProfitPerKm * r.km == r.totalNetProfit
    ensures r.km <= 0.0 ==> r.netProfitPerKm == 0.0
    ensures r.fuelPrice == i.customFuelPrice && r.tollCostPerKm == i.customTollCost
    ensures r.serviceCostPerKm == i.customServiceCost
  {
    var dist := OrZero(i.distance);
    var totalRevenuePln := ToBase(RawRevenue(i), i.isEuroMode, i.exchangeRate);
    var fuelConsumptionPerKm := i.fuelConsumption / 100.0;
    var totalFuelCost := dist * fuelConsumptionPerKm * i.customFuelPrice;
    var totalTollCost := dist * i.customTollCost;
    var totalServiceCost := dist * i.customServiceCost;
    var totalOperationalCost := totalFuelCost + totalTollCost + totalServiceCost;
    var earningsBeforeTax := totalRevenuePln - totalOperationalCost;
    var taxCost := Tax(earningsBeforeTax, taxRate);
    var totalNetProfit := earningsBeforeTax - taxCost;
    CalculationResults(
      totalFuelCost := totalFuelCost,
      totalTollCost := totalTollCost,
      totalServiceCost := totalServiceCost,
      totalOperationalCost := totalOperationalCost,
      earningsBeforeTax := earningsBeforeTax,
      taxCost := taxCost,
      suggestedPrice := totalOperationalCost,
      totalRevenue := totalRevenuePln,
      totalNetProfit := totalNetProfit,
      netProfitPerKm := if dist > 0.0 then totalNetProfit / dist else 0.0,
      km := dist,
      fuelPrice := i.customFuelPrice,
      tollCostPerKm := i.customTollCost,
      serviceCostPerKm := i.customServiceCost)
  }

  /** Each cost line is the distance times a per-km cost built from the inputs;
      a blank distance is distance 0. */
  lemma CostLines(i: TripInputs, taxRate: real)
    ensures var r := Compute(i, taxRate); var d := OrZero(i.distance);
      && r.totalFuelCost == d * (i.fuelConsumption / 100.0) * i.customFuelPrice
      && r.totalTollCost == d * i.customTollCost
      && r.totalServiceCost == d * i.customServiceCost
  {
  }

  /** With a non-negative rate, tax is never negative and never raises the profit. */
  lemma TaxNeverNegative(i: TripInputs, taxRate: real)
    requires taxRate >= 0.0
    ensures var r := Compute(i, taxRate); r.taxCost >= 0.0 && r.totalNetProfit <= r.earningsBeforeTax
  {
  }

  /** On a loss (or break-even) no tax is charged and the net profit is exactly the earnings. */
  lemma LossIsNotTaxed(i: TripInputs, taxRate: real)
    requires Compute(i, taxRate).earningsBeforeTax <= 0.0
    ensures Compute(i, taxRate).taxCost == 0.0
    ensures Compute(i, taxRate).totalNetProfit == Compute(i, taxRate).earningsBeforeTax
  {
  }

  /** On a profit the net profit is the earnings times (1 - rate); for a rate in
      [0, 1] it lies between 0 and the earnings. */
  lemma ProfitAfterTax(i: TripInputs, taxRate: real)
    requires 0.0 <= taxRate <= 1.0
    requires Compute(i, taxRate).earningsBeforeTax > 0.0
    ensures var r := Compute(i, taxRate);
      r.totalNetProfit == r.earningsBeforeTax * (1.0 - taxRate) && 0.0 <= r.totalNetProfit <= r.earningsBeforeTax
  {
    var r := Compute(i, taxRate);
    var e := r.earningsBeforeTax;
    assert r.totalNetProfit == e - e * taxRate;
    assert e * taxRate <= e * 1.0;
    assert e * taxRate >= e * 0.0;
  }

  /** For a rate in [0, 1], larger earnings before tax never give a smaller net profit. */
  lemma NetProfitMonotone(i: TripInputs, j: TripInputs, taxRate: real)
    requires 0.0 <= taxRate <= 1.0
    requires Compute(i, taxRate).earningsBeforeTax <= Compute(j, taxRate).earningsBeforeTax
    ensures Compute(i, taxRate).totalNetProfit <= Compute(j, taxRate).totalNetProfit
  {
    AfterTaxMonotone(Compute(i, taxRate).earningsBeforeTax, Compute(j, taxRate).earningsBeforeTax, taxRate);
  }

  lemma AfterTaxMonotone(ea: real, eb: real, taxRate: real)
    requires 0.0 <= taxRate <= 1.0 && ea <= eb
    ensures ea - Tax(ea, taxRate) <= eb - Tax(eb, taxRate)
  {
  }

  /** When the revenue equals the suggested price, earnings, tax and net profit are all 0. */
  lemma SuggestedPriceBreaksEven(i: TripInputs, taxRate: real)
    requires Compute(i, taxRate).totalRevenue == Compute(i, taxRate).suggestedPrice
    ensures var r := Compute(i, taxRate);
      r.earningsBeforeTax == 0.0 && r.taxCost == 0.0 && r.totalNetProfit == 0.0 && r.netProfitPerKm == 0.0
  {
  }

  /** A distance of 0, or a blank one, costs nothing and earns 0 per km. */
  lemma ZeroDistance(i: TripInputs, taxRate: real)
    requires OrZero(i.distance) == 0.0
    ensures var r := Compute(i, taxRate);
      && r.km == 0.0 && r.netProfitPerKm == 0.0 && r.totalOperationalCost == 0.0
      && (i.isRatePerKmMode ==> r.totalRevenue == 0.0)
  {
  }

  /** A blank distance gives exactly the results of distance 0. */
  lemma BlankDistanceIsZero(i: TripInputs, taxRate: real)
    requires i.distance.None?
    ensures Compute(i, taxRate) == Compute(i.(distance := Some(0.0)), taxRate)
  {
  }

  /** Rate-per-km mode with rate r gives the results of freight mode with the
      amount distance times r. */
  lemma RatePerKmIsFreight(i: TripInputs, taxRate: real)
    requires i.isRatePerKmMode
    ensures Compute(i, taxRate) ==
      Compute(i.(isRatePerKmMode := false, freightAmount := Some(OrZero(i.distance) * OrZero(i.ratePerKm))), taxRate)
  {
    var j := i.(isRatePerKmMode := false, freightAmount := Some(OrZero(i.distance) * OrZero(i.ratePerKm)));
    assert RawRevenue(j) == RawRevenue(i);
    SameRevenueSameResults(i, j, taxRate);
  }

  /** The results depend on the revenue fields only through the entered revenue. */
  lemma SameRevenueSameResults(i: TripInputs, j: TripInputs, taxRate: real)
    requires RawRevenue(i) == RawRevenue(j)
    requires i.distance == j.distance && i.isEuroMode == j.isEuroMode && i.exchangeRate == j.exchangeRate
    requires i.fuelConsumption == j.fuelConsumption && i.customFuelPrice == j.customFuelPrice
    requires i.customTollCost == j.customTollCost && i.customServiceCost == j.customServiceCost
    ensures Compute(i, taxRate) == Compute(j, taxRate)
  {
  }

  /** The revenue is converted only in EUR mode and only when positive. */
  lemma RevenueConversion(i: TripInputs, taxRate: real)
    ensures var r := Compute(i, taxRate); var raw := RawRevenue(i);
      && (i.isEuroMode && raw > 0.0 ==> r.totalRevenue == raw * i.exchangeRate)
      && (!i.isEuroMode || raw <= 0.0 ==> r.totalRevenue == raw)
  {
  }

  /** In PLN mode the exchange rate has no influence on any result. */
  lemma PlnIgnoresExchangeRate(i: TripInputs, taxRate: real, otherRate: real)
    requires !i.isEuroMode
    ensures Compute(i, taxRate) == Compute(i.(exchangeRate := otherRate), taxRate)
  {
  }

  /** 500 km, 2000 PLN freight, 30 l/100 km at 5.00 PLN/l, 0.40 PLN/km toll,
      0.65 PLN/km service, 19 % tax. */
  function ScenarioA(): TripInputs
  {
    TripInputs(Some(500.0), Some(2000.0), None, false, 5.0, 0.40, 0.65, "Polska", false, 4.30, 30.0)
  }

  lemma ScenarioAResults()
    ensures var r := Compute(ScenarioA(), 0.19);
      && r.totalFuelCost == 750.0 && r.totalTollCost == 200.0 && r.totalServiceCost == 325.0
      && r.totalOperationalCost == 1275.0 && r.earningsBeforeTax == 725.0
      && r.taxCost == 137.75 && r.totalNetProfit == 587.25 && r.netProfitPerKm == 1.1745
  {
  }

  /** The same trip priced at 4 PLN/km gives the same results. */
  lemma ScenarioBSameAsA()
    ensures Compute(ScenarioA().(isRatePerKmMode := true, ratePerKm := Some(4.0)), 0.19) == Compute(ScenarioA(), 0.19)
  {
    RatePerKmIsFreight(ScenarioA().(isRatePerKmMode := true, ratePerKm := Some(4.0)), 0.19);
  }

  /** 100 km for 50 PLN is a loss: no tax, net profit equals the earnings. */
  lemma ScenarioCLoss()
    ensures var r := Compute(ScenarioA().(distance := Some(100.0), freightAmount := Some(50.0)), 0.19);
      r.earningsBeforeTax < 0.0 && r.taxCost == 0.0 && r.totalNetProfit == r.earningsBeforeTax
  {
  }

  /** 500 EUR at 4.30 PLN/EUR is 2150 PLN of revenue. */
  lemma ScenarioDEuroRevenue()
    ensures Compute(ScenarioA().(isEuroMode := true, freightAmount := Some(500.0)), 0.19).totalRevenue == 2150.0
  {
  }
}
