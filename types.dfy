/** The records of the calculator: the live inputs, the derived results and a
    saved trip of the history. */
module Types {
  import opened Fields

  /** The calculator's current inputs (`TripInputs`). Blank number fields are `None`. */
  datatype TripInputs = TripInputs(
    distance: Option<real>,
    freightAmount: Option<real>,
    ratePerKm: Option<real>,
    isRatePerKmMode: bool,
    customFuelPrice: real,
    customTollCost: real,
    customServiceCost: real,
    taxResidency: string,
    isEuroMode: bool,
    exchangeRate: real,
    fuelConsumption: real)

  /** The inputs as they come back from storage. Records written before the
      per-km rate and the fuel consumption existed lack `ratePerKm`,
      `isRatePerKmMode` and `fuelConsumption`; a missing field is `None`
      (for `ratePerKm`, `None` is both `''` and missing). */
  datatype StoredInputs = StoredInputs(
    distance: Option<real>,
    freightAmount: Option<real>,
    ratePerKm: Option<real>,
    isRatePerKmMode: Option<bool>,
    customFuelPrice: real,
    customTollCost: real,
    customServiceCost: real,
    taxResidency: string,
    isEuroMode: bool,
    exchangeRate: real,
    fuelConsumption: Option<real>)

  /** What the history shows of a trip without recomputing it. */
  datatype TripSummary = TripSummary(totalNetProfit: real, currency: string)

  /** One trip of the history; `timestamp` is milliseconds since the epoch and
      `date` a `YYYY-MM-DD` string, possibly empty. */
  datatype SavedTrip = SavedTrip(
    id: string,
    timestamp: int,
    date: string,
    inputs: StoredInputs,
    summary: TripSummary)

  /** Everything the calculator derives from its inputs (`CalculationResults`). */
  datatype CalculationResults = CalculationResults(
    totalFuelCost: real,
    totalTollCost: real,
    totalServiceCost: real,
    totalOperationalCost: real,
    earningsBeforeTax: real,
    taxCost: real,
    suggestedPrice: real,
    totalRevenue: real,
    totalNetProfit: real,
    netProfitPerKm: real,
    km: real,
    fuelPrice: real,
    tollCostPerKm: real,
    serviceCostPerKm: real)
}
