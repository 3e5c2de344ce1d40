/** The calculator's state as the application component holds it: the current
    inputs, the trip date, the history filter bounds and the list of saved
    trips, with the handlers that change them. `persisted` is the browser
    storage entry for the history, which is rewritten after every change of
    the list. */
module Calculator {
  import opened Fields
  import opened Types
  import Engine
  import History

  class TripCalculator {
    /** The fuel consumption used when none is given (a constant of the application). */
    const defaultConsumption: real

    var isEuroMode: bool
    var exchangeRate: real
    var tripDate: string
    var distance: Option<real>
    var isRatePerKmMode: bool
    var freightAmount: Option<real>
    var ratePerKm: Option<real>
    var customFuelPrice: real
    var customTollCost: real
    var customServiceCost: real
    var fuelConsumption: real
    var taxResidency: string
    var filterStartDate: string
    var filterEndDate: string
    var savedTrips: seq<SavedTrip>
    var persisted: seq<SavedTrip>

    /** The stored history always equals the list in memory. */
    ghost predicate Valid()
      reads this
    {
      persisted == savedTrips
    }

    /** The current inputs, as the engine and a save see them. */
    function Inputs(): TripInputs
      reads this
    {
      TripInputs(distance, freightAmount, ratePerKm, isRatePerKmMode, customFuelPrice,
        customTollCost, customServiceCost, taxResidency, isEuroMode, exchangeRate, fuelConsumption)
    }

    /** The trips the history panel shows. */
    function FilteredTrips(dateOf: int -> string): seq<SavedTrip>
      reads this
    {
      History.FilterTrips(savedTrips, filterStartDate, filterEndDate, dateOf)
    }

    /** The initial state: `today` is the current date and `stored` the history
        read back from storage, `None` when the entry is absent or unreadable. */
    constructor (today: string, defaultConsumption: real, stored: Option<seq<SavedTrip>>)
      ensures Valid()
      ensures this.defaultConsumption == defaultConsumption
      ensures Inputs() == TripInputs(None, None, None, false, 5.0, 0.40, 0.65, "Polska", false, 4.30, defaultConsumption)
      ensures tripDate == today && filterStartDate == "" && filterEndDate == ""
      ensures savedTrips == if stored.Some? then stored.value else []
    {
      this.defaultConsumption := defaultConsumption;
      isEuroMode := false;
      exchangeRate := 4.30;
      tripDate := today;
      distance := None;
      isRatePerKmMode := false;
      freightAmount := None;
      ratePerKm := None;
      customFuelPrice := 5.0;
      customTollCost := 0.40;
      customServiceCost := 0.65;
      fuelConsumption := defaultConsumption;
      taxResidency := "Polska";
      filterStartDate := "";
      filterEndDate := "";
      var trips := if stored.Some? then stored.value else [];
      savedTrips := trips;
      persisted := trips;
    }

    /** Saves the current trip in front of the history. `id` and `timestamp`
        come from the clock; `taxRate` is the rate of the current tax residency. */
    method SaveTrip(id: string, timestamp: int, taxRate: real)
      requires Valid()
      modifies this
      ensures Valid()
      ensures savedTrips == [History.NewTrip(id, timestamp, tripDate, Inputs(), Engine.Compute(Inputs(), taxRate))] + old(savedTrips)
      ensures savedTrips[1..] == old(savedTrips)
      ensures savedTrips[0].summary.totalNetProfit == Engine.Compute(Inputs(), taxRate).totalNetProfit
      ensures savedTrips[0].summary.currency == (if isEuroMode then "EUR" else "PLN")
      ensures savedTrips[0].inputs == History.Snapshot(Inputs())
      ensures Inputs() == old(Inputs()) && tripDate == old(tripDate)
      ensures filterStartDate == old(filterStartDate) && filterEndDate == old(filterEndDate)
    {
      var results := Engine.Compute(Inputs(), taxRate);
      var newTrip := History.NewTrip(id, timestamp, tripDate, Inputs(), results);
      savedTrips := [newTrip] + savedTrips;
      persisted := savedTrips;
    }

    /** The save button: does nothing while the inputs are not valid for saving. */
    method ClickSave(id: string, timestamp: int, taxRate: real) returns (saved: bool)
      requires Valid()
      modifies this
      ensures Valid()
      ensures saved == History.IsInputValid(old(Inputs()))
      ensures savedTrips == if saved
        then [History.NewTrip(id, timestamp, tripDate, Inputs(), Engine.Compute(Inputs(), taxRate))] + old(savedTrips)
        else old(savedTrips)
      ensures Inputs() == old(Inputs()) && tripDate == old(tripDate)
      ensures filterStartDate == old(filterStartDate) && filterEndDate == old(filterEndDate)
    {
      saved := History.IsInputValid(Inputs());
      if saved {
        SaveTrip(id, timestamp, taxRate);
      }
    }

    /** Puts a saved trip's inputs back into the calculator, with defaults for
        fields older records lack; the trip date only when the record has one. */
    method LoadTrip(trip: SavedTrip)
      requires Valid()
      modifies this
      ensures Valid()
      ensures Inputs() == History.LoadedInputs(trip.inputs, defaultConsumption)
      ensures tripDate == if trip.date != "" then trip.date else old(tripDate)
      ensures savedTrips == old(savedTrips)
      ensures filterStartDate == old(filterStartDate) && filterEndDate == old(filterEndDate)
    {
      if trip.date != "" {
        tripDate := trip.date;
      }
      SetInputs(History.LoadedInputs(trip.inputs, defaultConsumption));
    }

    /** Sets every input field of the calculator at once. */
    method SetInputs(inputs: TripInputs)
      requires Valid()
      modifies this
      ensures Valid()
      ensures Inputs() == inputs
      ensures tripDate == old(tripDate) && savedTrips == old(savedTrips)
      ensures filterStartDate == old(filterStartDate) && filterEndDate == old(filterEndDate)
    {
      distance, freightAmount, ratePerKm, isRatePerKmMode :=
        inputs.distance, inputs.freightAmount, inputs.ratePerKm, inputs.isRatePerKmMode;
      customFuelPrice, customTollCost, customServiceCost, fuelConsumption :=
        inputs.customFuelPrice, inputs.customTollCost, inputs.customServiceCost, inputs.fuelConsumption;
      taxResidency, isEuroMode, exchangeRate := inputs.taxResidency, inputs.isEuroMode, inputs.exchangeRate;
    }

    /** Removes every trip with the given id from the history. */
    method DeleteTrip(id: string)
      requires Valid()
      modifies this
      ensures Valid()
      ensures savedTrips == History.DeleteById(old(savedTrips), id)
      ensures forall t :: t in savedTrips <==> t in old(savedTrips) && t.id != id
      ensures Inputs() == old(Inputs()) && tripDate == old(tripDate)
      ensures filterStartDate == old(filterStartDate) && filterEndDate == old(filterEndDate)
    {
      savedTrips := History.DeleteById(savedTrips, id);
      persisted := savedTrips;
    }

    /** Clears both filter bounds, so the whole history is shown again. */
    method ClearFilters()
      requires Valid()
      modifies this
      ensures Valid()
      ensures filterStartDate == "" && filterEndDate == ""
      ensures forall dateOf: int -> string :: FilteredTrips(dateOf) == savedTrips
      ensures savedTrips == old(savedTrips) && Inputs() == old(Inputs()) && tripDate == old(tripDate)
    {
      filterStartDate := "";
      filterEndDate := "";
      forall dateOf: int -> string
        ensures FilteredTrips(dateOf) == savedTrips
      {
        History.NoBoundsKeepsAll(savedTrips, dateOf);
      }
    }

    /** The totals of the period summary: net profit and distance over the
        trips the filter shows, accumulated one trip at a time. */
    method PeriodSummary(dateOf: int -> string) returns (totalProfit: real, totalKm: real)
      ensures totalProfit == History.SumProfit(FilteredTrips(dateOf))
      ensures totalKm == History.SumKm(FilteredTrips(dateOf))
      ensures FilteredTrips(dateOf) == [] ==> totalProfit == 0.0 && totalKm == 0.0
    {
      var trips := FilteredTrips(dateOf);
      totalProfit, totalKm := 0.0, 0.0;
      for k := 0 to |trips|
        invariant totalProfit == History.SumProfit(trips[..k])
        invariant totalKm == History.SumKm(trips[..k])
      {
        History.SumsConcat(trips[..k], [trips[k]]);
        assert trips[..k + 1] == trips[..k] + [trips[k]];
        totalProfit := totalProfit + trips[k].summary.totalNetProfit;
        var dist := OrZero(trips[k].inputs.distance);
        totalKm := totalKm + dist;
      }
      assert trips[..|trips|] == trips;
    }
  }
}
