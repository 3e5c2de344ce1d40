/** The trip history: the record a save builds, delete by id, the date-range
    filter, the period summary, the inputs a load puts back (with defaults for
    fields older records lack) and the gate that enables saving. */
module History {
  import opened Fields
  import opened Types
  import Engine
  import Dates
  import Seqs

  // ---- Saving ----

  /** The stored form of the current inputs: every field present. */
  function Snapshot(i: TripInputs): StoredInputs
  {
    StoredInputs(i.distance, i.freightAmount, i.ratePerKm, Some(i.isRatePerKmMode),
      i.customFuelPrice, i.customTollCost, i.customServiceCost, i.taxResidency,
      i.isEuroMode, i.exchangeRate, Some(i.fuelConsumption))
  }

  /** The code of the currency a trip was shown in when it was saved. */
  function CurrencyCode(isEuroMode: bool): string
  {
    if isEuroMode then "EUR" else "PLN"
  }

  /** The record a save prepends: the inputs, the net profit of the current
      results and the display currency. `id` and `timestamp` come from the clock. */
  function NewTrip(id: string, timestamp: int, date: string, i: TripInputs, results: CalculationResults): SavedTrip
  {
    SavedTrip(id, timestamp, date, Snapshot(i), TripSummary(results.totalNetProfit, CurrencyCode(i.isEuroMode)))
  }

  /** The saved record keeps what the history shows of the trip. */
  lemma NewTripRecords(id: string, timestamp: int, date: string, i: TripInputs, taxRate: real)
    ensures var t := NewTrip(id, timestamp, date, i, Engine.Compute(i, taxRate));
      && t.id == id && t.timestamp == timestamp && t.date == date
      && t.summary.totalNetProfit == Engine.Compute(i, taxRate).totalNetProfit
      && (t.summary.currency == "EUR" <==> i.isEuroMode)
      && (t.summary.currency == "PLN" <==> !i.isEuroMode)
      && t.inputs.distance == i.distance
  {
  }

  // ---- Loading ----

  /** The inputs a load puts back. `ratePerKm || ''`: a missing, blank or zero
      rate becomes blank; `isRatePerKmMode || false`: missing means off;
      `fuelConsumption || default`: a missing or zero consumption becomes the
      default. Everything else is taken as stored. */
  function LoadedInputs(s: StoredInputs, defaultConsumption: real): TripInputs
  {
    TripInputs(
      distance := s.distance,
      freightAmount := s.freightAmount,
      ratePerKm := if Truthy(s.ratePerKm) then s.ratePerKm else None,
      isRatePerKmMode := s.isRatePerKmMode == Some(true),
      customFuelPrice := s.customFuelPrice,
      customTollCost := s.customTollCost,
      customServiceCost := s.customServiceCost,
      taxResidency := s.taxResidency,
      isEuroMode := s.isEuroMode,
      exchangeRate := s.exchangeRate,
      fuelConsumption := if s.fuelConsumption.Some? && s.fuelConsumption.value != 0.0
                         then s.fuelConsumption.value else defaultConsumption)
  }

  /** A record written before the newer fields existed loads in freight mode,
      with no rate and the default consumption. */
  lemma LegacyRecordDefaults(s: StoredInputs, defaultConsumption: real)
    requires s.ratePerKm.None? && s.isRatePerKmMode.None? && s.fuelConsumption.None?
    ensures LoadedInputs(s, defaultConsumption) ==
      TripInputs(s.distance, s.freightAmount, None, false, s.customFuelPrice, s.customTollCost,
        s.customServiceCost, s.taxResidency, s.isEuroMode, s.exchangeRate, defaultConsumption)
  {
  }

  /** Loading a saved trip restores its inputs, unless the rate was 0 or the consumption was 0. */
  lemma LoadRestoresSaved(i: TripInputs, defaultConsumption: real)
    requires i.fuelConsumption != 0.0 && i.ratePerKm != Some(0.0)
    ensures LoadedInputs(Snapshot(i), defaultConsumption) == i
  {
  }

  /** A rate of 0 reloads as blank, which computes the same; so a reloaded trip
      gives the results it was saved with whenever its consumption was not 0. */
  lemma ReloadSameResults(i: TripInputs, defaultConsumption: real, taxRate: real)
    requires i.fuelConsumption != 0.0
    ensures Engine.Compute(LoadedInputs(Snapshot(i), defaultConsumption), taxRate) == Engine.Compute(i, taxRate)
  {
    var j := LoadedInputs(Snapshot(i), defaultConsumption);
    assert OrZero(j.ratePerKm) == OrZero(i.ratePerKm);
    assert Engine.RawRevenue(j) == Engine.RawRevenue(i);
    Engine.SameRevenueSameResults(j, i, taxRate);
  }

  /** A consumption of 0 is falsy and reloads as the default consumption. */
  lemma ZeroConsumptionReloadsDefault(i: TripInputs, defaultConsumption: real)
    requires i.fuelConsumption == 0.0
    ensures LoadedInputs(Snapshot(i), defaultConsumption).fuelConsumption == defaultConsumption
  {
  }

  // ---- Save gate ----

  /** Saving is enabled when the distance and the revenue field of the current
      mode are both truthy (neither blank nor 0). */
  predicate IsInputValid(i: TripInputs)
  {
    Truthy(i.distance) && (if i.isRatePerKmMode then Truthy(i.ratePerKm) else Truthy(i.freightAmount))
  }

  /** For a non-negative distance and revenue field, a trip that can be saved
      has a positive distance and a positive entered revenue. */
  lemma SavableTripIsPositive(i: TripInputs)
    requires OrZero(i.distance) >= 0.0 && OrZero(i.ratePerKm) >= 0.0 && OrZero(i.freightAmount) >= 0.0
    requires IsInputValid(i)
    ensures OrZero(i.distance) > 0.0 && Engine.RawRevenue(i) > 0.0
  {
  }

  /** A blank or zero distance always disables saving. */
  lemma NoDistanceNoSave(i: TripInputs)
    requires OrZero(i.distance) == 0.0
    ensures !IsInputValid(i)
  {
  }

  // ---- Deleting ----

  function KeepsOtherIds(id: string): SavedTrip -> bool
  {
    (t: SavedTrip) => t.id != id
  }

  /** The history without the trips that have the given id. */
  function DeleteById(trips: seq<SavedTrip>, id: string): (r: seq<SavedTrip>)
    ensures forall t :: t in r <==> t in trips && t.id != id
  {
    Seqs.Filter(trips, KeepsOtherIds(id))
  }

  /** The trips that remain keep their relative order. */
  lemma DeleteKeepsOrder(trips: seq<SavedTrip>, id: string)
    ensures Seqs.IsSubsequence(DeleteById(trips, id), trips)
  {
    Seqs.FilterIsSubsequence(trips, KeepsOtherIds(id));
  }

  /** Deleting an id no trip has changes nothing. */
  lemma DeleteAbsentId(trips: seq<SavedTrip>, id: string)
    requires forall k :: 0 <= k < |trips| ==> trips[k].id != id
    ensures DeleteById(trips, id) == trips
  {
    Seqs.FilterAllPass(trips, KeepsOtherIds(id));
  }

  lemma DeleteIdempotent(trips: seq<SavedTrip>, id: string)
    ensures DeleteById(DeleteById(trips, id), id) == DeleteById(trips, id)
  {
    Seqs.FilterIdempotent(trips, KeepsOtherIds(id));
  }

  /** Deleting a freshly saved trip by its id, when no older trip shares that id,
      gives back the history from before the save. */
  lemma DeleteUndoesSave(t: SavedTrip, trips: seq<SavedTrip>)
    requires forall k :: 0 <= k < |trips| ==> trips[k].id != t.id
    ensures DeleteById([t] + trips, t.id) == trips
  {
    Seqs.FilterConcat([t], trips, KeepsOtherIds(t.id));
    DeleteAbsentId(trips, t.id);
  }

  // ---- Filtering ----

  /** The date a trip is filtered by: its own date, or else the date of its timestamp. */
  function EffectiveDate(t: SavedTrip, dateOf: int -> string): string
  {
    if t.date != "" then t.date else dateOf(t.timestamp)
  }

  /** The filter callback: every trip passes without bounds; otherwise a trip
      fails if its date is before a given start or after a given end. */
  predicate InRange(t: SavedTrip, startDate: string, endDate: string, dateOf: int -> string)
  {
    if startDate == "" && endDate == "" then true
    else
      var d := EffectiveDate(t, dateOf);
      if startDate != "" && Dates.Less(d, startDate) then false
      else if endDate != "" && Dates.Less(endDate, d) then false
      else true
  }

  function InRangeOf(startDate: string, endDate: string, dateOf: int -> string): SavedTrip -> bool
  {
    (t: SavedTrip) => InRange(t, startDate, endDate, dateOf)
  }

  /** The trips of the history whose date lies in the range. */
  function FilterTrips(trips: seq<SavedTrip>, startDate: string, endDate: string, dateOf: int -> string): (r: seq<SavedTrip>)
    ensures forall t :: t in r <==> t in trips && InRange(t, startDate, endDate, dateOf)
  {
    Seqs.Filter(trips, InRangeOf(startDate, endDate, dateOf))
  }

  /** Both bounds are inclusive: a trip passes exactly when its date is at or
      after a given start and at or before a given end. */
  lemma InRangeInclusive(t: SavedTrip, startDate: string, endDate: string, dateOf: int -> string)
    ensures var d := EffectiveDate(t, dateOf);
      InRange(t, startDate, endDate, dateOf) <==>
        (startDate == "" || Dates.LessOrEqual(startDate, d)) && (endDate == "" || Dates.LessOrEqual(d, endDate))
  {
    var d := EffectiveDate(t, dateOf);
    Dates.NotLessIsAtLeast(d, startDate);
    Dates.NotLessIsAtLeast(endDate, d);
  }

  /** Without bounds every trip is shown. */
  lemma NoBoundsKeepsAll(trips: seq<SavedTrip>, dateOf: int -> string)
    ensures FilterTrips(trips, "", "", dateOf) == trips
  {
    Seqs.FilterAllPass(trips, InRangeOf("", "", dateOf));
  }

  lemma FilterTripsKeepsOrder(trips: seq<SavedTrip>, startDate: string, endDate: string, dateOf: int -> string)
    ensures Seqs.IsSubsequence(FilterTrips(trips, startDate, endDate, dateOf), trips)
  {
    Seqs.FilterIsSubsequence(trips, InRangeOf(startDate, endDate, dateOf));
  }

  lemma FilterTripsIdempotent(trips: seq<SavedTrip>, startDate: string, endDate: string, dateOf: int -> string)
    ensures FilterTrips(FilterTrips(trips, startDate, endDate, dateOf), startDate, endDate, dateOf)
         == FilterTrips(trips, startDate, endDate, dateOf)
  {
    Seqs.FilterIdempotent(trips, InRangeOf(startDate, endDate, dateOf));
  }

  // ---- Period summary ----

  /** The sum of the saved net profits. */
  function SumProfit(trips: seq<SavedTrip>): real
    decreases |trips|
  {
    if trips == [] then 0.0 else trips[0].summary.totalNetProfit + SumProfit(trips[1..])
  }

  /** The sum of the distances, a blank distance counting 0. */
  function SumKm(trips: seq<SavedTrip>): real
    decreases |trips|
  {
    if trips == [] then 0.0 else OrZero(trips[0].inputs.distance) + SumKm(trips[1..])
  }

  /** Both sums add up over a concatenation. */
  lemma {:induction false} SumsConcat(a: seq<SavedTrip>, b: seq<SavedTrip>)
    ensures SumProfit(a + b) == SumProfit(a) + SumProfit(b)
    ensures SumKm(a + b) == SumKm(a) + SumKm(b)
    decreases |a|
  {
    if a == [] {
      assert a + b == b;
    } else {
      assert (a + b)[1..] == a[1..] + b;
      SumsConcat(a[1..], b);
    }
  }

  /** With non-negative distances the total distance is non-negative. */
  lemma {:induction false} SumKmNonNegative(trips: seq<SavedTrip>)
    requires forall k :: 0 <= k < |trips| ==> OrZero(trips[k].inputs.distance) >= 0.0
    ensures SumKm(trips) >= 0.0
    decreases |trips|
  {
    if trips != [] {
      SumKmNonNegative(trips[1..]);
    }
  }

  /** A trip put in front of the history adds exactly its profit and distance
      to the totals. */
  lemma SaveAddsToSums(t: SavedTrip, trips: seq<SavedTrip>)
    ensures SumProfit([t] + trips) == t.summary.totalNetProfit + SumProfit(trips)
    ensures SumKm([t] + trips) == OrZero(t.inputs.distance) + SumKm(trips)
  {
  }

  // ---- Example: two trips, filtered from 2024-02-01 ----

  function TripOn(id: string, date: string, distance: real, profit: real): SavedTrip
  {
    SavedTrip(id, 0, date,
      StoredInputs(Some(distance), Some(2000.0), None, Some(false), 5.0, 0.40, 0.65, "Polska", false, 4.30, Some(30.0)),
      TripSummary(profit, "PLN"))
  }

  lemma ScenarioEFilterFrom(dateOf: int -> string)
    ensures var january := TripOn("1", "2024-01-10", 500.0, 587.25);
      var february := TripOn("2", "2024-02-05", 300.0, 120.0);
      var shown := FilterTrips([february, january], "2024-02-01", "", dateOf);
      shown == [february] && SumProfit(shown) == 120.0 && SumKm(shown) == 300.0
  {
    var january := TripOn("1", "2024-01-10", 500.0, 587.25);
    var february := TripOn("2", "2024-02-05", 300.0, 120.0);
    ScenarioEDates();
    var p := InRangeOf("2024-02-01", "", dateOf);
    assert !p(january) && p(february);
    var rest := Seqs.Filter([january], p);
    assert rest == [] by {
      Seqs.FilterNonePass([january], p);
    }
    var all := [february, january];
    assert all[1..] == [january];
    assert Seqs.Filter(all, p) == [february] + rest;
    assert SumProfit([february]) == 120.0 + SumProfit([]);
    assert SumKm([february]) == 300.0 + SumKm([]);
  }

  lemma ScenarioEDates()
    ensures Dates.Less("2024-01-10", "2024-02-01")
    ensures !Dates.Less("2024-02-05", "2024-02-01")
  {
    assert "2024-01-10"[6] < "2024-02-01"[6];
    assert "2024-02-05"[9] > "2024-02-01"[9];
  }
}
