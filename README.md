# Freight-trip profitability engine, in Dafny

A model of the calculation and history engine of a freight-trip profitability
calculator (a React single-page application). Given a trip's distance, its
revenue (a freight amount or a rate per kilometre, in PLN or in EUR), fuel
consumption and price, toll and service costs per kilometre and the tax rate of
the tax residency, the engine derives the three cost lines, the operational
cost, the earnings before tax, the tax (charged only on a profit), the net
profit and the net profit per kilometre. Trips are saved, newest first, into a
history that can be filtered by an inclusive date range, summed into a period
summary, loaded back into the calculator and deleted by id.

Files and modules:

- `fields.dfy` (`Fields`): `number | ''` input values as `Option<real>`, read as 0 when blank (`OrZero`) and as JavaScript truth values (`Truthy`).
- `types.dfy` (`Types`): the records `TripInputs`, `CalculationResults`, `SavedTrip`, and `StoredInputs`, the stored shape in which the fields added later (`ratePerKm`, `isRatePerKmMode`, `fuelConsumption`) may be missing.
- `engine.dfy` (`Engine`): the results computation and its properties, with the worked examples.
- `display.dfy` (`Display`): the PLN-to-display conversion and its round trip with the revenue conversion.
- `dates.dfy` (`Dates`): JavaScript's `<` on strings (lexicographic) and its order properties.
- `seqs.dfy` (`Seqs`): `Array.prototype.filter` and the subsequence relation.
- `history.dfy` (`History`): building a saved record, loading with defaults, the save gate, delete by id, the date filter and the sums of the period summary.
- `calculator.dfy` (`Calculator`): class `TripCalculator`, the component's state (inputs, trip date, filter bounds, saved trips, and `persisted`, the storage entry that is rewritten after every change of the list) with the save, load, delete, clear-filter and period-summary handlers.

All numbers are Dafny `real`s, so the arithmetic identities hold exactly. The
clock (`Date.now()`), today's date, the epoch-to-date conversion, the tax rate
of the tax residency and the default fuel consumption are parameters.

The code has no duplicate-id check: a save always prepends; delete returns
nothing; a load replaces not only a missing `fuelConsumption` or `ratePerKm`
but also a zero one, because it uses `||` (`History.ZeroConsumptionReloadsDefault`).

## Model

| member | source | states |
|---|---|---|
| `Engine.RawRevenue` | App.tsx:136-142 | definition (no contract) of the entered revenue by mode; characterised by `Engine.RatePerKmIsFreight`, `Engine.SameRevenueSameResults` and `Engine.ZeroDistance` |
| `Engine.ToBase` | App.tsx:144-148 | definition (no contract) of the EUR-to-PLN conversion; characterised by `Engine.RevenueConversion`, `Engine.PlnIgnoresExchangeRate` and `Display.EuroRoundTrip` |
| `Engine.Compute` | App.tsx:132-177 | distance blank counts 0 and `km` echoes it; revenue is the converted entered revenue; operational cost is exactly the sum of the three cost lines; suggested price equals operational cost; EBT = revenue − operational cost; tax follows the tax rule; net profit = EBT − tax; per-km profit times km is net profit when km > 0, and 0 otherwise; unit prices echoed |
| `Engine.Tax` | App.tsx:158-159 | tax is 0 when EBT ≤ 0 and EBT × rate when EBT > 0 |
| `Engine.CostLines` | App.tsx:150-153 | fuel = distance × consumption/100 × fuel price; toll = distance × toll per km; service = distance × service per km |
| `Engine.TaxNeverNegative` | App.tsx:158-160 | for a rate ≥ 0 the tax is ≥ 0 and net profit ≤ EBT |
| `Engine.LossIsNotTaxed` | App.tsx:156-160 | on a loss or break-even, tax is 0 and net profit equals EBT exactly |
| `Engine.ProfitAfterTax` | App.tsx:156-160 | on a profit and a rate in [0,1], net profit = EBT × (1 − rate), between 0 and EBT |
| `Engine.NetProfitMonotone` | App.tsx:156-160 | for a rate in [0,1], larger EBT never gives smaller net profit, across any two trips |
| `Engine.AfterTaxMonotone` | App.tsx:159-160 | earnings minus the tax on them never decrease as the earnings grow, for a rate in [0,1] |
| `Engine.SuggestedPriceBreaksEven` | App.tsx:154-172 | revenue equal to the suggested price gives EBT, tax, net profit and per-km profit all 0 (the break-even point) |
| `Engine.ZeroDistance` | App.tsx:133-173 | a zero or blank distance costs nothing, gives per-km profit 0, and revenue 0 in rate-per-km mode |
| `Engine.BlankDistanceIsZero` | App.tsx:133 | a blank distance gives exactly the results of distance 0 |
| `Engine.RatePerKmIsFreight` | App.tsx:136-142 | rate-per-km mode with rate r gives exactly the results of freight mode with amount distance × r |
| `Engine.SameRevenueSameResults` | App.tsx:136-172 | the revenue fields influence the results only through the entered revenue figure |
| `Engine.RevenueConversion` | App.tsx:144-148 | revenue is multiplied by the exchange rate exactly when in EUR mode and positive, otherwise passed through |
| `Engine.PlnIgnoresExchangeRate` | App.tsx:145-148 | in PLN mode no result depends on the exchange rate |
| `Engine.ScenarioAResults` | App.tsx:132-177 | 500 km, 2000 PLN, 30 l/100 km at 5.00, tolls 0.40, service 0.65, 19 %: fuel 750, toll 200, service 325, cost 1275, EBT 725, tax 137.75, net 587.25, per km 1.1745 |
| `Engine.ScenarioBSameAsA` | App.tsx:136-142 | the same trip at 4 PLN/km gives results identical to the freight version |
| `Engine.ScenarioCLoss` | App.tsx:156-160 | 100 km for 50 PLN: negative EBT, no tax, net profit equals EBT |
| `Engine.ScenarioDEuroRevenue` | App.tsx:144-148 | 500 EUR at 4.30 is 2150 PLN of revenue |
| `Display.TargetCurrency` | App.tsx:289 | a forced currency wins; otherwise EUR exactly in EUR mode |
| `Display.ResultDisplayValue` | App.tsx:288-295 | in EUR the displayed value times the rate is the PLN amount; in PLN it is the amount itself |
| `Display.UnitRateDisplayValue` | App.tsx:297-302 | in EUR mode the displayed rate times the exchange rate is the PLN rate; otherwise the PLN rate |
| `Display.UnitRateAgreesWithResult` | App.tsx:288-302 | a per-unit rate is converted exactly as an unforced result amount |
| `Display.EuroRoundTrip` | App.tsx:288-293 | for rate > 0 and entered revenue ≥ 0, converting to PLN (lines 144-148) and displaying in EUR returns the entered revenue |
| `Display.TripRevenueRoundTrip` | App.tsx:144-148 | a whole EUR-mode trip's total revenue, displayed in EUR, is the revenue entered |
| `Display.NegativeEuroRevenueNotRestored` | App.tsx:146 | a negative EUR revenue is not converted yet is divided on display, so it comes back changed unless the rate is 1 |
| `Display.PlnDisplayIsIdentity` | App.tsx:290-293 | PLN display (unforced without EUR mode, or forced PLN) is the identity |
| `Display.ScenarioDEuroDisplay` | App.tsx:292 | 2150 PLN displays as 500 EUR at 4.30 |
| `Dates.Less` | App.tsx:256-257 | definition (no contract) of JavaScript's `<` on strings; characterised as a strict total order by the four lemmas below and `Dates.NotLessIsAtLeast` |
| `Dates.LessIrreflexive` | App.tsx:256-257 | no date is before itself |
| `Dates.LessTransitive` | App.tsx:256-257 | the string order is transitive |
| `Dates.LessTotal` | App.tsx:256-257 | any two different strings are ordered one way or the other |
| `Dates.LessAsymmetric` | App.tsx:256-257 | if a < b then not b < a |
| `Dates.NotLessIsAtLeast` | App.tsx:256-257 | "not before" is "equal or after" |
| `Seqs.Filter` | App.tsx:253 | the result is no longer than the input, every kept element passes, every passing element is kept, and nothing new appears |
| `Seqs.FilterIsSubsequence` | App.tsx:253 | the result is a subsequence of the input, in its original order |
| `Seqs.FilterAllPass` | App.tsx:253 | when everything passes the input is returned unchanged |
| `Seqs.FilterNonePass` | App.tsx:253 | when nothing passes the result is empty |
| `Seqs.FilterIdempotent` | App.tsx:253 | filtering twice with the same condition equals filtering once |
| `Seqs.FilterConcat` | App.tsx:253 | filtering distributes over concatenation |
| `History.Snapshot` | App.tsx:199-211 | definition (no contract) of the stored snapshot of the inputs; characterised by `History.LoadRestoresSaved` and `History.ReloadSameResults` |
| `History.NewTrip` | App.tsx:195-216 | definition (no contract) of the record a save builds; characterised by `History.NewTripRecords` and `Calculator.TripCalculator.SaveTrip` |
| `History.NewTripRecords` | App.tsx:195-216 | the new record carries the given id, timestamp and date, the current net profit, currency "EUR" exactly in EUR mode and "PLN" exactly otherwise, and the entered distance |
| `History.LoadedInputs` | App.tsx:222-234 | definition (no contract) of the inputs a load puts back; characterised by `History.LegacyRecordDefaults`, `History.LoadRestoresSaved`, `History.ReloadSameResults` and `History.ZeroConsumptionReloadsDefault` |
| `History.LegacyRecordDefaults` | App.tsx:226-233 | a record lacking the newer fields loads as exactly the stored inputs with no rate, freight mode and the default consumption |
| `History.LoadRestoresSaved` | App.tsx:221-236 | loading a saved snapshot restores the inputs exactly, when rate and consumption were not 0 |
| `History.ReloadSameResults` | App.tsx:221-236 | a reloaded trip computes the results it was saved with, whenever its consumption was not 0 |
| `History.ZeroConsumptionReloadsDefault` | App.tsx:233 | a saved consumption of 0 reloads as the default consumption |
| `History.IsInputValid` | App.tsx:327 | definition (no contract) of the save gate; characterised by `History.SavableTripIsPositive`, `History.NoDistanceNoSave` and `Calculator.TripCalculator.ClickSave` |
| `History.SavableTripIsPositive` | App.tsx:327 | for a non-negative distance and revenue field, a savable trip has positive distance and positive entered revenue |
| `History.NoDistanceNoSave` | App.tsx:327 | a blank or zero distance disables saving |
| `History.DeleteById` | App.tsx:241-243 | a trip remains exactly when it was in the history and has another id |
| `History.DeleteKeepsOrder` | App.tsx:242 | the remaining trips are a subsequence of the history, in order |
| `History.DeleteAbsentId` | App.tsx:242 | deleting an id that no trip has leaves the history unchanged |
| `History.DeleteIdempotent` | App.tsx:242 | deleting the same id twice equals deleting it once |
| `History.DeleteUndoesSave` | App.tsx:241-243 | deleting a just-saved trip whose id no older trip shares gives back the history before the save |
| `History.EffectiveDate` | App.tsx:255 | definition (no contract) of the date a trip is filtered by; used in `History.InRangeInclusive` |
| `History.InRange` | App.tsx:253-259 | definition (no contract) of the filter callback; characterised by `History.InRangeInclusive` and `History.NoBoundsKeepsAll` |
| `History.FilterTrips` | App.tsx:252-260 | a trip is shown exactly when it is in the history and passes the date-range test |
| `History.InRangeInclusive` | App.tsx:254-258 | a trip passes exactly when (no start or start ≤ effective date) and (no end or effective date ≤ end), the effective date being the trip's date or else the date of its timestamp |
| `History.NoBoundsKeepsAll` | App.tsx:254 | with both bounds empty every trip is shown |
| `History.FilterTripsKeepsOrder` | App.tsx:252-260 | the shown trips are a subsequence of the history, in order |
| `History.FilterTripsIdempotent` | App.tsx:252-260 | filtering the filtered list again changes nothing |
| `History.SumProfit` | App.tsx:266-267 | definition (no contract) of the total profit; characterised by `History.SumsConcat`, `History.SaveAddsToSums` and `Calculator.TripCalculator.PeriodSummary` |
| `History.SumKm` | App.tsx:268-269 | definition (no contract) of the total distance, a blank distance as 0; characterised by `History.SumsConcat`, `History.SumKmNonNegative` and `Calculator.TripCalculator.PeriodSummary` |
| `History.SumsConcat` | App.tsx:262-273 | total profit and total distance add up over concatenation |
| `History.SumKmNonNegative` | App.tsx:268-269 | with non-negative distances the total distance is non-negative |
| `History.SaveAddsToSums` | App.tsx:262-273 | a trip put in front of the history adds exactly its profit and its distance (blank as 0) to the totals |
| `History.ScenarioEFilterFrom` | App.tsx:252-273 | trips on 2024-01-10 and 2024-02-05 filtered from 2024-02-01 show only the second, and the totals are that trip's |
| `Calculator.TripCalculator.constructor` | App.tsx:41-76 | the initial inputs (blank distance and revenue, freight mode, PLN, rate 4.30, 5.00 / 0.40 / 0.65, default consumption, "Polska"), today's date, no filter, and the stored history or the empty list |
| `Calculator.TripCalculator.SaveTrip` | App.tsx:194-219 | the history becomes the new record followed by the old history unchanged; the record holds the current net profit, the display currency and a snapshot of the inputs; storage is rewritten; nothing else changes |
| `Calculator.TripCalculator.ClickSave` | App.tsx:509-510 | the save happens exactly when the save gate is open, and otherwise nothing changes |
| `Calculator.TripCalculator.LoadTrip` | App.tsx:221-236 | the inputs become the loaded inputs with defaults; the trip date becomes the record's date only when it has one; history and filter unchanged |
| `Calculator.TripCalculator.SetInputs` | App.tsx:224-236 | the eleven input fields become exactly the given inputs; trip date, history, storage and filters unchanged |
| `Calculator.TripCalculator.DeleteTrip` | App.tsx:241-243 | the history becomes the delete-by-id of the old one; storage is rewritten; the inputs are unchanged |
| `Calculator.TripCalculator.ClearFilters` | App.tsx:245-248 | both bounds become empty and the filtered list is the whole history |
| `Calculator.TripCalculator.PeriodSummary` | App.tsx:262-273 | the accumulated totals equal the sum of net profits and the sum of distances over the filtered trips; an empty filtered list gives (0, 0) |

## Left out

- Rendering, the language toggle, the accordion, the per-field `onChange` setters, log-in, log-out and the admin panel: presentation and access control, no engine logic.
- The exchange-rate fetch (`handleFetchRate` and the language-model service): an asynchronous network call; in the model the rate changes only through a load.
- Browser storage and JSON: the stored history is a constructor parameter, `None` for an absent or unreadable entry; `persisted` stands for the entry that the effect rewrites after every change; a stored value that parses to something other than a list is not modelled.
- History.EffectiveDate: `dateOf` is total, whereas converting an out-of-range timestamp throws in JavaScript; timestamps come from the clock, so this does not arise.
- Number and date formatting (`Intl.NumberFormat`, `toISOString`, `toLocaleDateString`, `getDisplayDate`): the model computes the numbers that are formatted; the epoch-to-date conversion is the parameter `dateOf`, today's date the parameter `today`.
- Floating point: reals stand for JavaScript numbers, so rounding, `NaN` (for instance from `parseFloat` of a malformed input) and infinities are not modelled.
- The tax table and the default fuel consumption constant: the resolved rate (`taxRate`) and the default consumption are parameters; the table lookup is assumed to succeed.
- Display.ResultDisplayValue: requires a non-zero exchange rate, where JavaScript would yield an infinity or `NaN`; the application's own rates are positive (4.30 initially, fetched rates rejected when ≤ 0).
- Display.UnitRateDisplayValue: requires a non-zero exchange rate, for the same reason.
- Dates.Less: compares Dafny characters (Unicode scalar values) where JavaScript compares UTF-16 code units; the two agree on `YYYY-MM-DD` dates.
- Id uniqueness: ids come from the clock and are not checked; no duplicate-id rejection exists in the code.
- The scroll to the top after a load, and the re-display of saved profits in the current currency: presentation.
