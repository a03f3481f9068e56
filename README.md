# Quote pricing engine, modelled in Dafny

This project models the quote pricing engine of a chauffeur-booking site: the
`usePricingEngine` composable. The engine takes a vehicle rate card, a service,
configured line items, sales taxes, a route or an hour count, a context tag and
an airport pickup fee. From these it produces:

- a base rate, by the HOURLY or DISTANCE strategy;
- an ordered list of priced rows: the Base Rate row, the configured items that
  apply, Fuel Surcharge and Gratuity fallbacks, and the GTAA airport fee;
- the sub-total, tax total and grand total;
- the two legacy row views that quote persistence stores.

Modules:

- `Rounding`: the engine's `round` helper, i.e. `toFixed` followed by
  `parseFloat`. It is modelled over exact reals as rounding the magnitude half
  up, with the sign applied afterwards.
- `Schema`: vehicles, services, line items and sales taxes. Nullable fields are
  `Option`s. A line item's `applies_to` has three values: a stored null, an
  absent field, or a tag.
- `Labels`: the `/fuel/i` and `/gratuity/i` label tests.
- `BaseRates`: the pricing mode and the two strategies.
- `Taxes`: active-tax selection and the combined rate.
- `Rows`: line-item filtering and row assembly (`computedLineItemRows` as a
  function of its inputs).
- `QuoteViews`: `subTotal`, `taxTotal`, `totalAmount`, `detailedLineItems` and
  `detailedLineItemsWithTotals`.
- `Route`: the directions URL and the distance taken from a directions reply.
- `Engine`: the engine object as a class. Its fields are the selection and
  route state. Its methods are the setters, `reset`, `updateDistance` and
  `updateLineItemsTotal`, plus the two row-building loops, each proved equal to
  the pure definition. Derived figures are functions of the current state,
  recomputed whenever they are read.

Modelling choices:

- `label` is a Dafny keyword, so the source's `label` fields are called `name`
  on vehicles and services and `caption` on line items and rows.
- `x || 0` on a nullable number is `OrZero`. A nullable flag is true only when
  it is present and `true`.

## Model

| member | source | states |
|---|---|---|
| Rounding.RoundError | composables/usePricingEngine.ts:74-75 | rounding to `d` digits moves a value by at most half a unit of the last digit |
| Rounding.Round2Error | composables/usePricingEngine.ts:74-75 | the default two-digit rounding moves a value by at most half a cent |
| Rounding.RoundSign | composables/usePricingEngine.ts:74-75 | rounding keeps the sign of its argument |
| Rounding.RoundMonotone | composables/usePricingEngine.ts:74-75 | rounding never reverses the order of two values |
| Rounding.RoundOfUnits | composables/usePricingEngine.ts:74-75 | a whole number of units of the last digit is left unchanged |
| Rounding.RoundIdempotent | composables/usePricingEngine.ts:74-75 | rounding a rounded value again changes nothing |
| Rounding.RoundZero | composables/usePricingEngine.ts:74-75 | zero rounds to zero |
| Labels.NoMatchAtAnyStart | composables/usePricingEngine.ts:301 | a label with no position starting with the pattern's first letter (ignoring case) does not match |
| Labels.SyntheticLabels | composables/usePricingEngine.ts:301-323 | `Fuel Surcharge` matches /fuel/i and not /gratuity/i; `Gratuity` matches /gratuity/i; `Base Rate` matches neither |
| BaseRates.ModeSelectsStrategy | composables/usePricingEngine.ts:222-235 | the mode is HOURLY exactly when `is_hourly` is true and DISTANCE otherwise; the base rate is the selected strategy's charge |
| BaseRates.BaseRateInCents | composables/usePricingEngine.ts:151-167 | every base rate is a whole number of cents |
| BaseRates.HourlyBillsAtLeastMinimum | composables/usePricingEngine.ts:152-156 | the minimum hours are at least 2 and at least `min_hours`; requests at or below the minimum bill the minimum, longer ones bill the hours requested |
| BaseRates.HourlyChargeBounds | composables/usePricingEngine.ts:152-156 | with a non-negative hourly rate, the unrounded charge is at least two hours' worth and grows with the hours |
| BaseRates.HourlyFloorAndMonotone | composables/usePricingEngine.ts:152-156 | with a non-negative hourly rate, the hourly base rate is never below `round(2 × per_hour)` and never falls as hours grow |
| BaseRates.DistanceBaselineAndOverage | composables/usePricingEngine.ts:157-166 | the baseline distance is at least 25 km and at least `min_distance`; the baseline charge is the larger of per-km and one hour; up to the baseline only the baseline is charged, beyond it the per-km overage is added |
| BaseRates.DistanceChargeBounds | composables/usePricingEngine.ts:157-166 | with a non-negative per-km rate, the unrounded charge is at least the baseline and grows with distance |
| BaseRates.DistanceFloorAndMonotone | composables/usePricingEngine.ts:157-166 | with a non-negative per-km rate, the distance base rate is never below the rounded baseline and never falls as distance grows |
| BaseRates.BaseRateNonNegative | composables/usePricingEngine.ts:151-167 | non-negative rates give a non-negative base rate |
| BaseRates.MinRateUnused | composables/usePricingEngine.ts:151-167 | changing `min_rate` changes no base rate, although the header comment at line 27 describes the distance strategy as starting from it |
| BaseRates.PremiumSuvFortyKm | app/data/mockCatalog.ts:22-32 | Premium SUV over 40 km prices at 141.50 |
| BaseRates.ExecutiveSedanOneHour | app/data/mockCatalog.ts:9-20 | Executive Sedan for one hour prices at 170.00 (two billable hours at 85) |
| Taxes.ActiveTaxesSpec | composables/usePricingEngine.ts:240-242 | the active taxes are exactly the active members of the list, in configured order (filtering distributes over concatenation) |
| Taxes.CombinedIsSumOfActiveRates | composables/usePricingEngine.ts:244-246 | the combined rate equals the reference sum in which each tax contributes its rate when active and nothing otherwise |
| Taxes.SumRatesAppend | composables/usePricingEngine.ts:244-246 | summing rates distributes over concatenation |
| Taxes.CombinedRateAdds | composables/usePricingEngine.ts:240-246 | the combined rate of two tax lists put together is the sum of their combined rates |
| Taxes.CombinedRateNonNegative | composables/usePricingEngine.ts:240-246 | non-negative tax rates combine to a non-negative rate |
| Taxes.NonNegativeRatesSum | composables/usePricingEngine.ts:244-246 | the reference sum of non-negative rates is non-negative |
| Taxes.FivePlusEight | composables/usePricingEngine.ts:240-246 | active taxes of 5% and 8%, plus an inactive 7% tax, combine to 13% |
| Rows.TaxAt | composables/usePricingEngine.ts:288-290 | a row's tax is in whole cents and within half a cent of its pre-tax amount times the combined rate |
| Rows.ItemPreTax | composables/usePricingEngine.ts:284-287 | an item's pre-tax amount, a percentage of the base rate or flat, is in whole cents |
| Rows.RowsInCents | composables/usePricingEngine.ts:270-338 | with a base rate in whole cents, every pre-tax amount and every tax of the assembled rows is in whole cents |
| Rows.FilterSpec | composables/usePricingEngine.ts:251-260 | the applicable items are exactly those that are active and scoped null, `''` or to the context, kept in configured order |
| Rows.FilterDropsInapplicable | composables/usePricingEngine.ts:251-260 | an item that is inactive, left unscoped (`undefined`) or scoped to another context gets no row |
| Rows.BaseRowMatchesNeither | composables/usePricingEngine.ts:274-280 | the Base Rate row matches neither /fuel/i nor /gratuity/i |
| Rows.ConfiguredMatches | composables/usePricingEngine.ts:301-314 | the Base Rate row followed by the item rows matches /fuel/i (or /gratuity/i) exactly when some item's label does |
| Rows.RowsLayout | composables/usePricingEngine.ts:270-338 | row 0 is Base Rate (taxable, tax at the combined rate); the applicable items follow in order, each priced as a percentage of the base rate or flat; Fuel Surcharge (8%) is added exactly when no item matches /fuel/i and Gratuity (20%) exactly when none matches /gratuity/i; the GTAA fee row comes last exactly when the fee is positive; the row count follows from these |
| Rows.FuelRowMatchesNoGratuity | composables/usePricingEngine.ts:300-314 | adding the fallback fuel row does not change whether a gratuity row exists |
| Rows.EnsureRowGuarantees | composables/usePricingEngine.ts:300-323 | after a fallback check some row matches the pattern, and the earlier rows are untouched |
| Rows.RowsAlwaysHaveFuelAndGratuity | composables/usePricingEngine.ts:300-323 | the rows always contain a label matching /fuel/i and one matching /gratuity/i |
| Rows.ExactlyOneGratuityRow | composables/usePricingEngine.ts:313-323 | with no configured gratuity, exactly one row is labelled `Gratuity`: the untaxed 20% fallback |
| Rows.FeeRowExactlyWhenPositive | composables/usePricingEngine.ts:325-335 | a synthetic `GTAA Fee` row exists exactly when the fee is positive, and it is then the last row |
| Rows.RowsTaxedConsistently | composables/usePricingEngine.ts:274-335 | every taxable row is taxed at the combined rate on its own pre-tax amount; every non-taxable row has tax 0 |
| QuoteViews.TotalsAppend | composables/usePricingEngine.ts:343-349 | sub-total, tax total and taxable base distribute over concatenation of rows |
| QuoteViews.ExactTaxIsRateOnTaxableBase | composables/usePricingEngine.ts:288-290 | unrounded, the row-by-row tax is the combined rate applied once to the taxable sum |
| QuoteViews.RowsNearExact | composables/usePricingEngine.ts:274-335 | every consistently taxed row's tax is within half a cent of exact |
| QuoteViews.SumNearExact | composables/usePricingEngine.ts:347-349 | summing per-row taxes that are each within half a cent gives a total within half a cent per row |
| QuoteViews.TaxTotalNearCombinedRate | composables/usePricingEngine.ts:347-349 | the tax total differs from the combined rate times the taxable sum by at most half a cent per row |
| QuoteViews.ZeroRateNoTax | composables/usePricingEngine.ts:343-351 | with a zero combined rate the tax total is 0 and the grand total is the sub-total |
| QuoteViews.TotalsNonNegative | composables/usePricingEngine.ts:343-351 | non-negative row amounts give non-negative totals, and the grand total is at least the sub-total |
| QuoteViews.DetailedMirrorsRows | composables/usePricingEngine.ts:358-365 | the minimal view has one entry per row; for rows in whole cents each entry is `(label, tax, preTax)` unchanged |
| QuoteViews.TaxEntry | composables/usePricingEngine.ts:381-394 | a tax entry carries the tax's name, the same amount as tax and total, and that amount is within half a cent of its share of the tax total |
| QuoteViews.WithTotalsLayout | composables/usePricingEngine.ts:375-412 | the extended view is: the row entries; one entry per active tax, in order, carrying the tax's name and its rounded share of the tax total as both tax and total (0 when the combined rate is 0); `Total Tax` only when more than one tax is active, and last `Total`; its length is rows + taxes + (1 if more than one tax) + 1 |
| QuoteViews.ExactSharesSum | composables/usePricingEngine.ts:381-385 | the exact per-tax shares add up to the tax total scaled by the active rates over the combined rate |
| QuoteViews.SharesNearExact | composables/usePricingEngine.ts:381-385 | the rounded shares add up to the exact shares within half a cent per tax |
| QuoteViews.PerTaxSharesAddUp | composables/usePricingEngine.ts:381-394 | with a non-zero combined rate, the per-tax entries add up to the tax total within half a cent per active tax |
| Route.BuildDirectionsUrl | composables/usePricingEngine.ts:77-95 | the pushed and joined parts give the directions URL: endpoint, origin, destination, the waypoint segment only when there are waypoints, and the key |
| Route.ConcatThree | composables/usePricingEngine.ts:84-88 | joining the three initial parts gives endpoint, origin and destination in that order |
| Route.ConcatSnoc | composables/usePricingEngine.ts:94 | joining one more part appends it |
| Route.IndexOf | composables/usePricingEngine.ts:90 | finds the first separator position, or the end of the string if there is none |
| Route.SplitJoin | composables/usePricingEngine.ts:90 | joining separator-free place references with the waypoint separator can be undone by splitting at that separator |
| Route.WaypointRefsRecoverable | composables/usePricingEngine.ts:89-91 | the joined waypoint segment lists every waypoint's `place_id:` reference, in order |
| Route.UrlShape | composables/usePricingEngine.ts:84-94 | the URL starts with the endpoint and ends with `&key=` and the key; the waypoint segment is empty exactly when there are no waypoints |
| Route.TotalMetersAppend | composables/usePricingEngine.ts:132-135 | leg distances are summed in order, so a concatenation sums to the sum of the parts |
| Route.LegContribution | composables/usePricingEngine.ts:132-135 | a single leg measures its own distance, and adding a leg at either end adds its distance (a missing distance counts 0) |
| Route.LegsNonNegative | composables/usePricingEngine.ts:132-135 | legs with no negative distance sum to a non-negative total |
| Route.RouteKmNonNegative | composables/usePricingEngine.ts:122-136 | when no leg of the first route is negative, the route's distance in km is non-negative; it is 0 when there is no route or no leg |
| Route.IncompleteRouteNeedsNoProvider | composables/usePricingEngine.ts:103-110 | with no origin or no destination the answer is zero km and no routes, whatever the provider would reply |
| Route.FetchOutcome | composables/usePricingEngine.ts:112-136 | for a complete route the fetch fails exactly when the reply is an HTTP failure or malformed; otherwise it reports the first route's km and the routes |
| Route.TwoLegRoute | composables/usePricingEngine.ts:132-136 | legs of 12,500 m and 7,250 m on the first route make 19.75 km |
| Engine.ResetPricesLikeNew | composables/usePricingEngine.ts:495-506 | after reset the engine prices exactly like a newly created one with the same vehicle, service and originals, once the kept airport fee is applied; resetting twice equals resetting once |
| Engine.NoRouteBillsBaseline | composables/usePricingEngine.ts:458-463 | with distance 0 (an empty route) a DISTANCE quote is the rounded baseline charge |
| Engine.ClampedHoursBillMinimum | composables/usePricingEngine.ts:427-429 | once a negative hour request is clamped to 0, an HOURLY quote bills the minimum hours |
| Engine.DetailedReportsEngineRows | composables/usePricingEngine.ts:358-365 | every amount of the engine's rows is in whole cents, so `detailedLineItems` reports each row's label, tax and pre-tax amount unchanged, one entry per row |
| Engine.RowsNeverEmpty | composables/usePricingEngine.ts:270-338 | the rows are never empty: Base Rate comes first and at least one more row follows, so `detailedLineItems` is never null |
| Engine.PricingEngine.constructor | composables/usePricingEngine.ts:185-217 | a new engine selects the given vehicle, service, items and taxes; every other field starts empty, zero or -1 |
| Engine.PricingEngine.TakeSnapshot | composables/usePricingEngine.ts:511-528 | the snapshot reports the current mode, distance, hours, context, base rate (in whole cents), sub-total and tax total; its total is sub-total plus tax total; its two views are the current rows' views, both present, the minimal one with one entry per row; it lists each active tax's name and rate, in order |
| Engine.PricingEngine.ComputedLineItemRows | composables/usePricingEngine.ts:270-338 | the row-by-row pushes build exactly the assembled rows of the current state |
| Engine.PricingEngine.DetailedLineItemsWithTotals | composables/usePricingEngine.ts:375-412 | the pushes build exactly the extended view of the current rows and taxes, which is never null |
| Engine.PricingEngine.UpdateBaseRate | composables/usePricingEngine.ts:477-479 | returns the current base rate, a whole number of cents, and changes nothing |
| Engine.PricingEngine.SetPlaces | composables/usePricingEngine.ts:421-425 | sets origin, destination and waypoints (none when absent); nothing else changes |
| Engine.PricingEngine.SetSelectedHours | composables/usePricingEngine.ts:427-429 | stores `max(0, h)`, so the hours are never negative and a non-negative request is kept; nothing else changes |
| Engine.PricingEngine.SetVehicle | composables/usePricingEngine.ts:431-433 | replaces the selected vehicle only |
| Engine.PricingEngine.SetService | composables/usePricingEngine.ts:435-437 | replaces the selected service only |
| Engine.PricingEngine.SetLineItems | composables/usePricingEngine.ts:439-441 | replaces the selected line items only |
| Engine.PricingEngine.SetTaxes | composables/usePricingEngine.ts:443-445 | replaces the selected taxes only |
| Engine.PricingEngine.SetContextRef | composables/usePricingEngine.ts:447-449 | replaces the context tag only |
| Engine.PricingEngine.SetAirportPickupFee | composables/usePricingEngine.ts:450-452 | stores `max(0, amount)`, keeping the fee non-negative; a fee row is present afterwards exactly when the amount was positive |
| Engine.PricingEngine.UpdateDistance | composables/usePricingEngine.ts:458-472 | with no origin or no destination: distance 0 and no route data, without a request. Otherwise a failed fetch changes nothing, and a successful one stores the km rounded to three decimals and the routes |
| Engine.PricingEngine.UpdateLineItemsTotal | composables/usePricingEngine.ts:485-493 | sets the context and returns the sub-total, tax total and grand total of the resulting rows, with total = sub-total + tax total |
| Engine.PricingEngine.Reset | composables/usePricingEngine.ts:495-506 | clears origin, destination, waypoints, hours, distance and context; sets both type ids to -1; restores the original items and taxes; keeps vehicle, service, route data and airport fee |

## Left out

- The HTTP request, the `response.ok` check and the schema validation of the
  directions reply (composables/usePricingEngine.ts:113-120). They are I/O and
  library code. The reply is a parameter, `provider`, with three outcomes: an
  HTTP failure, a malformed body, or a list of routes.
- Route.FetchDirections: the thrown error's message text is not modelled. A
  failure is reported as a `FetchError` value that carries the status and status
  text.
- `encodeURIComponent` is an abstract parameter, `encode`. Its escaping is not
  modelled.
- `useRuntimeConfig` becomes a constructor argument, the API key.
- `calculateDistance` (composables/usePricingEngine.ts:587-600) only forwards to
  `fetchDirections` with a key read from the runtime configuration. It is not
  part of this model.
- IEEE-754 doubles. All arithmetic is exact over reals, and `round` rounds
  exactly. `toFixed` applied to a binary approximation of a tie, and the
  `Number.isFinite` guard for infinite or NaN values, are not modelled.
- The `|| 0` fallbacks for NaN hours or distance are not modelled. Reals have
  no NaN.
- Per-tax share when the combined rate is 0: the source divides by zero and
  falls back with `|| 0` (line 382). This gives Infinity or NaN times a zero tax
  total, which then rounds to 0. The model uses a share of 0, which gives the
  same amount.
- The `!selectedVehicle || !selectedService` guard (line 227) cannot be reached
  with typed inputs. A vehicle and a service are always present in the model.
- Engine.PricingEngine.UpdateDistance: `updateDistance` is asynchronous, but the
  model runs it as one atomic step. A `setPlaces` or `reset` that lands while
  the request is in flight, and the interleavings that follow, are not captured.
- Vue reactivity. `ref` becomes a class field. `computed` becomes a function of
  the current state, recomputed on every read.
- `routeData`'s placeholder `{ routes: [] }` is modelled as an empty route list.
  Other fields of the directions reply are not modelled.
- The rest of the repository is not part of this model: routers,
  notification, payment and storage helpers, and UI code.

## Findings

None: every property listed above holds of the model of the code as written,
which computes over exact reals rather than IEEE-754 doubles.
