/** The pricing engine object returned by `usePricingEngine`: its selection and
    route state, the setters and commands that change that state, and the derived
    figures, recomputed from the current state whenever they are read. */
module Engine {
  import opened Schema
  import opened Rounding
  import opened Labels
  import opened BaseRates
  import opened Taxes
  import opened Rows
  import opened QuoteViews
  import opened Route

  /** Every piece of state the engine's commands change, as one value. */
  datatype EngineState = EngineState(
    vehicle: Vehicle,
    service: Service,
    lineItems: seq<LineItem>,
    taxes: seq<SalesTax>,
    hours: real,
    origin: string,
    destination: string,
    waypoints: seq<string>,
    routeData: Option<seq<DirectionsRoute>>,
    distance: real,
    contextRef: string,
    airportPickupFee: real,
    vehicleTypeId: int,
    serviceTypeId: int)

  /** `baseRate` of a state. */
  function StateBaseRate(s: EngineState): real
  {
    BaseRate(s.service, s.vehicle, s.hours, s.distance)
  }

  /** `computedLineItemRows` of a state. */
  function StateRows(s: EngineState): seq<Row>
  {
    AssembleRows(StateBaseRate(s), s.lineItems, s.contextRef, CombinedTaxRate(s.taxes), s.airportPickupFee)
  }

  /** What `snapshot` reports. */
  datatype Snapshot = Snapshot(
    mode: PricingMode,
    distanceKm: real,
    hours: real,
    baseRate: real,
    subTotal: real,
    taxTotal: real,
    total: real,
    contextRef: string,
    lineItems: Option<seq<Entry>>,
    lineItemsWithTotals: Option<seq<Entry>>,
    activeTaxRates: seq<TaxRate>)

  datatype TaxRate = TaxRate(name: string, rate: real)

  /** The state the engine starts in for the given inputs. */
  function InitialState(vehicle: Vehicle, service: Service, lineItems: seq<LineItem>, salesTaxes: seq<SalesTax>)
    : EngineState
  {
    EngineState(vehicle, service, lineItems, salesTaxes, 0.0, "", "", [], None, 0.0, "", 0.0, -1, -1)
  }

  /** The state `reset` leaves: route, hours, context and type ids cleared, the given
      original items and taxes restored, everything else kept. */
  function ResetOf(s: EngineState, lineItems: seq<LineItem>, salesTaxes: seq<SalesTax>): EngineState
  {
    EngineState(s.vehicle, s.service, lineItems, salesTaxes, 0.0, "", "", [], s.routeData, 0.0, "",
                s.airportPickupFee, -1, -1)
  }

  /** After `reset` the engine prices exactly as a freshly created engine for the same
      vehicle, service and originals would, once the kept airport fee is applied; and
      resetting twice is resetting once. */
  lemma ResetPricesLikeNew(s: EngineState, lineItems: seq<LineItem>, salesTaxes: seq<SalesTax>)
    ensures var restarted := InitialState(s.vehicle, s.service, lineItems, salesTaxes).(airportPickupFee := s.airportPickupFee);
            && StateBaseRate(ResetOf(s, lineItems, salesTaxes)) == StateBaseRate(restarted)
            && StateRows(ResetOf(s, lineItems, salesTaxes)) == StateRows(restarted)
    ensures ResetOf(ResetOf(s, lineItems, salesTaxes), lineItems, salesTaxes) == ResetOf(s, lineItems, salesTaxes)
  {
    var r := ResetOf(s, lineItems, salesTaxes);
    var restarted := InitialState(s.vehicle, s.service, lineItems, salesTaxes).(airportPickupFee := s.airportPickupFee);
    assert r.service == restarted.service && r.vehicle == restarted.vehicle && r.hours == restarted.hours && r.distance == restarted.distance;
    RoundEqual(DistanceCharge(r.distance, r.vehicle), DistanceCharge(restarted.distance, restarted.vehicle), 2);
    RoundEqual(HourlyCharge(r.hours, r.vehicle), HourlyCharge(restarted.hours, restarted.vehicle), 2);
  }

  /** With no route (distance zero), a DISTANCE quote is the baseline charge alone. */
  lemma NoRouteBillsBaseline(s: EngineState)
    requires s.distance == 0.0 && ModeOf(s.service) == Distance
    ensures StateBaseRate(s) == Round2(BaselineCharge(s.vehicle))
  {
    DistanceBaselineAndOverage(0.0, s.vehicle);
  }

  /** With hours clamped at zero, an HOURLY quote is the vehicle's minimum hours at the
      hourly rate, so clamping a negative request bills the minimum. */
  lemma ClampedHoursBillMinimum(s: EngineState, h: real)
    requires h <= 0.0 && ModeOf(s.service) == Hourly
    ensures StateBaseRate(s.(hours := Max(0.0, h))) == Round2(MinimumHours(s.vehicle) * OrZero(s.vehicle.perHour))
  {
    HourlyBillsAtLeastMinimum(0.0, s.vehicle);
  }

  /** Assembled rows are never empty: the Base Rate row leads, and since it matches
      neither /fuel/i nor /gratuity/i at least one more row follows it. */
  lemma RowsNeverEmpty(s: EngineState)
    ensures |StateRows(s)| >= 2
    ensures StateRows(s)[0] == BaseRow(StateBaseRate(s), CombinedTaxRate(s.taxes))
  {
    RowsLayout(StateBaseRate(s), s.lineItems, s.contextRef, CombinedTaxRate(s.taxes), s.airportPickupFee);
    RowsAlwaysHaveFuelAndGratuity(StateBaseRate(s), s.lineItems, s.contextRef, CombinedTaxRate(s.taxes), s.airportPickupFee);
    BaseRowMatchesNeither(StateBaseRate(s), CombinedTaxRate(s.taxes));
    var r := StateRows(s);
    var i :| 0 <= i < |r| && ContainsIgnoreCase(r[i].caption, FuelPattern);
    assert i != 0;
  }

  /** The engine's rows are all in cents, so the minimal view reports each row's
      label, tax and pre-tax amount unchanged. */
  lemma DetailedReportsEngineRows(s: EngineState)
    ensures AllInCents(StateRows(s))
    ensures var r := StateRows(s);
            && DetailedLineItems(r).Some?
            && |DetailedLineItems(r).value| == |r|
            && (forall i | 0 <= i < |r| :: DetailedLineItems(r).value[i] == Entry(r[i].caption, r[i].tax, r[i].preTax))
  {
    BaseRateInCents(s.service, s.vehicle, s.hours, s.distance);
    RowsInCents(StateBaseRate(s), s.lineItems, s.contextRef, CombinedTaxRate(s.taxes), s.airportPickupFee);
    RowsNeverEmpty(s);
    DetailedMirrorsRows(StateRows(s));
  }

  /** Building the item rows one item further appends that item's row. */
  lemma ItemRowsSnoc(items: seq<LineItem>, i: int, baseRate: real, combinedRate: real)
    requires 0 <= i < |items|
    ensures ItemRows(items[..i + 1], baseRate, combinedRate)
         == ItemRows(items[..i], baseRate, combinedRate) + [ItemRow(items[i], baseRate, combinedRate)]
  {
  }

  /** Reporting one more tax appends that tax's entry. */
  lemma TaxEntriesSnoc(active: seq<SalesTax>, j: int, combinedRate: real, taxTotal: real)
    requires 0 <= j < |active|
    ensures TaxEntries(active[..j + 1], combinedRate, taxTotal)
         == TaxEntries(active[..j], combinedRate, taxTotal) + [TaxEntry(active[j], combinedRate, taxTotal)]
  {
  }

  class PricingEngine {
    // The inputs, kept unchanged for `reset`.
    const vehicle: Vehicle
    const service: Service
    const lineItems: seq<LineItem>
    const salesTaxes: seq<SalesTax>
    /** The maps API key read from the runtime configuration. */
    const apiKey: string

    var selectedVehicle: Vehicle
    var selectedService: Service
    var selectedLineItemsList: seq<LineItem>
    var selectedTaxesList: seq<SalesTax>
    var selectedHours: real
    var origin: string
    var destination: string
    var waypoints: seq<string>
    var routeData: Option<seq<DirectionsRoute>>
    var distance: real
    var contextRef: string
    var airportPickupFee: real
    var vehicleTypeId: int
    var serviceTypeId: int

    function State(): EngineState
      reads this
    {
      EngineState(selectedVehicle, selectedService, selectedLineItemsList, selectedTaxesList, selectedHours,
                  origin, destination, waypoints, routeData, distance, contextRef, airportPickupFee,
                  vehicleTypeId, serviceTypeId)
    }

    /** `usePricingEngine(input)`: the originals are selected, everything else empty. */
    constructor (vehicle: Vehicle, service: Service, lineItems: seq<LineItem>, salesTaxes: seq<SalesTax>,
                 apiKey: string)
      ensures this.vehicle == vehicle && this.service == service
      ensures this.lineItems == lineItems && this.salesTaxes == salesTaxes && this.apiKey == apiKey
      ensures State() == InitialState(vehicle, service, lineItems, salesTaxes)
    {
      this.vehicle := vehicle;
      this.service := service;
      this.lineItems := lineItems;
      this.salesTaxes := salesTaxes;
      this.apiKey := apiKey;
      selectedVehicle := vehicle;
      selectedService := service;
      selectedLineItemsList := lineItems;
      selectedTaxesList := salesTaxes;
      selectedHours := 0.0;
      origin := "";
      destination := "";
      waypoints := [];
      routeData := None;
      distance := 0.0;
      contextRef := "";
      airportPickupFee := 0.0;
      vehicleTypeId := -1;
      serviceTypeId := -1;
    }

    // -------------------------------------------------------------------------
    // Derived figures

    function Mode(): PricingMode
      reads this
    {
      ModeOf(selectedService)
    }

    function CurrentBaseRate(): real
      reads this
    {
      StateBaseRate(State())
    }

    function CurrentCombinedRate(): real
      reads this
    {
      CombinedTaxRate(selectedTaxesList)
    }

    function CurrentRows(): seq<Row>
      reads this
    {
      StateRows(State())
    }

    function CurrentTotals(): Totals
      reads this
    {
      TotalsOf(CurrentRows())
    }

    /** `snapshot`: the current mode, inputs, figures and views. */
    function TakeSnapshot(): (snap: Snapshot)
      reads this
      ensures snap.mode == Mode() && snap.distanceKm == distance && snap.hours == selectedHours
      ensures snap.contextRef == contextRef
      ensures snap.baseRate == CurrentBaseRate() && IsRounded(snap.baseRate, 2)
      ensures snap.subTotal == CurrentTotals().subTotal && snap.taxTotal == CurrentTotals().taxTotal
      ensures snap.total == snap.subTotal + snap.taxTotal
      ensures snap.lineItems == DetailedLineItems(CurrentRows())
      ensures snap.lineItemsWithTotals == DetailedWithTotals(CurrentRows(), selectedTaxesList)
      ensures snap.lineItems.Some? && snap.lineItemsWithTotals.Some?
      ensures |snap.lineItems.value| == |CurrentRows()|
      ensures |snap.activeTaxRates| == |ActiveTaxes(selectedTaxesList)|
      ensures forall i | 0 <= i < |snap.activeTaxRates| ::
        snap.activeTaxRates[i] == TaxRate(ActiveTaxes(selectedTaxesList)[i].taxName, ActiveTaxes(selectedTaxesList)[i].amount)
    {
      RowsNeverEmpty(State());
      BaseRateInCents(selectedService, selectedVehicle, selectedHours, distance);
      var rows := CurrentRows();
      var active := ActiveTaxes(selectedTaxesList);
      Snapshot(Mode(), distance, selectedHours, CurrentBaseRate(), SubTotal(rows), TaxTotal(rows), TotalAmount(rows),
               contextRef, DetailedLineItems(rows), DetailedWithTotals(rows, selectedTaxesList),
               seq(|active|, i requires 0 <= i < |active| => TaxRate(active[i].taxName, active[i].amount)))
    }

    // -------------------------------------------------------------------------
    // Row building

    /** `computedLineItemRows`: pushes the Base Rate row, then one row per applicable
        item, then the fallbacks and the fee when called for. */
    method ComputedLineItemRows() returns (rows: seq<Row>)
      ensures rows == CurrentRows()
    {
      var baseRate := CurrentBaseRate();
      var combined := CurrentCombinedRate();
      var items := FilterLineItems(selectedLineItemsList, contextRef);
      rows := [BaseRow(baseRate, combined)];
      var i := 0;
      while i < |items|
        invariant 0 <= i <= |items|
        invariant rows == [BaseRow(baseRate, combined)] + ItemRows(items[..i], baseRate, combined)
      {
        ItemRowsSnoc(items, i, baseRate, combined);
        rows := rows + [ItemRow(items[i], baseRate, combined)];
        i := i + 1;
      }
      assert items[..i] == items;
      ghost var configured := rows;
      if !AnyCaptionMatches(rows, FuelPattern) {
        rows := rows + [FuelRow(baseRate, combined)];
      }
      assert rows == EnsureRow(configured, FuelPattern, FuelRow(baseRate, combined));
      ghost var withFuel := rows;
      if !AnyCaptionMatches(rows, GratuityPattern) {
        rows := rows + [GratuityRow(baseRate)];
      }
      assert rows == EnsureRow(withFuel, GratuityPattern, GratuityRow(baseRate));
      if airportPickupFee > 0.0 {
        rows := rows + [FeeRow(airportPickupFee, combined)];
      }
      assert rows == AssembleRows(baseRate, selectedLineItemsList, contextRef, combined, airportPickupFee);
    }

    /** `detailedLineItemsWithTotals`: the row entries, then one pushed entry per
        active tax, the `Total Tax` entry when more than one tax is active, and the
        `Total` entry. */
    method DetailedLineItemsWithTotals() returns (view: Option<seq<Entry>>)
      ensures view == DetailedWithTotals(CurrentRows(), selectedTaxesList)
      ensures view.Some?
    {
      var rows := ComputedLineItemRows();
      assert |rows| > 0 by {
        RowsNeverEmpty(State());
      }
      var detailed := seq(|rows|, i requires 0 <= i < |rows| => EntryOf(rows[i]));
      var active := ActiveTaxes(selectedTaxesList);
      var combined := CurrentCombinedRate();
      var taxTotal := TaxTotal(rows);
      var out := detailed;
      var j := 0;
      while j < |active|
        invariant 0 <= j <= |active|
        invariant out == detailed + TaxEntries(active[..j], combined, taxTotal)
      {
        TaxEntriesSnoc(active, j, combined, taxTotal);
        out := out + [TaxEntry(active[j], combined, taxTotal)];
        j := j + 1;
      }
      assert active[..j] == active;
      ghost var perTax := out;
      if |active| > 1 {
        out := out + [TotalTaxEntry(rows)];
      }
      assert out == perTax + (if |active| > 1 then [TotalTaxEntry(rows)] else []);
      out := out + [TotalEntry(rows)];
      view := Some(out);
      assert DetailedLineItems(rows) == Some(detailed);
      assert combined == CombinedTaxRate(selectedTaxesList);
      assert view == DetailedWithTotals(rows, selectedTaxesList);
    }

    /** `updateBaseRate`: the legacy stub, which only reads the current base rate. */
    method UpdateBaseRate() returns (rate: real)
      ensures rate == BaseRate(selectedService, selectedVehicle, selectedHours, distance)
      ensures IsRounded(rate, 2)
    {
      rate := CurrentBaseRate();
      BaseRateInCents(selectedService, selectedVehicle, selectedHours, distance);
    }

    // -------------------------------------------------------------------------
    // Setters and commands

    /** `setPlaces`: origin, destination and a copy of the waypoints (none when absent). */
    method SetPlaces(newOrigin: string, newDestination: string, newWaypoints: Option<seq<string>>)
      modifies this
      ensures State() == old(State()).(origin := newOrigin, destination := newDestination,
                                       waypoints := if newWaypoints.Some? then newWaypoints.value else [])
    {
      origin := newOrigin;
      destination := newDestination;
      waypoints := if newWaypoints.Some? then newWaypoints.value else [];
    }

    /** `setSelectedHours`: negative hours are stored as zero. */
    method SetSelectedHours(h: real)
      modifies this
      ensures State() == old(State()).(hours := Max(0.0, h))
      ensures selectedHours >= 0.0 && (h >= 0.0 ==> selectedHours == h)
    {
      selectedHours := if 0.0 >= h then 0.0 else h;
    }

    method SetVehicle(v: Vehicle)
      modifies this
      ensures State() == old(State()).(vehicle := v)
    {
      selectedVehicle := v;
    }

    method SetService(s: Service)
      modifies this
      ensures State() == old(State()).(service := s)
    {
      selectedService := s;
    }

    method SetLineItems(items: seq<LineItem>)
      modifies this
      ensures State() == old(State()).(lineItems := items)
    {
      selectedLineItemsList := items;
    }

    method SetTaxes(taxes: seq<SalesTax>)
      modifies this
      ensures State() == old(State()).(taxes := taxes)
    {
      selectedTaxesList := taxes;
    }

    method SetContextRef(refKey: string)
      modifies this
      ensures State() == old(State()).(contextRef := refKey)
    {
      contextRef := refKey;
    }

    /** `setAirportPickupFee`: negative fees are stored as zero, so the fee row is
        present afterwards exactly when the amount given was positive. */
    method SetAirportPickupFee(amount: real)
      modifies this
      ensures State() == old(State()).(airportPickupFee := Max(0.0, amount))
      ensures airportPickupFee >= 0.0
      ensures var r := CurrentRows();
              (exists i | 0 <= i < |r| :: r[i].source == None && r[i].caption == FeeCaption) <==> amount > 0.0
    {
      airportPickupFee := if 0.0 >= amount then 0.0 else amount;
      FeeRowExactlyWhenPositive(CurrentBaseRate(), selectedLineItemsList, contextRef, CurrentCombinedRate(), airportPickupFee);
    }

    /** `updateDistance`: with no origin or no destination, zero distance and no route
        data, without a request; otherwise the provider's reply to the directions URL
        sets the distance (kilometres to three decimals) and the route data, and a
        failed request leaves the state as it was. */
    method UpdateDistance(encode: string -> string, provider: string -> DirectionsReply)
      returns (error: Option<FetchError>)
      modifies this
      ensures old(origin) == "" || old(destination) == "" ==>
        error == None && State() == old(State()).(distance := 0.0, routeData := None)
      ensures old(origin) != "" && old(destination) != "" ==>
        match FetchDirections(old(origin), old(destination), old(waypoints), apiKey, encode, provider)
        case Failed(e) => error == Some(e) && State() == old(State())
        case Fetched(d) => error == None && State() == old(State()).(distance := Round(d.distanceKm, 3), routeData := Some(d.routes))
      ensures error == None ==> IsRounded(distance, 3)
    {
      if origin == "" || destination == "" {
        distance := 0.0;
        routeData := None;
        RoundZero(3);
        return None;
      }
      var url := BuildDirectionsUrl(origin, destination, waypoints, apiKey, encode);
      var reply := provider(url);
      match reply
      case HttpFailure(status, text) =>
        error := Some(FetchFailed(status, text));
      case Malformed =>
        error := Some(SchemaRejected);
      case Routes(routes) =>
        distance := Round(RouteKm(routes), 3);
        routeData := Some(routes);
        RoundIdempotent(RouteKm(routes), 3);
        error := None;
    }

    /** `updateLineItemsTotal`: sets the context and reports the three totals, which
        add up. */
    method UpdateLineItemsTotal(originRef: string) returns (totals: Totals)
      modifies this
      ensures State() == old(State()).(contextRef := originRef)
      ensures totals == TotalsOf(CurrentRows())
      ensures totals.total == totals.subTotal + totals.taxTotal
    {
      contextRef := originRef;
      totals := CurrentTotals();
    }

    /** `reset`: clears the route, hours, context and type ids and restores the
        original line items and taxes; the selected vehicle and service, the route
        data and the airport fee are kept. */
    method Reset()
      modifies this
      ensures State() == ResetOf(old(State()), lineItems, salesTaxes)
    {
      origin := "";
      destination := "";
      waypoints := [];
      vehicleTypeId := -1;
      serviceTypeId := -1;
      selectedHours := 0.0;
      distance := 0.0;
      selectedLineItemsList := lineItems;
      selectedTaxesList := salesTaxes;
      contextRef := "";
      assert State() == EngineState(old(selectedVehicle), old(selectedService), lineItems, salesTaxes, 0.0,
                                    "", "", [], old(routeData), 0.0, "", old(airportPickupFee), -1, -1);
    }
  }
}
