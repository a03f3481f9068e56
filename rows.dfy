/** Assembly of the priced rows of a quote (`computedLineItemRows`): the synthetic
    Base Rate row, the configured items that apply, the Fuel Surcharge and Gratuity
    fallbacks and the GTAA airport fee, each with its pre-tax amount and its tax. */
module Rows {
  import opened Schema
  import opened Rounding
  import opened Labels

  /** One priced row. `source` is the configured item it came from; synthetic rows have none. */
  datatype Row = Row(caption: string, preTax: real, tax: real, taxable: bool, source: Option<LineItem>)

  const BaseRateCaption: string := "Base Rate"
  const FuelCaption: string := "Fuel Surcharge"
  const GratuityCaption: string := "Gratuity"
  const FeeCaption: string := "GTAA Fee"

  /** An item applies when it is active and its scope is null, empty or the current context.
      A scope left absent (`undefined`) is neither `=== null` nor a string, so it never applies. */
  predicate Applies(li: LineItem, context: string)
  {
    li.isActive && (li.appliesTo == Null || li.appliesTo == Tag("") || li.appliesTo == Tag(context))
  }

  /** `filteredAdditionalLineItems`: the applicable items, in configured order. */
  function FilterLineItems(items: seq<LineItem>, context: string): seq<LineItem>
  {
    if items == [] then []
    else (if Applies(items[0], context) then [items[0]] else []) + FilterLineItems(items[1..], context)
  }

  /** Tax at the combined rate (in percent) on a pre-tax amount, in cents. */
  function TaxAt(preTax: real, combinedRate: real): (tax: real)
    ensures -0.005 <= tax - preTax * (combinedRate / 100.0) <= 0.005
    ensures IsRounded(tax, 2)
  {
    Round2Error(preTax * (combinedRate / 100.0));
    Round2InCents(preTax * (combinedRate / 100.0));
    Round2(preTax * (combinedRate / 100.0))
  }

  function BaseRow(baseRate: real, combinedRate: real): Row
  {
    Row(BaseRateCaption, baseRate, TaxAt(baseRate, combinedRate), true, None)
  }

  /** Pre-tax amount of a configured item: a percentage of the base rate, or a flat amount. */
  function ItemPreTax(li: LineItem, baseRate: real): (preTax: real)
    ensures IsRounded(preTax, 2)
  {
    Round2InCents(if li.isPercentage then baseRate * (li.amount / 100.0) else li.amount);
    Round2(if li.isPercentage then baseRate * (li.amount / 100.0) else li.amount)
  }

  function ItemRow(li: LineItem, baseRate: real, combinedRate: real): Row
  {
    var preTax := ItemPreTax(li, baseRate);
    Row(li.caption, preTax, if li.isTaxable then TaxAt(preTax, combinedRate) else 0.0, li.isTaxable, Some(li))
  }

  /** The fallback fuel surcharge: 8% of the base rate, taxable. */
  function FuelRow(baseRate: real, combinedRate: real): Row
  {
    var preTax := Round2(baseRate * 0.08);
    Row(FuelCaption, preTax, TaxAt(preTax, combinedRate), true, None)
  }

  /** The fallback gratuity: 20% of the base rate, never taxed. */
  function GratuityRow(baseRate: real): Row
  {
    Row(GratuityCaption, Round2(baseRate * 0.2), 0.0, false, None)
  }

  /** The airport pickup fee, taxable. */
  function FeeRow(fee: real, combinedRate: real): Row
  {
    var preTax := Round2(fee);
    Row(FeeCaption, preTax, TaxAt(preTax, combinedRate), true, None)
  }

  /** `rows.some(r => /pat/i.test(r.label))`. */
  predicate AnyCaptionMatches(rows: seq<Row>, pat: string)
  {
    exists i | 0 <= i < |rows| :: ContainsIgnoreCase(rows[i].caption, pat)
  }

  /** Some applicable item's label matches the pattern. */
  predicate AnyItemMatches(items: seq<LineItem>, pat: string)
  {
    exists i | 0 <= i < |items| :: ContainsIgnoreCase(items[i].caption, pat)
  }

  /** The rows of the configured items, one per item, in order. */
  function ItemRows(items: seq<LineItem>, baseRate: real, combinedRate: real): seq<Row>
  {
    seq(|items|, i requires 0 <= i < |items| => ItemRow(items[i], baseRate, combinedRate))
  }

  /** Appends `fallback` unless some row already matches `pat`. */
  function EnsureRow(rows: seq<Row>, pat: string, fallback: Row): seq<Row>
  {
    if AnyCaptionMatches(rows, pat) then rows else rows + [fallback]
  }

  /** The whole row list, as `computedLineItemRows` builds it. */
  function AssembleRows(baseRate: real, items: seq<LineItem>, context: string, combinedRate: real, fee: real)
    : seq<Row>
  {
    var configured := [BaseRow(baseRate, combinedRate)] + ItemRows(FilterLineItems(items, context), baseRate, combinedRate);
    var withFuel := EnsureRow(configured, FuelPattern, FuelRow(baseRate, combinedRate));
    var withGratuity := EnsureRow(withFuel, GratuityPattern, GratuityRow(baseRate));
    if fee > 0.0 then withGratuity + [FeeRow(fee, combinedRate)] else withGratuity
  }

  /** Every taxable row is taxed at the combined rate on its own pre-tax amount and
      every non-taxable row carries no tax. */
  predicate TaxedConsistently(rows: seq<Row>, combinedRate: real)
  {
    forall i | 0 <= i < |rows| ::
      rows[i].tax == (if rows[i].taxable then TaxAt(rows[i].preTax, combinedRate) else 0.0)
  }

  /** Every amount of every row is a whole number of cents. */
  predicate AllInCents(rows: seq<Row>)
  {
    forall i | 0 <= i < |rows| :: IsRounded(rows[i].preTax, 2) && IsRounded(rows[i].tax, 2)
  }

  // ---------------------------------------------------------------------------
  // Filtering

  /** The applicable items are exactly the active, in-scope members of the list, and
      filtering a concatenation filters each part in turn (configured order is kept). */
  lemma {:induction false} FilterSpec(a: seq<LineItem>, b: seq<LineItem>, context: string)
    ensures forall li :: li in FilterLineItems(a, context) <==> li in a && Applies(li, context)
    ensures |FilterLineItems(a, context)| <= |a|
    ensures FilterLineItems(a + b, context) == FilterLineItems(a, context) + FilterLineItems(b, context)
  {
    if a == [] {
      assert a + b == b;
    } else {
      FilterSpec(a[1..], b, context);
      assert (a + b)[0] == a[0];
      assert (a + b)[1..] == a[1..] + b;
    }
  }

  /** An inactive item, or one scoped to another context (or left unscoped as
      `undefined`), produces no row. */
  lemma {:induction false} FilterDropsInapplicable(items: seq<LineItem>, context: string, li: LineItem)
    requires !li.isActive || li.appliesTo == Absent || (li.appliesTo.Tag? && li.appliesTo.tag != "" && li.appliesTo.tag != context)
    ensures li !in FilterLineItems(items, context)
  {
    FilterSpec(items, [], context);
  }

  // ---------------------------------------------------------------------------
  // Shape of the assembled rows

  lemma BaseRowMatchesNeither(baseRate: real, combinedRate: real)
    ensures !ContainsIgnoreCase(BaseRow(baseRate, combinedRate).caption, FuelPattern)
    ensures !ContainsIgnoreCase(BaseRow(baseRate, combinedRate).caption, GratuityPattern)
  {
    SyntheticLabels();
  }

  /** Prepending the Base Rate row changes no match, since its caption matches neither pattern. */
  lemma ConfiguredMatches(baseRate: real, items: seq<LineItem>, combinedRate: real, pat: string)
    requires pat == FuelPattern || pat == GratuityPattern
    ensures AnyCaptionMatches([BaseRow(baseRate, combinedRate)] + ItemRows(items, baseRate, combinedRate), pat)
            <==> AnyItemMatches(items, pat)
  {
    var rows := [BaseRow(baseRate, combinedRate)] + ItemRows(items, baseRate, combinedRate);
    BaseRowMatchesNeither(baseRate, combinedRate);
    if AnyItemMatches(items, pat) {
      var i :| 0 <= i < |items| && ContainsIgnoreCase(items[i].caption, pat);
      assert rows[i + 1].caption == items[i].caption;
    }
    if AnyCaptionMatches(rows, pat) {
      var i :| 0 <= i < |rows| && ContainsIgnoreCase(rows[i].caption, pat);
      assert i != 0;
      assert rows[i].caption == items[i - 1].caption;
    }
  }

  /** Row 0 is the Base Rate row; the applicable items follow in configured order;
      then a Fuel Surcharge row exactly when no applicable item's label matches
      /fuel/i, a Gratuity row exactly when none matches /gratuity/i, and the GTAA
      fee row exactly when the fee is positive, always last. */
  lemma {:induction false} RowsLayout(baseRate: real, items: seq<LineItem>, context: string, combinedRate: real, fee: real)
    ensures var r := AssembleRows(baseRate, items, context, combinedRate, fee);
            var f := FilterLineItems(items, context);
            var fuelAdded := !AnyItemMatches(f, FuelPattern);
            var gratuityAdded := !AnyItemMatches(f, GratuityPattern);
            var g := 1 + |f| + (if fuelAdded then 1 else 0);
            && |r| == g + (if gratuityAdded then 1 else 0) + (if fee > 0.0 then 1 else 0)
            && r[0] == BaseRow(baseRate, combinedRate)
            && (forall i | 0 <= i < |f| :: r[i + 1] == ItemRow(f[i], baseRate, combinedRate))
            && (fuelAdded ==> r[1 + |f|] == FuelRow(baseRate, combinedRate))
            && (gratuityAdded ==> r[g] == GratuityRow(baseRate))
            && (fee > 0.0 ==> r[|r| - 1] == FeeRow(fee, combinedRate))
  {
    var f := FilterLineItems(items, context);
    var configured := [BaseRow(baseRate, combinedRate)] + ItemRows(f, baseRate, combinedRate);
    var withFuel := EnsureRow(configured, FuelPattern, FuelRow(baseRate, combinedRate));
    ConfiguredMatches(baseRate, f, combinedRate, FuelPattern);
    ConfiguredMatches(baseRate, f, combinedRate, GratuityPattern);
    FuelRowMatchesNoGratuity(configured, baseRate, combinedRate);
  }

  /** Adding the fallback fuel row does not change whether some row matches /gratuity/i. */
  lemma FuelRowMatchesNoGratuity(rows: seq<Row>, baseRate: real, combinedRate: real)
    ensures AnyCaptionMatches(EnsureRow(rows, FuelPattern, FuelRow(baseRate, combinedRate)), GratuityPattern)
            <==> AnyCaptionMatches(rows, GratuityPattern)
  {
    var r := EnsureRow(rows, FuelPattern, FuelRow(baseRate, combinedRate));
    SyntheticLabels();
    if AnyCaptionMatches(r, GratuityPattern) {
      var i :| 0 <= i < |r| && ContainsIgnoreCase(r[i].caption, GratuityPattern);
      assert i < |rows|;
      assert rows[i] == r[i];
    }
    if AnyCaptionMatches(rows, GratuityPattern) {
      var i :| 0 <= i < |rows| && ContainsIgnoreCase(rows[i].caption, GratuityPattern);
      assert r[i] == rows[i];
    }
  }

  lemma EnsureRowGuarantees(rows: seq<Row>, pat: string, fallback: Row)
    requires ContainsIgnoreCase(fallback.caption, pat)
    ensures AnyCaptionMatches(EnsureRow(rows, pat, fallback), pat)
    ensures forall i | 0 <= i < |rows| :: EnsureRow(rows, pat, fallback)[i] == rows[i]
  {
    if !AnyCaptionMatches(rows, pat) {
      var r := rows + [fallback];
      assert ContainsIgnoreCase(r[|rows|].caption, pat);
    }
  }

  /** Whatever is configured, the rows always contain a label matching /fuel/i and
      one matching /gratuity/i. */
  lemma RowsAlwaysHaveFuelAndGratuity(baseRate: real, items: seq<LineItem>, context: string, combinedRate: real, fee: real)
    ensures AnyCaptionMatches(AssembleRows(baseRate, items, context, combinedRate, fee), FuelPattern)
    ensures AnyCaptionMatches(AssembleRows(baseRate, items, context, combinedRate, fee), GratuityPattern)
  {
    var configured := [BaseRow(baseRate, combinedRate)] + ItemRows(FilterLineItems(items, context), baseRate, combinedRate);
    var withFuel := EnsureRow(configured, FuelPattern, FuelRow(baseRate, combinedRate));
    var withGratuity := EnsureRow(withFuel, GratuityPattern, GratuityRow(baseRate));
    SyntheticLabels();
    EnsureRowGuarantees(configured, FuelPattern, FuelRow(baseRate, combinedRate));
    EnsureRowGuarantees(withFuel, GratuityPattern, GratuityRow(baseRate));
    var r := AssembleRows(baseRate, items, context, combinedRate, fee);
    assert forall i | 0 <= i < |withGratuity| :: r[i] == withGratuity[i];
    var i :| 0 <= i < |withFuel| && ContainsIgnoreCase(withFuel[i].caption, FuelPattern);
    assert r[i] == withFuel[i];
    var j :| 0 <= j < |withGratuity| && ContainsIgnoreCase(withGratuity[j].caption, GratuityPattern);
    assert r[j] == withGratuity[j];
  }

  /** When no applicable item's label matches /gratuity/i, exactly one row is labelled
      `Gratuity`, whatever else is configured: the synthetic, untaxed 20% row. */
  lemma ExactlyOneGratuityRow(baseRate: real, items: seq<LineItem>, context: string, combinedRate: real, fee: real)
    requires !AnyItemMatches(FilterLineItems(items, context), GratuityPattern)
    ensures var r := AssembleRows(baseRate, items, context, combinedRate, fee);
            && (exists k | 0 <= k < |r| :: r[k] == GratuityRow(baseRate))
            && (forall i, j | 0 <= i < |r| && 0 <= j < |r| ::
                  r[i].caption == GratuityCaption && r[j].caption == GratuityCaption ==> i == j)
  {
    var r := AssembleRows(baseRate, items, context, combinedRate, fee);
    var f := FilterLineItems(items, context);
    RowsLayout(baseRate, items, context, combinedRate, fee);
    var fuelAdded := !AnyItemMatches(f, FuelPattern);
    var g := 1 + |f| + (if fuelAdded then 1 else 0);
    SyntheticLabels();
    assert r[g] == GratuityRow(baseRate);
    forall i | 0 <= i < |r| && r[i].caption == GratuityCaption
      ensures i == g
    {
    }
  }

  /** A GTAA Fee row is present exactly when the fee is positive, then it is last; a
      zero fee (or the clamped result of a negative one) produces none. */
  lemma FeeRowExactlyWhenPositive(baseRate: real, items: seq<LineItem>, context: string, combinedRate: real, fee: real)
    ensures var r := AssembleRows(baseRate, items, context, combinedRate, fee);
            (exists i | 0 <= i < |r| :: r[i].source == None && r[i].caption == FeeCaption) <==> fee > 0.0
    ensures var r := AssembleRows(baseRate, items, context, combinedRate, fee);
            fee > 0.0 ==> r[|r| - 1] == FeeRow(fee, combinedRate)
  {
    var r := AssembleRows(baseRate, items, context, combinedRate, fee);
    var f := FilterLineItems(items, context);
    RowsLayout(baseRate, items, context, combinedRate, fee);
    if fee > 0.0 {
      assert r[|r| - 1].caption == FeeCaption;
    } else {
      assert forall i | 0 <= i < |r| && r[i].source == None :: r[i].caption != FeeCaption;
    }
  }

  /** Every row of the assembled list is taxed consistently with its taxable flag. */
  lemma RowsTaxedConsistently(baseRate: real, items: seq<LineItem>, context: string, combinedRate: real, fee: real)
    ensures TaxedConsistently(AssembleRows(baseRate, items, context, combinedRate, fee), combinedRate)
  {
    var r := AssembleRows(baseRate, items, context, combinedRate, fee);
    var f := FilterLineItems(items, context);
    RowsLayout(baseRate, items, context, combinedRate, fee);
    var fuelAdded := !AnyItemMatches(f, FuelPattern);
    var g := 1 + |f| + (if fuelAdded then 1 else 0);
    forall i | 0 <= i < |r|
      ensures r[i].tax == (if r[i].taxable then TaxAt(r[i].preTax, combinedRate) else 0.0)
    {
      if 1 <= i < 1 + |f| {
        assert r[i] == ItemRow(f[i - 1], baseRate, combinedRate);
      }
    }
  }

  /** A configured item's row is in cents. */
  lemma ItemRowInCents(li: LineItem, baseRate: real, combinedRate: real)
    ensures AllInCents([ItemRow(li, baseRate, combinedRate)])
  {
    Round2InCents(0.0);
    var r := ItemRow(li, baseRate, combinedRate);
    assert [r][0] == r;
  }

  /** The synthetic rows are in cents when the base rate is. */
  lemma SyntheticRowsInCents(baseRate: real, combinedRate: real, fee: real)
    requires IsRounded(baseRate, 2)
    ensures AllInCents([BaseRow(baseRate, combinedRate)])
    ensures AllInCents([FuelRow(baseRate, combinedRate)])
    ensures AllInCents([GratuityRow(baseRate)])
    ensures AllInCents([FeeRow(fee, combinedRate)])
  {
    Round2InCents(baseRate * 0.08);
    Round2InCents(baseRate * 0.2);
    Round2InCents(fee);
  }

  /** A fallback step keeps every row in cents when the fallback row is. */
  lemma EnsureRowInCents(rows: seq<Row>, pat: string, fallback: Row)
    requires AllInCents(rows) && AllInCents([fallback])
    ensures AllInCents(EnsureRow(rows, pat, fallback))
  {
    assert [fallback][0] == fallback;
  }

  /** With a base rate in cents, every pre-tax amount and every tax of the assembled
      rows is in cents, since each is the base rate or a result of `round`. */
  lemma RowsInCents(baseRate: real, items: seq<LineItem>, context: string, combinedRate: real, fee: real)
    requires IsRounded(baseRate, 2)
    ensures AllInCents(AssembleRows(baseRate, items, context, combinedRate, fee))
  {
    var f := FilterLineItems(items, context);
    SyntheticRowsInCents(baseRate, combinedRate, fee);
    var base := BaseRow(baseRate, combinedRate);
    assert [base][0] == base;
    var itemRows := ItemRows(f, baseRate, combinedRate);
    forall i | 0 <= i < |itemRows|
      ensures IsRounded(itemRows[i].preTax, 2) && IsRounded(itemRows[i].tax, 2)
    {
      ItemRowInCents(f[i], baseRate, combinedRate);
      assert [ItemRow(f[i], baseRate, combinedRate)][0] == itemRows[i];
    }
    var configured := [base] + itemRows;
    assert AllInCents(configured);
    var fuel := FuelRow(baseRate, combinedRate);
    EnsureRowInCents(configured, FuelPattern, fuel);
    var withFuel := EnsureRow(configured, FuelPattern, fuel);
    var gratuity := GratuityRow(baseRate);
    EnsureRowInCents(withFuel, GratuityPattern, gratuity);
    var withGratuity := EnsureRow(withFuel, GratuityPattern, gratuity);
    if fee > 0.0 {
      var feeRow := FeeRow(fee, combinedRate);
      assert [feeRow][0] == feeRow;
      assert AllInCents(withGratuity + [feeRow]);
    }
  }
}
