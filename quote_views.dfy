/** Aggregation of the priced rows into totals (`subTotal`, `taxTotal`,
    `totalAmount`) and the two legacy row views handed to quote persistence:
    `detailedLineItems` and `detailedLineItemsWithTotals`. */
module QuoteViews {
  import opened Schema
  import opened Rounding
  import opened Taxes
  import opened Rows

  /** `subTotal`: the sum of every row's pre-tax amount. */
  function SubTotal(rows: seq<Row>): real
  {
    if rows == [] then 0.0 else rows[0].preTax + SubTotal(rows[1..])
  }

  /** `taxTotal`: the sum of every row's tax. */
  function TaxTotal(rows: seq<Row>): real
  {
    if rows == [] then 0.0 else rows[0].tax + TaxTotal(rows[1..])
  }

  /** `totalAmount`: sub-total plus tax total, not rounded inside the engine. */
  function TotalAmount(rows: seq<Row>): real
  {
    SubTotal(rows) + TaxTotal(rows)
  }

  /** Sum of the pre-tax amounts of the taxable rows only. */
  function TaxableBase(rows: seq<Row>): real
  {
    if rows == [] then 0.0 else (if rows[0].taxable then rows[0].preTax else 0.0) + TaxableBase(rows[1..])
  }

  /** The three figures `updateLineItemsTotal` returns. */
  datatype Totals = Totals(subTotal: real, taxTotal: real, total: real)

  function TotalsOf(rows: seq<Row>): Totals
  {
    Totals(SubTotal(rows), TaxTotal(rows), TotalAmount(rows))
  }

  /** One `(label, tax, total)` entry of the legacy views. */
  datatype Entry = Entry(caption: string, tax: real, total: real)

  function EntryOf(r: Row): Entry
  {
    Entry(r.caption, Round2(r.tax), Round2(r.preTax))
  }

  /** `detailedLineItems`: one entry per row, or null when there are no rows. */
  function DetailedLineItems(rows: seq<Row>): Option<seq<Entry>>
  {
    if |rows| == 0 then None
    else Some(seq(|rows|, i requires 0 <= i < |rows| => EntryOf(rows[i])))
  }

  /** Share of one tax in the combined rate; zero when the combined rate is zero
      (the engine's `rate / combined || 0`, whose infinite or undefined quotient
      is then multiplied by a zero tax total and rounded to 0). */
  function Portion(rate: real, combinedRate: real): real
  {
    if combinedRate == 0.0 then 0.0 else rate / combinedRate
  }

  /** The entry reporting one active tax's share of the tax total. */
  function TaxEntry(t: SalesTax, combinedRate: real, taxTotal: real): (e: Entry)
    ensures e.caption == t.taxName && e.total == e.tax
    ensures -0.005 <= e.tax - taxTotal * Portion(t.amount, combinedRate) <= 0.005
  {
    Round2Error(taxTotal * Portion(t.amount, combinedRate));
    var amount := Round2(taxTotal * Portion(t.amount, combinedRate));
    Entry(t.taxName, amount, amount)
  }

  function TaxEntries(active: seq<SalesTax>, combinedRate: real, taxTotal: real): seq<Entry>
  {
    seq(|active|, i requires 0 <= i < |active| => TaxEntry(active[i], combinedRate, taxTotal))
  }

  function TotalTaxEntry(rows: seq<Row>): Entry
  {
    Entry("Total Tax", Round2(TaxTotal(rows)), Round2(TaxTotal(rows)))
  }

  function TotalEntry(rows: seq<Row>): Entry
  {
    Entry("Total", Round2(TaxTotal(rows)), Round2(TotalAmount(rows)))
  }

  /** `detailedLineItemsWithTotals`: the row entries, one entry per active tax, a
      `Total Tax` entry when more than one tax is active, and a final `Total` entry. */
  function DetailedWithTotals(rows: seq<Row>, taxes: seq<SalesTax>): Option<seq<Entry>>
  {
    match DetailedLineItems(rows)
    case None => None
    case Some(entries) =>
      var active := ActiveTaxes(taxes);
      Some(entries + TaxEntries(active, CombinedTaxRate(taxes), TaxTotal(rows))
           + (if |active| > 1 then [TotalTaxEntry(rows)] else [])
           + [TotalEntry(rows)])
  }

  /** Sum of the amounts reported per tax. */
  function SumEntryTaxes(es: seq<Entry>): real
  {
    if es == [] then 0.0 else es[0].tax + SumEntryTaxes(es[1..])
  }

  // ---------------------------------------------------------------------------
  // Totals

  /** Sub-total and tax total of a concatenation are the sums over its parts. */
  lemma {:induction false} TotalsAppend(a: seq<Row>, b: seq<Row>)
    ensures SubTotal(a + b) == SubTotal(a) + SubTotal(b)
    ensures TaxTotal(a + b) == TaxTotal(a) + TaxTotal(b)
    ensures TaxableBase(a + b) == TaxableBase(a) + TaxableBase(b)
  {
    if a == [] {
      assert a + b == b;
    } else {
      TotalsAppend(a[1..], b);
      assert (a + b)[0] == a[0];
      assert (a + b)[1..] == a[1..] + b;
    }
  }

  /** A row's tax at the combined rate, before rounding. */
  function RowExactTax(r: Row, combinedRate: real): real
  {
    if r.taxable then r.preTax * (combinedRate / 100.0) else 0.0
  }

  /** Tax on the taxable rows at the combined rate, computed row by row without
      rounding. */
  function ExactTax(rows: seq<Row>, combinedRate: real): real
  {
    if rows == [] then 0.0 else RowExactTax(rows[0], combinedRate) + ExactTax(rows[1..], combinedRate)
  }

  /** Unrounded, the row-by-row tax is the combined rate applied once to the sum of
      the taxable amounts. */
  lemma {:induction false} ExactTaxIsRateOnTaxableBase(rows: seq<Row>, combinedRate: real)
    ensures ExactTax(rows, combinedRate) == TaxableBase(rows) * (combinedRate / 100.0)
  {
    if rows != [] {
      ExactTaxIsRateOnTaxableBase(rows[1..], combinedRate);
      Distribute(if rows[0].taxable then rows[0].preTax else 0.0, TaxableBase(rows[1..]), combinedRate / 100.0);
    }
  }

  lemma Distribute(a: real, b: real, k: real)
    ensures (a + b) * k == a * k + b * k
  {
  }

  /** Every consistently taxed row's tax is within half a cent of its exact tax. */
  lemma RowsNearExact(rows: seq<Row>, combinedRate: real)
    requires TaxedConsistently(rows, combinedRate)
    ensures forall i | 0 <= i < |rows| :: -0.005 <= rows[i].tax - RowExactTax(rows[i], combinedRate) <= 0.005
  {
    forall i | 0 <= i < |rows|
      ensures -0.005 <= rows[i].tax - RowExactTax(rows[i], combinedRate) <= 0.005
    {
      var _ := TaxAt(rows[i].preTax, combinedRate);
    }
  }

  /** Rows whose taxes are each within half a cent of exact have a tax total within
      half a cent per row of the exact total. */
  lemma {:induction false} SumNearExact(rows: seq<Row>, combinedRate: real)
    requires forall i | 0 <= i < |rows| :: -0.005 <= rows[i].tax - RowExactTax(rows[i], combinedRate) <= 0.005
    ensures -0.005 * |rows| as real <= TaxTotal(rows) - ExactTax(rows, combinedRate) <= 0.005 * |rows| as real
  {
    if rows != [] {
      assert forall i | 0 <= i < |rows[1..]| :: rows[1..][i] == rows[i + 1];
      SumNearExact(rows[1..], combinedRate);
      assert -0.005 <= rows[0].tax - RowExactTax(rows[0], combinedRate) <= 0.005;
    }
  }

  /** The tax total differs from the combined rate applied once to the taxable
      amounts by no more than half a cent per row (each row's tax is rounded on its
      own; nothing is compounded). */
  lemma TaxTotalNearCombinedRate(rows: seq<Row>, combinedRate: real)
    requires TaxedConsistently(rows, combinedRate)
    ensures -0.005 * |rows| as real <= TaxTotal(rows) - TaxableBase(rows) * (combinedRate / 100.0)
                                    <= 0.005 * |rows| as real
  {
    RowsNearExact(rows, combinedRate);
    SumNearExact(rows, combinedRate);
    ExactTaxIsRateOnTaxableBase(rows, combinedRate);
  }

  /** With no active tax rate, no row carries tax and the tax total is zero. */
  lemma {:induction false} ZeroRateNoTax(rows: seq<Row>)
    requires TaxedConsistently(rows, 0.0)
    ensures TaxTotal(rows) == 0.0
    ensures TotalAmount(rows) == SubTotal(rows)
  {
    if rows != [] {
      assert rows[0].tax == 0.0 by {
        assert rows[0].tax == (if rows[0].taxable then TaxAt(rows[0].preTax, 0.0) else 0.0);
        RoundZero(2);
      }
      assert TaxedConsistently(rows[1..], 0.0) by {
        forall i | 0 <= i < |rows[1..]|
          ensures rows[1..][i].tax == (if rows[1..][i].taxable then TaxAt(rows[1..][i].preTax, 0.0) else 0.0)
        {
          assert rows[1..][i] == rows[i + 1];
        }
      }
      ZeroRateNoTax(rows[1..]);
    }
  }

  /** With non-negative amounts everywhere, neither total is negative. */
  lemma {:induction false} TotalsNonNegative(rows: seq<Row>)
    requires forall i | 0 <= i < |rows| :: rows[i].preTax >= 0.0 && rows[i].tax >= 0.0
    ensures SubTotal(rows) >= 0.0 && TaxTotal(rows) >= 0.0 && TotalAmount(rows) >= SubTotal(rows)
  {
    if rows != [] {
      assert forall i | 0 <= i < |rows[1..]| :: rows[1..][i] == rows[i + 1];
      TotalsNonNegative(rows[1..]);
    }
  }

  // ---------------------------------------------------------------------------
  // Views

  /** The minimal view mirrors the rows one for one; when every row amount is
      already in cents (as the engine's rows are, see `RowsInCents`) it reports them
      unchanged. */
  lemma DetailedMirrorsRows(rows: seq<Row>)
    requires |rows| > 0
    requires AllInCents(rows)
    ensures DetailedLineItems(rows).Some?
    ensures |DetailedLineItems(rows).value| == |rows|
    ensures forall i | 0 <= i < |rows| ::
      DetailedLineItems(rows).value[i] == Entry(rows[i].caption, rows[i].tax, rows[i].preTax)
  {
  }

  /** The extended view holds the row entries, one entry per active tax (its share
      of the tax total in both amounts, zero when the combined rate is zero), a `Total Tax` entry only when more than one tax is
      active, and last a `Total` entry with the rounded tax total and grand total. */
  lemma WithTotalsLayout(rows: seq<Row>, taxes: seq<SalesTax>)
    requires |rows| > 0
    ensures var v := DetailedWithTotals(rows, taxes);
            var active := ActiveTaxes(taxes);
            && v.Some?
            && |v.value| == |rows| + |active| + (if |active| > 1 then 1 else 0) + 1
            && (forall i | 0 <= i < |rows| :: v.value[i] == EntryOf(rows[i]))
            && (forall i | 0 <= i < |active| ::
                  v.value[|rows| + i] == TaxEntry(active[i], CombinedTaxRate(taxes), TaxTotal(rows))
                  && v.value[|rows| + i].caption == active[i].taxName
                  && v.value[|rows| + i].total == v.value[|rows| + i].tax
                  && (CombinedTaxRate(taxes) == 0.0 ==> v.value[|rows| + i].tax == 0.0))
            && (|active| > 1 ==> v.value[|rows| + |active|] == Entry("Total Tax", Round2(TaxTotal(rows)), Round2(TaxTotal(rows))))
            && v.value[|v.value| - 1] == Entry("Total", Round2(TaxTotal(rows)), Round2(TotalAmount(rows)))
  {
    var active := ActiveTaxes(taxes);
    var v := DetailedWithTotals(rows, taxes);
    var es := TaxEntries(active, CombinedTaxRate(taxes), TaxTotal(rows));
    if CombinedTaxRate(taxes) == 0.0 {
      RoundZero(2);
      assert forall i | 0 <= i < |active| :: es[i].tax == 0.0;
    }
  }

  /** Exact shares of the tax total, one per tax, added up. */
  function ExactShares(active: seq<SalesTax>, combinedRate: real, taxTotal: real): real
  {
    if active == [] then 0.0
    else taxTotal * Portion(active[0].amount, combinedRate) + ExactShares(active[1..], combinedRate, taxTotal)
  }

  /** The exact shares add up to the tax total scaled by the active rates' share of
      the combined rate. */
  lemma {:induction false} ExactSharesSum(active: seq<SalesTax>, combinedRate: real, taxTotal: real)
    requires combinedRate != 0.0
    ensures ExactShares(active, combinedRate, taxTotal) == taxTotal * (SumRates(active) / combinedRate)
  {
    if active != [] {
      ExactSharesSum(active[1..], combinedRate, taxTotal);
      var a0 := active[0].amount;
      var rest := SumRates(active[1..]);
      assert (a0 + rest) / combinedRate == a0 / combinedRate + rest / combinedRate;
      Distribute(a0 / combinedRate, rest / combinedRate, taxTotal);
    }
  }

  /** Rounded shares add up to the exact shares within half a cent per tax. */
  lemma {:induction false} SharesNearExact(active: seq<SalesTax>, combinedRate: real, taxTotal: real)
    ensures var es := TaxEntries(active, combinedRate, taxTotal);
      -0.005 * |active| as real <= SumEntryTaxes(es) - ExactShares(active, combinedRate, taxTotal)
                                <= 0.005 * |active| as real
  {
    var es := TaxEntries(active, combinedRate, taxTotal);
    if active != [] {
      assert es[1..] == TaxEntries(active[1..], combinedRate, taxTotal);
      SharesNearExact(active[1..], combinedRate, taxTotal);
      assert es[0] == TaxEntry(active[0], combinedRate, taxTotal);
    }
  }

  /** The whole of the combined rate is the whole of the total. */
  lemma WholeShare(total: real, rates: real, combinedRate: real)
    requires rates == combinedRate && combinedRate != 0.0
    ensures total * (rates / combinedRate) == total
  {
    assert rates / combinedRate == 1.0;
  }

  /** The per-tax entries reconstruct the tax total in proportion to each active rate:
      when the combined rate is not zero, they add up to the tax total within half a
      cent per active tax. */
  lemma PerTaxSharesAddUp(rows: seq<Row>, taxes: seq<SalesTax>)
    requires CombinedTaxRate(taxes) != 0.0
    ensures var es := TaxEntries(ActiveTaxes(taxes), CombinedTaxRate(taxes), TaxTotal(rows));
            -0.005 * |es| as real <= SumEntryTaxes(es) - TaxTotal(rows) <= 0.005 * |es| as real
  {
    var c := CombinedTaxRate(taxes);
    SharesNearExact(ActiveTaxes(taxes), c, TaxTotal(rows));
    ExactSharesSum(ActiveTaxes(taxes), c, TaxTotal(rows));
    WholeShare(TaxTotal(rows), SumRates(ActiveTaxes(taxes)), c);
  }
}
