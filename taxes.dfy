/** Sales-tax selection and combination: every active tax is kept, and their
    percentages are added into one combined rate applied once per taxable row. */
module Taxes {
  import opened Schema

  /** A tax counts when its `is_active` flag is truthy. */
  predicate IsActive(t: SalesTax)
  {
    IsTrue(t.isActive)
  }

  /** `activeTaxes`: the active taxes, in their configured order. */
  function ActiveTaxes(taxes: seq<SalesTax>): seq<SalesTax>
  {
    if taxes == [] then []
    else (if IsActive(taxes[0]) then [taxes[0]] else []) + ActiveTaxes(taxes[1..])
  }

  /** Sum of the rates of a list of taxes. */
  function SumRates(ts: seq<SalesTax>): real
  {
    if ts == [] then 0.0 else ts[0].amount + SumRates(ts[1..])
  }

  /** `combinedTaxRate`: the plain sum of the active rates, in percent. */
  function CombinedTaxRate(taxes: seq<SalesTax>): real
  {
    SumRates(ActiveTaxes(taxes))
  }

  /** Reference definition: every tax contributes its rate when active and nothing otherwise. */
  function RateWhereActive(taxes: seq<SalesTax>): real
  {
    if taxes == [] then 0.0
    else (if IsActive(taxes[0]) then taxes[0].amount else 0.0) + RateWhereActive(taxes[1..])
  }

  /** The active taxes are exactly the active members of the list, and filtering a
      concatenation filters each part in turn, so the configured order is kept. */
  lemma {:induction false} ActiveTaxesSpec(a: seq<SalesTax>, b: seq<SalesTax>)
    ensures forall t :: t in ActiveTaxes(a) <==> t in a && IsActive(t)
    ensures |ActiveTaxes(a)| <= |a|
    ensures ActiveTaxes(a + b) == ActiveTaxes(a) + ActiveTaxes(b)
  {
    if a == [] {
      assert a + b == b;
    } else {
      ActiveTaxesSpec(a[1..], b);
      assert (a + b)[0] == a[0];
      assert (a + b)[1..] == a[1..] + b;
    }
  }

  /** The combined rate adds up the active rates and ignores the inactive ones. */
  lemma {:induction false} CombinedIsSumOfActiveRates(taxes: seq<SalesTax>)
    ensures CombinedTaxRate(taxes) == RateWhereActive(taxes)
  {
    if taxes != [] {
      CombinedIsSumOfActiveRates(taxes[1..]);
      if IsActive(taxes[0]) {
        assert ActiveTaxes(taxes) == [taxes[0]] + ActiveTaxes(taxes[1..]);
        assert ([taxes[0]] + ActiveTaxes(taxes[1..]))[1..] == ActiveTaxes(taxes[1..]);
      } else {
        assert ActiveTaxes(taxes) == ActiveTaxes(taxes[1..]);
      }
    }
  }

  lemma {:induction false} SumRatesAppend(a: seq<SalesTax>, b: seq<SalesTax>)
    ensures SumRates(a + b) == SumRates(a) + SumRates(b)
  {
    if a == [] {
      assert a + b == b;
    } else {
      SumRatesAppend(a[1..], b);
      assert (a + b)[0] == a[0];
      assert (a + b)[1..] == a[1..] + b;
    }
  }

  /** Rates are added, not compounded: the combined rate of two tax lists together
      is the sum of their combined rates. */
  lemma CombinedRateAdds(a: seq<SalesTax>, b: seq<SalesTax>)
    ensures CombinedTaxRate(a + b) == CombinedTaxRate(a) + CombinedTaxRate(b)
  {
    ActiveTaxesSpec(a, b);
    SumRatesAppend(ActiveTaxes(a), ActiveTaxes(b));
  }

  /** With non-negative rates the combined rate is non-negative. */
  lemma {:induction false} CombinedRateNonNegative(taxes: seq<SalesTax>)
    requires forall t | t in taxes :: t.amount >= 0.0
    ensures CombinedTaxRate(taxes) >= 0.0
  {
    CombinedIsSumOfActiveRates(taxes);
    NonNegativeRatesSum(taxes);
  }

  lemma {:induction false} NonNegativeRatesSum(taxes: seq<SalesTax>)
    requires forall t | t in taxes :: t.amount >= 0.0
    ensures RateWhereActive(taxes) >= 0.0
  {
    if taxes != [] {
      assert taxes[0] in taxes;
      NonNegativeRatesSum(taxes[1..]);
    }
  }

  /** Two active taxes of 5% and 8% and an inactive one of 7% combine to 13%. */
  lemma FivePlusEight()
    ensures CombinedTaxRate([SalesTax("GST", 5.0, Some(true)), SalesTax("PST", 8.0, Some(true)),
                             SalesTax("Old", 7.0, Some(false))]) == 13.0
  {
    var ts := [SalesTax("GST", 5.0, Some(true)), SalesTax("PST", 8.0, Some(true)), SalesTax("Old", 7.0, Some(false))];
    CombinedIsSumOfActiveRates(ts);
    assert ts[1..][1..][1..] == [];
  }
}
