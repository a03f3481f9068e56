/** The base-rate strategies of the pricing engine: the charge for the trip
    itself, before configured items, fallbacks, fees and taxes. */
module BaseRates {
  import opened Schema
  import opened Rounding

  datatype PricingMode = Hourly | Distance

  function Max(a: real, b: real): real
  {
    if a >= b then a else b
  }

  /** `pricingMode`: HOURLY exactly when the service's hourly flag is truthy. */
  function ModeOf(s: Service): PricingMode
  {
    if IsTrue(s.isHourly) then Hourly else Distance
  }

  /** Hours billed at the least: the vehicle's minimum, itself floored at 2. */
  function MinimumHours(v: Vehicle): real
  {
    Max(2.0, OrZero(v.minHours))
  }

  /** Kilometres included in the distance baseline: the vehicle's minimum, floored at 25. */
  function BaselineKm(v: Vehicle): real
  {
    Max(25.0, OrZero(v.minDistance))
  }

  /** Charge for the baseline distance: the larger of the baseline kilometres at the
      per-km rate and one hour at the per-hour rate. */
  function BaselineCharge(v: Vehicle): real
  {
    Max(OrZero(v.perKm) * BaselineKm(v), OrZero(v.perHour) * 1.0)
  }

  /** Hours billed: the requested hours, but never fewer than the minimum. */
  function BillableHours(hours: real, v: Vehicle): real
  {
    Max(hours, MinimumHours(v))
  }

  /** Kilometres beyond the baseline distance. */
  function OverageKm(distanceKm: real, v: Vehicle): real
  {
    Max(0.0, distanceKm - BaselineKm(v))
  }

  /** HOURLY strategy before rounding. */
  function HourlyCharge(hours: real, v: Vehicle): real
  {
    BillableHours(hours, v) * OrZero(v.perHour)
  }

  /** DISTANCE strategy before rounding. */
  function DistanceCharge(distanceKm: real, v: Vehicle): real
  {
    BaselineCharge(v) + OverageKm(distanceKm, v) * OrZero(v.perKm)
  }

  /** HOURLY strategy. */
  function HourlyRate(hours: real, v: Vehicle): real
  {
    Round2(HourlyCharge(hours, v))
  }

  /** DISTANCE strategy. */
  function DistanceRate(distanceKm: real, v: Vehicle): real
  {
    Round2(DistanceCharge(distanceKm, v))
  }

  /** `baseRate`: the strategy the service's mode selects, applied to the current
      distance and hours. */
  function BaseRate(s: Service, v: Vehicle, hours: real, distanceKm: real): real
  {
    match ModeOf(s)
    case Hourly => HourlyRate(hours, v)
    case Distance => DistanceRate(distanceKm, v)
  }

  /** A rate card whose rates are all non-negative. */
  predicate NonNegativeRates(v: Vehicle)
  {
    OrZero(v.perKm) >= 0.0 && OrZero(v.perHour) >= 0.0
  }

  /** The mode is HOURLY exactly when `is_hourly` is truthy, DISTANCE otherwise,
      and the base rate is the matching strategy's charge. */
  lemma ModeSelectsStrategy(s: Service, v: Vehicle, hours: real, distanceKm: real)
    ensures ModeOf(s) == Hourly <==> s.isHourly == Some(true)
    ensures ModeOf(s) == Distance <==> s.isHourly != Some(true)
    ensures s.isHourly == Some(true) ==> BaseRate(s, v, hours, distanceKm) == HourlyRate(hours, v)
    ensures s.isHourly != Some(true) ==> BaseRate(s, v, hours, distanceKm) == DistanceRate(distanceKm, v)
  {
  }

  /** Every base rate is a whole number of cents. */
  lemma BaseRateInCents(s: Service, v: Vehicle, hours: real, distanceKm: real)
    ensures IsRounded(BaseRate(s, v, hours, distanceKm), 2)
  {
    match ModeOf(s)
    case Hourly => RoundIdempotent(HourlyCharge(hours, v), 2);
    case Distance => RoundIdempotent(DistanceCharge(distanceKm, v), 2);
  }

  /** HOURLY bills `max(hours, max(2, min_hours))` hours at the per-hour rate: hours
      at or below the minimum are billed as the minimum, hours above it as requested. */
  lemma HourlyBillsAtLeastMinimum(hours: real, v: Vehicle)
    ensures MinimumHours(v) >= 2.0 && MinimumHours(v) >= OrZero(v.minHours)
    ensures hours <= MinimumHours(v) ==> HourlyRate(hours, v) == Round2(MinimumHours(v) * OrZero(v.perHour))
    ensures hours >= MinimumHours(v) ==> HourlyRate(hours, v) == Round2(hours * OrZero(v.perHour))
  {
    if hours <= MinimumHours(v) {
      RoundEqual(HourlyCharge(hours, v), MinimumHours(v) * OrZero(v.perHour), 2);
    }
    if hours >= MinimumHours(v) {
      RoundEqual(HourlyCharge(hours, v), hours * OrZero(v.perHour), 2);
    }
  }

  /** With a non-negative hourly rate, an hourly charge never falls below two hours'
      worth and never decreases as the requested hours grow. */
  lemma HourlyFloorAndMonotone(h1: real, h2: real, v: Vehicle)
    requires OrZero(v.perHour) >= 0.0
    requires h1 <= h2
    ensures HourlyRate(h1, v) >= Round2(2.0 * OrZero(v.perHour))
    ensures HourlyRate(h1, v) <= HourlyRate(h2, v)
  {
    HourlyChargeBounds(h1, h2, v);
    RoundMonotone(2.0 * OrZero(v.perHour), HourlyCharge(h1, v), 2);
    RoundMonotone(HourlyCharge(h1, v), HourlyCharge(h2, v), 2);
  }

  lemma HourlyChargeBounds(h1: real, h2: real, v: Vehicle)
    requires OrZero(v.perHour) >= 0.0
    requires h1 <= h2
    ensures 2.0 * OrZero(v.perHour) <= HourlyCharge(h1, v) <= HourlyCharge(h2, v)
  {
    var rate := OrZero(v.perHour);
    var b1 := BillableHours(h1, v);
    var b2 := BillableHours(h2, v);
    assert 2.0 <= b1 <= b2;
    MulMono(2.0, b1, rate);
    MulMono(b1, b2, rate);
  }

  /** DISTANCE charges the baseline alone up to the baseline distance, and the
      baseline plus per-km overage beyond it. */
  lemma DistanceBaselineAndOverage(distanceKm: real, v: Vehicle)
    ensures BaselineKm(v) >= 25.0 && BaselineKm(v) >= OrZero(v.minDistance)
    ensures BaselineCharge(v) >= OrZero(v.perKm) * BaselineKm(v) && BaselineCharge(v) >= OrZero(v.perHour)
    ensures distanceKm <= BaselineKm(v) ==> DistanceRate(distanceKm, v) == Round2(BaselineCharge(v))
    ensures distanceKm >= BaselineKm(v) ==>
      DistanceRate(distanceKm, v) == Round2(BaselineCharge(v) + (distanceKm - BaselineKm(v)) * OrZero(v.perKm))
  {
    if distanceKm <= BaselineKm(v) {
      RoundEqual(DistanceCharge(distanceKm, v), BaselineCharge(v), 2);
    }
    if distanceKm >= BaselineKm(v) {
      RoundEqual(DistanceCharge(distanceKm, v), BaselineCharge(v) + (distanceKm - BaselineKm(v)) * OrZero(v.perKm), 2);
    }
  }

  /** With a non-negative per-km rate, a distance charge never decreases as the
      distance grows, and never falls below the baseline charge. */
  lemma DistanceFloorAndMonotone(d1: real, d2: real, v: Vehicle)
    requires OrZero(v.perKm) >= 0.0
    requires d1 <= d2
    ensures DistanceRate(d1, v) >= Round2(BaselineCharge(v))
    ensures DistanceRate(d1, v) <= DistanceRate(d2, v)
  {
    DistanceChargeBounds(d1, d2, v);
    RoundMonotone(BaselineCharge(v), DistanceCharge(d1, v), 2);
    RoundMonotone(DistanceCharge(d1, v), DistanceCharge(d2, v), 2);
  }

  lemma DistanceChargeBounds(d1: real, d2: real, v: Vehicle)
    requires OrZero(v.perKm) >= 0.0
    requires d1 <= d2
    ensures BaselineCharge(v) <= DistanceCharge(d1, v) <= DistanceCharge(d2, v)
  {
    var k := OrZero(v.perKm);
    var o1 := OverageKm(d1, v);
    var o2 := OverageKm(d2, v);
    assert 0.0 <= o1 <= o2;
    MulMono(0.0, o1, k);
    MulMono(o1, o2, k);
  }

  /** With non-negative rates no base rate is negative. */
  lemma BaseRateNonNegative(s: Service, v: Vehicle, hours: real, distanceKm: real)
    requires NonNegativeRates(v)
    ensures BaseRate(s, v, hours, distanceKm) >= 0.0
  {
    var rate := OrZero(v.perHour);
    var k := OrZero(v.perKm);
    MulMono(0.0, BillableHours(hours, v), rate);
    RoundSign(HourlyCharge(hours, v), 2);
    MulMono(0.0, BaselineKm(v), k);
    MulMono(0.0, OverageKm(distanceKm, v), k);
    RoundSign(DistanceCharge(distanceKm, v), 2);
  }

  /** The minimum flat rate on the rate card plays no part in any base rate. */
  lemma MinRateUnused(s: Service, v: Vehicle, hours: real, distanceKm: real, otherMinRate: Option<real>)
    ensures BaseRate(s, v, hours, distanceKm) == BaseRate(s, v.(minRate := otherMinRate), hours, distanceKm)
  {
    var w := v.(minRate := otherMinRate);
    assert HourlyCharge(hours, v) == HourlyCharge(hours, w);
    assert DistanceCharge(distanceKm, v) == DistanceCharge(distanceKm, w);
  }

  /** The Executive Sedan of the sample catalogue. */
  const ExecutiveSedan: Vehicle :=
    Vehicle("Executive Sedan", Some(3.0), Some(3.0), Some(1.7), Some(85.0), Some(2.0), Some(25.0), Some(170.0))

  /** The Premium SUV of the sample catalogue. */
  const PremiumSuv: Vehicle :=
    Vehicle("Premium SUV", Some(5.0), Some(5.0), Some(2.1), Some(110.0), Some(2.0), Some(25.0), Some(220.0))

  /** Premium SUV, 40 km: baseline max(25 * 2.1, 110) = 110 plus 15 km at 2.1. */
  lemma PremiumSuvFortyKm()
    ensures DistanceRate(40.0, PremiumSuv) == 141.5
  {
    assert BaselineCharge(PremiumSuv) == 110.0;
    assert Units(141.5, Pow10(2)) == 14150;
  }

  /** Executive Sedan, one hour requested: billed as two hours at 85. */
  lemma ExecutiveSedanOneHour()
    ensures HourlyRate(1.0, ExecutiveSedan) == 170.0
  {
    assert Units(170.0, Pow10(2)) == 17000;
  }
}
