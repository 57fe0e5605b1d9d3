/** What the tax engine promises: floor order, rounding error, monotone rates. */
module TaxLaws {
  import opened Common
  import opened Sums
  import opened Tax
  import opened TaxClasses

  // ---- Floor order ----

  lemma AreaOfPermutation(xs: seq<Floor>, ys: seq<Floor>)
    requires multiset(xs) == multiset(ys)
    ensures FloorsHaveArea(xs) ==> FloorsHaveArea(ys)
  {
    if FloorsHaveArea(xs) {
      var i :| 0 <= i < |xs| && xs[i].areaSqFt > 0.0;
      assert xs[i] in multiset(ys);
      var j :| 0 <= j < |ys| && ys[j] == xs[i];
    }
  }

  /** Listing the floors in another order changes nothing. */
  lemma FloorOrderIrrelevant(survey: Survey, floors: seq<Floor>, rates: RateTable)
    requires multiset(floors) == multiset(survey.floors)
    ensures ExportTax(survey.(floors := floors), rates) == ExportTax(survey, rates)
  {
    var at := SettingOf(survey, rates);
    assert SettingOf(survey.(floors := floors), rates) == at;
    SumByPermutation(floors, survey.floors, TaxOfFloor(at));
    SumByPermutation(floors, survey.floors, AlvOfFloor(at));
    AreaOfPermutation(floors, survey.floors);
    AreaOfPermutation(survey.floors, floors);
  }

  // ---- Rounding error ----

  predicate SaneRates(rates: RateTable) {
    && 0.0 <= rates.assessablePct && 0.0 <= rates.commercialAssessablePct
    && 0.0 <= rates.propertyTaxPct && 0.0 <= rates.waterTaxPct
    && 0.0 <= rates.drainageTaxPct && 0.0 <= rates.penaltyPct
  }

  predicate PercentagesAtMost100(rates: RateTable) {
    rates.assessablePct <= 100.0 && rates.commercialAssessablePct <= 100.0 && rates.propertyTaxPct <= 100.0
  }

  predicate SaneAreas(floors: seq<Floor>) {
    forall i :: 0 <= i < |floors| ==> floors[i].areaSqFt >= 0.0
  }

  function UnroundedAlvTax(areaSqFt: real, rate: real, assessablePct: real, propertyTaxPct: real): real {
    var gross := areaSqFt * rate * 12.0;
    var alv := gross * (assessablePct / 100.0);
    alv * (propertyTaxPct / 100.0)
  }

  /** The rate of a floor before it is rounded to whole paise. */
  function ExactRate(floor: Floor, at: Setting): real {
    CellRate(at.rates, at.zoneCode, floor.constructionCode) * Multiple(floor, at)
  }

  function UnroundedCharge(areaSqFt: real, base: real, mult: real, assessablePct: real, propertyTaxPct: real): real {
    if base <= 0.0 then 0.0 else UnroundedAlvTax(areaSqFt, base * mult, assessablePct, propertyTaxPct)
  }

  /** The tax of one floor with no rounding at all, not even of its rate. */
  function UnroundedFloorTax(floor: Floor, at: Setting): real {
    UnroundedCharge(
      floor.areaSqFt, CellRate(at.rates, at.zoneCode, floor.constructionCode), Multiple(floor, at),
      AssessedPct(floor, at), at.rates.propertyTaxPct)
  }

  function UnroundedTax(floors: seq<Floor>, at: Setting): real {
    if floors == [] then 0.0
    else UnroundedTax(floors[..|floors| - 1], at) + UnroundedFloorTax(floors[|floors| - 1], at)
  }

  predicate Within(x: real, y: real, d: real) {
    y - d <= x <= y + d
  }

  lemma FractionAtMost(fraction: real, x: real, d: real)
    requires 0.0 <= fraction <= 1.0 && x <= d && 0.0 <= d
    ensures fraction * x <= d
  {
    if 0.0 <= x {
      MulNonNegative(1.0 - fraction, x);
      assert (1.0 - fraction) * x == x - fraction * x;
    } else {
      MulNonNegative(fraction, -x);
      assert fraction * -x == -(fraction * x);
    }
  }

  lemma FractionOfError(fraction: real, e: real, d: real)
    requires 0.0 <= fraction <= 1.0 && -d <= e <= d
    ensures -d <= fraction * e <= d
  {
    FractionAtMost(fraction, e, d);
    FractionAtMost(fraction, -e, d);
    assert fraction * -e == -(fraction * e);
  }

  /** A percentage of at most 100 adds only its own rounding to an error. */
  lemma PercentOfError(amount: int, exact: real, d: real, pct: real)
    requires Within(amount as real, exact, d) && 0.0 <= d && 0.0 <= pct <= 100.0
    ensures Within(PercentOf(amount, pct) as real, exact * (pct / 100.0), d + 0.5)
  {
    var fraction, e := pct / 100.0, amount as real - exact;
    assert amount as real * fraction == exact * fraction + fraction * e;
    FractionOfError(fraction, e, d);
  }

  lemma AlvRoundingError(areaSqFt: real, rate: real, assessablePct: real, propertyTaxPct: real)
    requires 0.0 <= assessablePct <= 100.0 && 0.0 <= propertyTaxPct <= 100.0
    ensures Within(
              ComputeFloorAlv(areaSqFt, rate, assessablePct, propertyTaxPct).propertyTax as real,
              UnroundedAlvTax(areaSqFt, rate, assessablePct, propertyTaxPct), 1.5)
  {
    var exact := areaSqFt * rate * 12.0;
    var gross := RoundPaise(exact);
    PercentOfError(gross, exact, 0.5, assessablePct);
    var alv, exactAlv := PercentOf(gross, assessablePct), exact * (assessablePct / 100.0);
    assert Within(alv as real, exactAlv, 1.0);
    PercentOfError(alv, exactAlv, 1.0, propertyTaxPct);
    var tax, exactTax := PercentOf(alv, propertyTaxPct), exactAlv * (propertyTaxPct / 100.0);
    assert Within(tax as real, exactTax, 1.5);
    assert UnroundedAlvTax(areaSqFt, rate, assessablePct, propertyTaxPct) == exactTax;
  }

  predicate WholePaise(rate: real) {
    RoundPaise(rate) as real == rate
  }

  function Size(x: real): real {
    if x < 0.0 then -x else x
  }

  /** What rounding the rate by up to half a paise can add to the tax. */
  function RateSlack(areaSqFt: real, rate: real, assessablePct: real, propertyTaxPct: real): real {
    if WholePaise(rate) then 0.0 else UnroundedAlvTax(Size(areaSqFt), 0.5, assessablePct, propertyTaxPct)
  }

  lemma UnroundedIsLinear(areaSqFt: real, a: real, b: real, assessablePct: real, propertyTaxPct: real)
    ensures UnroundedAlvTax(areaSqFt, a, assessablePct, propertyTaxPct)
            - UnroundedAlvTax(areaSqFt, b, assessablePct, propertyTaxPct)
         == areaSqFt * (12.0 * (assessablePct / 100.0) * (propertyTaxPct / 100.0)) * (a - b)
  {
    var k := 12.0 * (assessablePct / 100.0) * (propertyTaxPct / 100.0);
    UnroundedAsProduct(areaSqFt, a, assessablePct, propertyTaxPct);
    UnroundedAsProduct(areaSqFt, b, assessablePct, propertyTaxPct);
    assert areaSqFt * k * (a - b) == areaSqFt * k * a - areaSqFt * k * b;
  }

  lemma UnroundedAsProduct(areaSqFt: real, rate: real, assessablePct: real, propertyTaxPct: real)
    ensures UnroundedAlvTax(areaSqFt, rate, assessablePct, propertyTaxPct)
         == areaSqFt * (12.0 * (assessablePct / 100.0) * (propertyTaxPct / 100.0)) * rate
  {
    var p, q := assessablePct / 100.0, propertyTaxPct / 100.0;
    calc {
      areaSqFt * rate * 12.0 * p * q;
      (areaSqFt * rate) * (12.0 * p * q);
      areaSqFt * (rate * (12.0 * p * q));
      areaSqFt * ((12.0 * p * q) * rate);
      areaSqFt * (12.0 * p * q) * rate;
    }
  }

  lemma HalfOfSize(areaSqFt: real, k: real, e: real)
    requires 0.0 <= k && -0.5 <= e <= 0.5
    ensures Within(areaSqFt * k * e, 0.0, Size(areaSqFt) * k * 0.5)
  {
    var m := Size(areaSqFt) * k;
    MulNonNegative(Size(areaSqFt), k);
    MulMonotone(m, -0.5, e);
    MulMonotone(m, e, 0.5);
    if areaSqFt < 0.0 {
      assert areaSqFt * k == -m;
    }
  }

  /** Rounding the rate moves the unrounded tax by at most the slack. */
  lemma RateRoundingError(areaSqFt: real, rate: real, assessablePct: real, propertyTaxPct: real)
    requires 0.0 <= assessablePct && 0.0 <= propertyTaxPct
    ensures Within(
              UnroundedAlvTax(areaSqFt, RoundPaise(rate) as real, assessablePct, propertyTaxPct),
              UnroundedAlvTax(areaSqFt, rate, assessablePct, propertyTaxPct),
              RateSlack(areaSqFt, rate, assessablePct, propertyTaxPct))
  {
    if !WholePaise(rate) {
      var k, e := 12.0 * (assessablePct / 100.0) * (propertyTaxPct / 100.0), RoundPaise(rate) as real - rate;
      MulNonNegative(12.0 * (assessablePct / 100.0), propertyTaxPct / 100.0);
      UnroundedIsLinear(areaSqFt, RoundPaise(rate) as real, rate, assessablePct, propertyTaxPct);
      UnroundedAsProduct(Size(areaSqFt), 0.5, assessablePct, propertyTaxPct);
      HalfOfSize(areaSqFt, k, e);
    }
  }

  /** Half a paise of each of the three roundings, and what the rounding of the rate can add. */
  function AllowedAt(areaSqFt: real, base: real, mult: real, assessablePct: real, propertyTaxPct: real): real {
    1.5 + RateSlack(areaSqFt, base * mult, assessablePct, propertyTaxPct)
  }

  function ErrorAllowed(floor: Floor, at: Setting): real {
    AllowedAt(
      floor.areaSqFt, CellRate(at.rates, at.zoneCode, floor.constructionCode), Multiple(floor, at),
      AssessedPct(floor, at), at.rates.propertyTaxPct)
  }

  lemma RateSlackNonNegative(areaSqFt: real, rate: real, assessablePct: real, propertyTaxPct: real)
    requires 0.0 <= assessablePct && 0.0 <= propertyTaxPct
    ensures 0.0 <= RateSlack(areaSqFt, rate, assessablePct, propertyTaxPct)
  {
    var gross := Size(areaSqFt) * 0.5 * 12.0;
    MulNonNegative(gross, assessablePct / 100.0);
    MulNonNegative(gross * (assessablePct / 100.0), propertyTaxPct / 100.0);
  }

  function ChargeAt(areaSqFt: real, base: real, mult: real, assessablePct: real, propertyTaxPct: real): FloorAlv {
    if base <= 0.0 then FloorAlv(0, 0, 0)
    else ComputeFloorAlv(areaSqFt, RoundPaise(base * mult) as real, assessablePct, propertyTaxPct)
  }

  lemma ChargeRoundingError(areaSqFt: real, base: real, mult: real, pct: real, propertyTaxPct: real)
    requires 0.0 <= pct <= 100.0 && 0.0 <= propertyTaxPct <= 100.0
    ensures Within(
              ChargeAt(areaSqFt, base, mult, pct, propertyTaxPct).propertyTax as real,
              UnroundedCharge(areaSqFt, base, mult, pct, propertyTaxPct),
              AllowedAt(areaSqFt, base, mult, pct, propertyTaxPct))
  {
    var rate := base * mult;
    RateSlackNonNegative(areaSqFt, rate, pct, propertyTaxPct);
    AlvRoundingError(areaSqFt, RoundPaise(rate) as real, pct, propertyTaxPct);
    RateRoundingError(areaSqFt, rate, pct, propertyTaxPct);
  }

  lemma FloorRoundingError(floor: Floor, at: Setting)
    requires SaneRates(at.rates) && PercentagesAtMost100(at.rates)
    ensures Within(FloorCharge(floor, at).propertyTax as real, UnroundedFloorTax(floor, at), ErrorAllowed(floor, at))
  {
    var base := CellRate(at.rates, at.zoneCode, floor.constructionCode);
    var mult, pct := Multiple(floor, at), AssessedPct(floor, at);
    FloorChargeAt(floor, at, base, mult, pct);
    ChargeRoundingError(floor.areaSqFt, base, mult, pct, at.rates.propertyTaxPct);
  }

  function TotalErrorAllowed(floors: seq<Floor>, at: Setting): real {
    if floors == [] then 0.0
    else TotalErrorAllowed(floors[..|floors| - 1], at) + ErrorAllowed(floors[|floors| - 1], at)
  }

  lemma {:induction false} FloorsRoundingError(floors: seq<Floor>, at: Setting)
    requires SaneRates(at.rates) && PercentagesAtMost100(at.rates)
    ensures Within(SumBy(floors, TaxOfFloor(at)) as real, UnroundedTax(floors, at), TotalErrorAllowed(floors, at))
  {
    if floors != [] {
      FloorsRoundingError(floors[..|floors| - 1], at);
      FloorRoundingError(floors[|floors| - 1], at);
    }
  }

  /** On built property with an area the tax is within the allowance of the formula without any rounding. */
  lemma BuiltTaxRoundingError(survey: Survey, rates: RateTable)
    requires SaneRates(rates) && PercentagesAtMost100(rates)
    requires !IsOpenLand(survey) && FloorsHaveArea(survey.floors)
    ensures var at := SettingOf(survey, rates);
            Within(
              ExportTax(survey, rates).propertyTax as real, UnroundedTax(survey.floors, at),
              TotalErrorAllowed(survey.floors, at))
  {
    FloorsRoundingError(survey.floors, SettingOf(survey, rates));
  }

  predicate WholeRates(floors: seq<Floor>, at: Setting) {
    forall i :: 0 <= i < |floors| ==> WholePaise(ExactRate(floors[i], at))
  }

  lemma {:induction false} WholeRatesAllowance(floors: seq<Floor>, at: Setting)
    requires WholeRates(floors, at)
    ensures TotalErrorAllowed(floors, at) == 1.5 * |floors| as real
  {
    if floors != [] {
      WholeRatesAllowance(floors[..|floors| - 1], at);
    }
  }

  /** With rates of whole paise that is 1.5 paise a floor. */
  lemma BuiltTaxErrorAtWholeRates(survey: Survey, rates: RateTable)
    requires SaneRates(rates) && PercentagesAtMost100(rates)
    requires !IsOpenLand(survey) && FloorsHaveArea(survey.floors)
    requires WholeRates(survey.floors, SettingOf(survey, rates))
    ensures Within(
              ExportTax(survey, rates).propertyTax as real,
              UnroundedTax(survey.floors, SettingOf(survey, rates)),
              1.5 * |survey.floors| as real)
  {
    BuiltTaxRoundingError(survey, rates);
    WholeRatesAllowance(survey.floors, SettingOf(survey, rates));
  }

  predicate WithinHalves(areaSqFt: real, rate: real, assessablePct: real, propertyTaxPct: real) {
    Within(
      ComputeFloorAlv(areaSqFt, RoundPaise(rate) as real, assessablePct, propertyTaxPct).propertyTax as real,
      UnroundedAlvTax(areaSqFt, rate, assessablePct, propertyTaxPct), 1.5)
  }

  /** An area large enough for a rounded rate to cost more than three paise. */
  lemma PartPaiseRateDrifts(rate: real, assessablePct: real, propertyTaxPct: real) returns (areaSqFt: real)
    requires 0.0 < assessablePct <= 100.0 && 0.0 < propertyTaxPct <= 100.0 && !WholePaise(rate)
    ensures areaSqFt >= 0.0 && !WithinHalves(areaSqFt, rate, assessablePct, propertyTaxPct)
  {
    var k := 12.0 * (assessablePct / 100.0) * (propertyTaxPct / 100.0);
    var e := RoundPaise(rate) as real - rate;
    var drift := if e < 0.0 then -e else e;
    assert k > 0.0 && drift > 0.0;
    MulPositive(k, drift);
    areaSqFt := 4.0 / (k * drift);
    assert areaSqFt * (k * drift) == 4.0;
    assert areaSqFt * k * drift == 4.0;
    assert areaSqFt * k * e == if e < 0.0 then -4.0 else 4.0;
    UnroundedIsLinear(areaSqFt, RoundPaise(rate) as real, rate, assessablePct, propertyTaxPct);
    AlvRoundingError(areaSqFt, RoundPaise(rate) as real, assessablePct, propertyTaxPct);
  }

  lemma MulPositive(a: real, b: real)
    requires a > 0.0 && b > 0.0
    ensures a * b > 0.0
  {
  }

  /** The bound of 1.5 paise a floor holds for every area exactly when the rate is a whole number of paise. */
  lemma HalvesSufficeIff(rate: real, assessablePct: real, propertyTaxPct: real)
    requires 0.0 < assessablePct <= 100.0 && 0.0 < propertyTaxPct <= 100.0
    ensures (forall areaSqFt: real :: areaSqFt >= 0.0 ==> WithinHalves(areaSqFt, rate, assessablePct, propertyTaxPct))
            <==> WholePaise(rate)
  {
    if WholePaise(rate) {
      forall areaSqFt: real | areaSqFt >= 0.0 ensures WithinHalves(areaSqFt, rate, assessablePct, propertyTaxPct) {
        AlvRoundingError(areaSqFt, rate, assessablePct, propertyTaxPct);
      }
    } else {
      var areaSqFt := PartPaiseRateDrifts(rate, assessablePct, propertyTaxPct);
    }
  }

  /** A house of 1000 square feet at 1.255 rupees: the rounded rate alone costs 4.80 rupees. */
  lemma PartPaiseRateInstance()
    ensures
      var rates := RateTableOf([RateCell(BELOW_9M, RCC_ROOF, 125.5)], Percentages(80.0, 80.0, 10.0, 0.0, 0.0, 0.0));
      var floor := Floor("Ground Floor", RCC_ROOF, None, None, 1000.0);
      var survey := Survey(Some(Residential), BELOW_9M, None, [floor], 0.0, 0.0, 0.0);
      && !IsOpenLand(survey) && FloorsHaveArea(survey.floors)
      && ExportTax(survey, rates).propertyTax == 120960
      && UnroundedTax(survey.floors, SettingOf(survey, rates)) == 120480.0
  {
    var cell, pct := RateCell(BELOW_9M, RCC_ROOF, 125.5), Percentages(80.0, 80.0, 10.0, 0.0, 0.0, 0.0);
    var rates := RateTableOf([cell], pct);
    var floor := Floor("Ground Floor", RCC_ROOF, None, None, 1000.0);
    var survey := Survey(Some(Residential), BELOW_9M, None, [floor], 0.0, 0.0, 0.0);
    var at := SettingOf(survey, rates);
    OneCell(cell, pct);
    assert survey.floors[0].areaSqFt > 0.0;
    assert [floor][..0] == [];
    assert FloorCharge(floor, at) == ComputeFloorAlv(1000.0, 126.0, 80.0, 10.0);
    assert SumBy([floor], TaxOfFloor(at)) == FloorCharge(floor, at).propertyTax;
  }

  // ---- Monotone rates ----

  /** Only matrix rates differ, and each is at least what it was. */
  ghost predicate RatesRaised(low: RateTable, high: RateTable) {
    && high == low.(rateByZoneAndConstruction := high.rateByZoneAndConstruction)
    && forall key ::
         Lookup(low.rateByZoneAndConstruction, key).GetOr(0.0)
         <= Lookup(high.rateByZoneAndConstruction, key).GetOr(0.0)
  }

  lemma YearMonotone(x: real, y: real)
    requires x <= y
    ensures RoundPaise(x * 12.0) <= RoundPaise(y * 12.0)
  {
    RoundMonotone(x * 12.0, y * 12.0);
  }

  lemma GrossMonotone(areaSqFt: real, low: real, high: real)
    requires 0.0 <= areaSqFt && low <= high
    ensures RoundPaise(areaSqFt * low * 12.0) <= RoundPaise(areaSqFt * high * 12.0)
  {
    MulMonotone(areaSqFt, low, high);
    YearMonotone(areaSqFt * low, areaSqFt * high);
  }

  lemma FloorAlvMonotone(areaSqFt: real, low: real, high: real, assessablePct: real, propertyTaxPct: real)
    requires 0.0 <= areaSqFt && low <= high && 0.0 <= assessablePct && 0.0 <= propertyTaxPct
    ensures
      var a, b := ComputeFloorAlv(areaSqFt, low, assessablePct, propertyTaxPct),
                  ComputeFloorAlv(areaSqFt, high, assessablePct, propertyTaxPct);
      a.assessableAlv <= b.assessableAlv && a.propertyTax <= b.propertyTax
  {
    var a, b := ComputeFloorAlv(areaSqFt, low, assessablePct, propertyTaxPct),
                ComputeFloorAlv(areaSqFt, high, assessablePct, propertyTaxPct);
    GrossMonotone(areaSqFt, low, high);
    PercentOfMonotone(a.grossAlv, b.grossAlv, assessablePct);
    PercentOfMonotone(a.assessableAlv, b.assessableAlv, propertyTaxPct);
  }

  lemma FloorAlvNonNegative(areaSqFt: real, rate: real, assessablePct: real, propertyTaxPct: real)
    requires 0.0 <= areaSqFt && 0.0 <= rate && 0.0 <= assessablePct && 0.0 <= propertyTaxPct
    ensures
      var a := ComputeFloorAlv(areaSqFt, rate, assessablePct, propertyTaxPct);
      0 <= a.assessableAlv && 0 <= a.propertyTax
  {
    var a := ComputeFloorAlv(areaSqFt, rate, assessablePct, propertyTaxPct);
    MulNonNegative(areaSqFt, rate);
    PercentOfNonNegative(a.grossAlv, assessablePct);
    PercentOfNonNegative(a.assessableAlv, propertyTaxPct);
  }

  /** The charge on a floor as a function of numbers alone. */
  lemma ChargeMonotone(
    areaSqFt: real, low: real, high: real, mult: real, assessablePct: real, propertyTaxPct: real)
    requires 0.0 <= areaSqFt && low <= high && 0.0 <= mult && 0.0 <= assessablePct && 0.0 <= propertyTaxPct
    ensures
      var a, b := ChargeAt(areaSqFt, low, mult, assessablePct, propertyTaxPct),
                  ChargeAt(areaSqFt, high, mult, assessablePct, propertyTaxPct);
      a.assessableAlv <= b.assessableAlv && a.propertyTax <= b.propertyTax
  {
    if high > 0.0 {
      MulNonNegative(mult, high);
      FloorAlvNonNegative(areaSqFt, RoundPaise(high * mult) as real, assessablePct, propertyTaxPct);
      if low > 0.0 {
        MulMonotone(mult, low, high);
        RoundMonotone(low * mult, high * mult);
        FloorAlvMonotone(
          areaSqFt, RoundPaise(low * mult) as real, RoundPaise(high * mult) as real, assessablePct, propertyTaxPct);
      }
    }
  }

  lemma FloorChargeAt(floor: Floor, at: Setting, base: real, mult: real, pct: real)
    requires base == CellRate(at.rates, at.zoneCode, floor.constructionCode)
    requires mult == Multiple(floor, at) && pct == AssessedPct(floor, at)
    ensures FloorCharge(floor, at) == ChargeAt(floor.areaSqFt, base, mult, pct, at.rates.propertyTaxPct)
  {
    FloorIsCharged(floor, at);
    ChargedAlike(floor.areaSqFt, MonthlyRate(base, mult) as real, pct, at.rates.propertyTaxPct);
  }

  lemma FloorChargeMonotone(floor: Floor, low: Setting, high: Setting)
    requires high == low.(rates := high.rates) && RatesRaised(low.rates, high.rates)
    requires SaneRates(low.rates) && floor.areaSqFt >= 0.0
    ensures FloorCharge(floor, low).propertyTax <= FloorCharge(floor, high).propertyTax
    ensures FloorCharge(floor, low).assessableAlv <= FloorCharge(floor, high).assessableAlv
  {
    var mult, pct := Multiple(floor, low), AssessedPct(floor, low);
    var base, raised := CellRate(low.rates, low.zoneCode, floor.constructionCode),
                        CellRate(high.rates, high.zoneCode, floor.constructionCode);
    CellNumber(floor, low);
    CellNumber(floor, high);
    FloorChargeAt(floor, low, base, mult, pct);
    FloorChargeAt(floor, high, raised, mult, pct);
    ChargeMonotone(floor.areaSqFt, base, raised, mult, pct, low.rates.propertyTaxPct);
  }

  lemma TotalsMonotone(alv: int, alv': int, tax: int, tax': int, low: RateTable, high: RateTable)
    requires alv <= alv' && tax <= tax' && RatesRaised(low, high) && SaneRates(low)
    ensures ComputeDemandTotals(alv, tax, low, true, true).totalAnnualDemand
            <= ComputeDemandTotals(alv', tax', high, true, true).totalAnnualDemand
  {
    PercentOfMonotone(alv, alv', low.waterTaxPct);
    PercentOfMonotone(alv, alv', low.drainageTaxPct);
    PercentOfMonotone(tax, tax', low.penaltyPct);
  }

  /** Raising matrix rates never lowers the demand of built property with an area. */
  lemma TotalDemandMonotoneInRates(survey: Survey, low: RateTable, high: RateTable)
    requires RatesRaised(low, high) && SaneRates(low) && SaneAreas(survey.floors)
    requires !IsOpenLand(survey) && FloorsHaveArea(survey.floors)
    ensures ExportTax(survey, low).propertyTax <= ExportTax(survey, high).propertyTax
    ensures ExportTax(survey, low).totalDemand <= ExportTax(survey, high).totalDemand
  {
    var at, raised := SettingOf(survey, low), SettingOf(survey, high);
    forall i | 0 <= i < |survey.floors|
      ensures TaxOfFloor(at)(survey.floors[i]) <= TaxOfFloor(raised)(survey.floors[i])
      ensures AlvOfFloor(at)(survey.floors[i]) <= AlvOfFloor(raised)(survey.floors[i])
    {
      FloorChargeMonotone(survey.floors[i], at, raised);
    }
    SumByMonotone(survey.floors, TaxOfFloor(at), TaxOfFloor(raised));
    SumByMonotone(survey.floors, AlvOfFloor(at), AlvOfFloor(raised));
    TotalsMonotone(
      BuiltAlv(survey, low), BuiltAlv(survey, high), BuiltTax(survey, low), BuiltTax(survey, high), low, high);
  }

  // ---- Nothing is negative ----

  lemma ChargeNonNegative(areaSqFt: real, base: real, mult: real, assessablePct: real, propertyTaxPct: real)
    requires 0.0 <= areaSqFt && 0.0 <= mult && 0.0 <= assessablePct && 0.0 <= propertyTaxPct
    ensures var a := ChargeAt(areaSqFt, base, mult, assessablePct, propertyTaxPct);
            a.assessableAlv >= 0 && a.propertyTax >= 0
  {
    if base > 0.0 {
      MulNonNegative(base, mult);
      FloorAlvNonNegative(areaSqFt, RoundPaise(base * mult) as real, assessablePct, propertyTaxPct);
    }
  }

  lemma FloorChargeNonNegative(floor: Floor, at: Setting)
    requires SaneRates(at.rates) && floor.areaSqFt >= 0.0
    ensures FloorCharge(floor, at).propertyTax >= 0 && FloorCharge(floor, at).assessableAlv >= 0
  {
    var mult, pct := Multiple(floor, at), AssessedPct(floor, at);
    var base := CellRate(at.rates, at.zoneCode, floor.constructionCode);
    FloorChargeAt(floor, at, base, mult, pct);
    ChargeNonNegative(floor.areaSqFt, base, mult, pct, at.rates.propertyTaxPct);
  }

  lemma BuiltNonNegative(survey: Survey, rates: RateTable)
    requires SaneRates(rates) && SaneAreas(survey.floors)
    ensures BuiltTax(survey, rates) >= 0 && BuiltAlv(survey, rates) >= 0
  {
    var at := SettingOf(survey, rates);
    if FallbackApplies(survey, rates) {
      FloorAlvNonNegative(
        FallbackArea(survey), OpenLandRate(rates, survey.zoneCode),
        ResolveAssessablePct(survey.propertyUse, None, None, rates, survey.gisClass), rates.propertyTaxPct);
    } else {
      forall i | 0 <= i < |survey.floors|
        ensures TaxOfFloor(at)(survey.floors[i]) >= 0 && AlvOfFloor(at)(survey.floors[i]) >= 0
      {
        FloorChargeNonNegative(survey.floors[i], at);
      }
      SumByNonNegative(survey.floors, TaxOfFloor(at));
      SumByNonNegative(survey.floors, AlvOfFloor(at));
    }
  }

  /** The engine charges nothing below zero, whatever the matrix rates. */
  lemma ExportTaxNonNegative(survey: Survey, rates: RateTable)
    requires SaneRates(rates) && SaneAreas(survey.floors)
    ensures var t := ExportTax(survey, rates);
            t.propertyTax >= 0 && t.waterTax >= 0 && t.drainageTax >= 0 && t.penalty >= 0
  {
    BuiltNonNegative(survey, rates);
    if HasPlotCharge(survey, rates) {
      FloorAlvNonNegative(survey.plotAreaSqFt, OpenLandRate(rates, survey.zoneCode), 100.0, rates.propertyTaxPct);
    }
    PercentOfNonNegative(BuiltAlv(survey, rates), rates.waterTaxPct);
    PercentOfNonNegative(BuiltAlv(survey, rates), rates.drainageTaxPct);
    PercentOfNonNegative(ExportTax(survey, rates).propertyTax, rates.penaltyPct);
  }
}
