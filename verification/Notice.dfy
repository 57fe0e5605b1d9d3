/** The notice lines of `apps/api/src/public-property-tax/dues.util.ts`, and their agreement with the engine. */
module Notice {
  import opened Common
  import opened Sums
  import opened Tax
  import opened Text
  import opened TaxLaws
  import C = TaxClasses

  datatype NoticeLine = NoticeLine(floorLabel: string, areaSqFt: int, rate: real, alv: int, tax: int)

  const DASH := "\U{2014}"

  /** One line per floor; unlike the engine it keeps floors without a rate and passes the GIS class as it is. */
  function FloorLine(floor: Floor, at: Setting): NoticeLine {
    var rate := FloorRate(floor, at, at.gisClass) as real;
    var charge := ComputeFloorAlv(floor.areaSqFt, rate, FloorPct(floor, at, at.gisClass), at.rates.propertyTaxPct);
    NoticeLine(
      if floor.floorLabel == "" then DASH else floor.floorLabel,
      RoundPaise(floor.areaSqFt * 100.0), rate, charge.assessableAlv, charge.propertyTax)
  }

  function OpenLandLine(survey: Survey, rates: RateTable): NoticeLine {
    var rate := OpenLandRate(rates, survey.zoneCode);
    var charge := ComputeFloorAlv(FallbackArea(survey), rate, 100.0, rates.propertyTaxPct);
    NoticeLine(
      "Open Land / Plot", RoundPaise(FallbackArea(survey) * 100.0), rate, charge.assessableAlv, charge.propertyTax)
  }

  function NoticeLines(survey: Survey, rates: RateTable): seq<NoticeLine> {
    var at := SettingOf(survey, rates);
    if survey.floors == [] && IsOpenLand(survey) then [OpenLandLine(survey, rates)]
    else seq(|survey.floors|, i requires 0 <= i < |survey.floors| => FloorLine(survey.floors[i], at))
  }

  /** The zone has been mapped before the call and is not empty. */
  method BuildNoticeFloorLines(survey: Survey, rates: RateTable) returns (lines: seq<NoticeLine>)
    ensures lines == NoticeLines(survey, rates)
  {
    var at := SettingOf(survey, rates);
    lines := [];
    for i := 0 to |survey.floors|
      invariant |lines| == i
      invariant forall j :: 0 <= j < i ==> lines[j] == FloorLine(survey.floors[j], at)
    {
      lines := lines + [FloorLine(survey.floors[i], at)];
    }
    if |lines| == 0 && IsOpenLand(survey) {
      lines := lines + [OpenLandLine(survey, rates)];
    }
  }

  /** A line shows the floor's label and area, its monthly rate, and its charge at that rate. */
  lemma LineShowsFloor(floor: Floor, at: Setting)
    ensures
      var line := FloorLine(floor, at);
      var rate := C.MonthlyRate(
        C.CellRate(at.rates, at.zoneCode, floor.constructionCode), C.Multiple(floor, at)) as real;
      var charge := C.Charged(floor.areaSqFt, rate, C.AssessedPct(floor, at), at.rates.propertyTaxPct);
      && (floor.floorLabel != "" ==> line.floorLabel == floor.floorLabel)
      && line.areaSqFt == RoundPaise(floor.areaSqFt * 100.0) && line.rate == rate
      && line.alv == charge.assessableAlv && line.tax == charge.propertyTax
  {
    C.RateNumber(floor, at);
    C.PctNumber(floor, at);
    SameWithoutMixed(floor, at);
    C.ChargedAlike(
      floor.areaSqFt, FloorRate(floor, at, at.gisClass) as real, C.AssessedPct(floor, at), at.rates.propertyTaxPct);
  }

  /** The mixed class and no class are the same to rate and percentage. */
  lemma SameWithoutMixed(floor: Floor, at: Setting)
    ensures FloorRate(floor, at, at.gisClass) == FloorRate(floor, at, RateGisClass(at.gisClass))
    ensures FloorPct(floor, at, at.gisClass) == FloorPct(floor, at, RateGisClass(at.gisClass))
  {
  }

  function LineTax(): NoticeLine -> int {
    (line: NoticeLine) => line.tax
  }

  function LineAlv(): NoticeLine -> int {
    (line: NoticeLine) => line.alv
  }

  // ---- Agreement ----

  ghost predicate SaneMatrix(rates: RateTable) {
    && (forall key :: key in rates.rateByZoneAndConstruction ==> rates.rateByZoneAndConstruction[key] >= 0.0)
    && (forall key :: key in rates.anyRateByZone ==> rates.anyRateByZone[key] >= 0.0)
  }

  predicate SaneSurvey(survey: Survey) {
    && SaneAreas(survey.floors)
    && survey.plotAreaSqFt >= 0.0 && survey.totalBuiltUpAreaSqFt >= 0.0 && survey.plinthAreaSqFt >= 0.0
  }

  /** The two paths charge a floor alike, although only one of them sees the mixed class. */
  lemma LineMatchesCharge(floor: Floor, at: Setting)
    requires SaneMatrix(at.rates)
    ensures FloorLine(floor, at).tax == FloorCharge(floor, at).propertyTax
    ensures FloorLine(floor, at).alv == FloorCharge(floor, at).assessableAlv
  {
    var base := MatrixRate(at.rates, at.zoneCode, floor.constructionCode);
    SameWithoutMixed(floor, at);
    if base <= 0.0 {
      assert base == 0.0;
      ZeroRate(floor.areaSqFt, FloorPct(floor, at, at.gisClass), at.rates.propertyTaxPct);
    }
  }

  lemma ZeroRate(areaSqFt: real, assessablePct: real, propertyTaxPct: real)
    ensures ComputeFloorAlv(areaSqFt, 0.0, assessablePct, propertyTaxPct) == FloorAlv(0, 0, 0)
  {
  }

  lemma ZeroArea(rate: real, assessablePct: real, propertyTaxPct: real)
    ensures ComputeFloorAlv(0.0, rate, assessablePct, propertyTaxPct) == FloorAlv(0, 0, 0)
  {
  }

  lemma {:induction false} LinesMatchCharges(floors: seq<Floor>, lines: seq<NoticeLine>, at: Setting)
    requires SaneMatrix(at.rates)
    requires |lines| == |floors| && forall i :: 0 <= i < |floors| ==> lines[i] == FloorLine(floors[i], at)
    ensures SumBy(lines, LineTax()) == SumBy(floors, TaxOfFloor(at))
    ensures SumBy(lines, LineAlv()) == SumBy(floors, AlvOfFloor(at))
  {
    if floors != [] {
      LineMatchesCharge(floors[|floors| - 1], at);
      LinesMatchCharges(floors[..|floors| - 1], lines[..|lines| - 1], at);
    }
  }

  /** The lines of built property with an area add up to the engine's property tax. */
  lemma NoticeAgreesOnBuiltProperty(survey: Survey, rates: RateTable)
    requires SaneMatrix(rates)
    requires !IsOpenLand(survey) && FloorsHaveArea(survey.floors)
    ensures SumBy(NoticeLines(survey, rates), LineTax()) == ExportTax(survey, rates).propertyTax
    ensures SumBy(NoticeLines(survey, rates), LineAlv()) == BuiltAlv(survey, rates)
  {
    LinesMatchCharges(survey.floors, NoticeLines(survey, rates), SettingOf(survey, rates));
  }

  lemma SumOfOne(line: NoticeLine)
    ensures SumBy([line], LineTax()) == line.tax
  {
    assert [line][..0] == [];
  }

  /** So does the single line of open land without floors, whichever area it is charged on. */
  lemma NoticeAgreesOnOpenLand(survey: Survey, rates: RateTable)
    requires SaneMatrix(rates) && SaneSurvey(survey)
    requires IsOpenLand(survey) && survey.floors == []
    ensures SumBy(NoticeLines(survey, rates), LineTax()) == ExportTax(survey, rates).propertyTax
  {
    var rate := OpenLandRate(rates, survey.zoneCode);
    SumOfOne(OpenLandLine(survey, rates));
    OpenLandAssessedInFull(survey, rates);
    if rate <= 0.0 {
      assert rate == 0.0;
      ZeroRate(FallbackArea(survey), 100.0, rates.propertyTaxPct);
    } else if FallbackArea(survey) == 0.0 {
      ZeroArea(rate, 100.0, rates.propertyTaxPct);
    }
  }

  /** Keyword search survives the trimming the usage key goes through. */
  lemma OpenLandAssessedInFull(survey: Survey, rates: RateTable)
    requires IsOpenLand(survey)
    ensures ResolveAssessablePct(survey.propertyUse, None, None, rates, survey.gisClass) == 100.0
  {
    if survey.gisClass == None {
      var use := survey.propertyUse.GetOr("");
      assert LowerCase("" + " " + use) == " " + LowerCase(use);
      IncludesPrefixed(" ", LowerCase(use), "open");
      IncludesTrim(" " + LowerCase(use), "open");
      var key := HeuristicUsageKey(None, None, survey.propertyUse);
      assert Trim("") == "";
      assert key == Trim(" " + LowerCase(use));
      LowerOfOpen(key);
    }
  }

  lemma LowerOfOpen(key: string)
    requires Includes(key, "open")
    ensures LooksOpenLand(key)
  {
    var i :| 0 <= i <= |key| && OccursAt(key, "open", i);
    assert key[i] == 'o' && key[i + 1] == 'p' && key[i + 2] == 'e' && key[i + 3] == 'n' by {
      assert key[i..i + 4] == "open";
    }
    assert LowerCase(key)[i..i + 4] == "open";
    assert OccursAt(LowerCase(key), "open", i);
  }

  lemma {:induction false} NoAreaNoTax(floors: seq<Floor>, at: Setting)
    requires SaneAreas(floors) && !FloorsHaveArea(floors)
    ensures SumBy(floors, TaxOfFloor(at)) == 0 && SumBy(floors, AlvOfFloor(at)) == 0
  {
    if floors != [] {
      var last := floors[|floors| - 1];
      assert last.areaSqFt == 0.0;
      var gisClass := RateGisClass(at.gisClass);
      ZeroArea(FloorRate(last, at, gisClass) as real, FloorPct(last, at, gisClass), at.rates.propertyTaxPct);
      NoAreaNoTax(floors[..|floors| - 1], at);
    }
  }

  // ---- Exactly when they agree ----

  /** The engine charges the plot for open land with a plot charge, and the fallback area where no floor has one. */
  predicate NoticeCanAgree(survey: Survey, rates: RateTable) {
    if IsOpenLand(survey) && survey.floors != [] && HasPlotCharge(survey, rates) then
      PlotCharge(survey, rates) == SumBy(survey.floors, TaxOfFloor(SettingOf(survey, rates)))
    else if FallbackApplies(survey, rates) && !(IsOpenLand(survey) && survey.floors == []) then
      FallbackCharge(survey, rates).propertyTax == 0
    else true
  }

  /** The notice lines add up to the engine's property tax exactly outside the two branches that charge other areas. */
  lemma NoticeAgreesIff(survey: Survey, rates: RateTable)
    requires SaneMatrix(rates) && SaneSurvey(survey)
    ensures SumBy(NoticeLines(survey, rates), LineTax()) == ExportTax(survey, rates).propertyTax
            <==> NoticeCanAgree(survey, rates)
  {
    var at := SettingOf(survey, rates);
    if IsOpenLand(survey) && survey.floors == [] {
      NoticeAgreesOnOpenLand(survey, rates);
    } else {
      LinesMatchCharges(survey.floors, NoticeLines(survey, rates), at);
      if !FloorsHaveArea(survey.floors) {
        NoAreaNoTax(survey.floors, at);
      }
    }
  }

  // ---- A survey of each class in which they differ ----

  const StubFloor := Floor("Ground Floor", RCC_ROOF, None, None, 0.0)

  /** One rupee a square foot for the only cell of the matrix. */
  const OneRupeeRates :=
    RateTableOf([RateCell(BELOW_9M, RCC_ROOF, 100.0)], Percentages(80.0, 80.0, 10.0, 5.0, 5.0, 0.0))

  function StubSurvey(gisClass: GisUseClass, plotAreaSqFt: real, builtUpAreaSqFt: real): Survey {
    Survey(Some(gisClass), BELOW_9M, None, [StubFloor], plotAreaSqFt, builtUpAreaSqFt, 0.0)
  }

  /** Without an own cell, open land takes the rate of any cell of its zone. */
  lemma OpenLandTakesAnyRate(cell: RateCell, pct: Percentages)
    requires cell.rate > 0.0 && |cell.constructionCode| != |"OPEN_LAND"|
    ensures OpenLandRate(RateTableOf([cell], pct), cell.zoneCode) == cell.rate
    ensures SaneMatrix(RateTableOf([cell], pct))
  {
    OneCell(cell, pct);
    assert |TaxRateKey(cell.zoneCode, "OPEN_LAND")| != |TaxRateKey(cell.zoneCode, cell.constructionCode)|;
  }

  lemma StubLines(gisClass: GisUseClass, plotAreaSqFt: real, builtUpAreaSqFt: real)
    ensures var survey := StubSurvey(gisClass, plotAreaSqFt, builtUpAreaSqFt);
            && SumBy(NoticeLines(survey, OneRupeeRates), LineTax()) == 0
            && !FloorsHaveArea(survey.floors)
            && SumBy(survey.floors, AlvOfFloor(SettingOf(survey, OneRupeeRates))) == 0
            && OpenLandRate(OneRupeeRates, survey.zoneCode) == 100.0
  {
    var survey := StubSurvey(gisClass, plotAreaSqFt, builtUpAreaSqFt);
    var at := SettingOf(survey, OneRupeeRates);
    OpenLandTakesAnyRate(RateCell(BELOW_9M, RCC_ROOF, 100.0), Percentages(80.0, 80.0, 10.0, 5.0, 5.0, 0.0));
    NoAreaNoTax(survey.floors, at);
    LinesMatchCharges(survey.floors, NoticeLines(survey, OneRupeeRates), at);
  }

  /**
   * A thousand square feet of plot under a house without floor areas: the engine charges 960 rupees, the lines none.
   */
  lemma BuiltWithoutAreasDiffers()
    ensures var survey := StubSurvey(Residential, 1000.0, 0.0);
            && SumBy(NoticeLines(survey, OneRupeeRates), LineTax()) == 0
            && ExportTax(survey, OneRupeeRates).propertyTax == 96000
  {
    StubLines(Residential, 1000.0, 0.0);
  }

  /** Open land with a floor: the engine charges the plot. */
  lemma OpenPlotWithFloorsDiffers()
    ensures var survey := StubSurvey(OpenLand, 1000.0, 0.0);
            && SumBy(NoticeLines(survey, OneRupeeRates), LineTax()) == 0
            && ExportTax(survey, OneRupeeRates).propertyTax == 120000
  {
    StubLines(OpenLand, 1000.0, 0.0);
  }

  /** Open land with a floor and no plot area: the engine charges the built-up area. */
  lemma OpenLandFallbackDiffers()
    ensures var survey := StubSurvey(OpenLand, 0.0, 1000.0);
            && SumBy(NoticeLines(survey, OneRupeeRates), LineTax()) == 0
            && ExportTax(survey, OneRupeeRates).propertyTax == 120000
  {
    StubLines(OpenLand, 0.0, 1000.0);
  }
}
