/** The tax engine of `apps/api/src/tax/tax-calc.ts`. Rates are paise per square foot. */
module Tax {
  import opened Common
  import opened Sums
  import opened Text

  datatype GisUseClass = Residential | Commercial | OpenLand | Mixed

  datatype Floor = Floor(
    floorLabel: string,
    constructionCode: string,
    usageType: Option<string>,
    usageFactor: Option<string>,
    areaSqFt: real)

  /** What the engine reads of a survey; a missing area is 0. */
  datatype Survey = Survey(
    gisClass: Option<GisUseClass>,
    zoneCode: string,
    propertyUse: Option<string>,
    floors: seq<Floor>,
    plotAreaSqFt: real,
    totalBuiltUpAreaSqFt: real,
    plinthAreaSqFt: real)

  datatype RateTable = RateTable(
    assessablePct: real,
    commercialAssessablePct: real,
    propertyTaxPct: real,
    waterTaxPct: real,
    drainageTaxPct: real,
    penaltyPct: real,
    rateByZoneAndConstruction: map<string, real>,
    anyRateByZone: map<string, real>)

  datatype FloorAlv = FloorAlv(grossAlv: int, assessableAlv: int, propertyTax: int)

  datatype DemandTotals = DemandTotals(waterTax: int, drainageTax: int, penalty: int, totalAnnualDemand: int)

  datatype TaxSummary = TaxSummary(propertyTax: int, waterTax: int, drainageTax: int, penalty: int, totalDemand: int)

  // ---- Usage classification ----

  predicate LooksCommercial(text: string) {
    var key := LowerCase(text);
    || Includes(key, "commercial")
    || Includes(key, "shop")
    || Includes(key, "godown")
    || Includes(key, "non-res")
  }

  predicate LooksOpenLand(text: string) {
    Includes(LowerCase(text), "open")
  }

  /** The floor's own usage type wins over the property-wide use. */
  function HeuristicUsageKey(
    usageType: Option<string>, usageFactor: Option<string>, propertyUse: Option<string>): string
  {
    var floor := Trim(usageType.GetOr(""));
    if floor != "" then LowerCase(floor)
    else Trim(LowerCase(usageFactor.GetOr("") + " " + propertyUse.GetOr("")))
  }

  function ResolveAssessablePct(
    propertyUse: Option<string>, usageType: Option<string>, usageFactor: Option<string>,
    rates: RateTable, gisClass: Option<GisUseClass>): real
  {
    if gisClass == Some(OpenLand) then 100.0
    else if gisClass == Some(Commercial) then rates.commercialAssessablePct
    else if gisClass == Some(Residential) then rates.assessablePct
    else
      var key := HeuristicUsageKey(usageType, usageFactor, propertyUse);
      if LooksOpenLand(key) then 100.0
      else if LooksCommercial(key) then rates.commercialAssessablePct
      else rates.assessablePct
  }

  function ResolveUsageRateMult(
    usageFactor: Option<string>, usageType: Option<string>, propertyUse: Option<string>,
    gisClass: Option<GisUseClass>): real
  {
    if gisClass == Some(Commercial) then 2.0
    else if gisClass == Some(Residential) || gisClass == Some(OpenLand) then 1.0
    else if LooksCommercial(HeuristicUsageKey(usageType, usageFactor, propertyUse)) then 2.0
    else 1.0
  }

  function ResolveEffectiveMonthlyRate(
    baseRate: real, usageFactor: Option<string>, usageType: Option<string>, propertyUse: Option<string>,
    gisClass: Option<GisUseClass>): int
  {
    RoundPaise(baseRate * ResolveUsageRateMult(usageFactor, usageType, propertyUse, gisClass))
  }

  // ---- Arithmetic of one floor and of the totals ----

  function ComputeFloorAlv(areaSqFt: real, monthlyRate: real, assessablePct: real, propertyTaxPct: real): FloorAlv {
    var grossAlv := RoundPaise(areaSqFt * monthlyRate * 12.0);
    var assessableAlv := PercentOf(grossAlv, assessablePct);
    FloorAlv(grossAlv, assessableAlv, PercentOf(assessableAlv, propertyTaxPct))
  }

  function PenaltyOn(propertyTax: int, penaltyPct: real): int {
    if penaltyPct > 0.0 then PercentOf(propertyTax, penaltyPct) else 0
  }

  function ComputeDemandTotals(
    totalAssessableAlv: int, propertyTax: int, rates: RateTable, includeWater: bool,
    includeDrainage: bool): DemandTotals
  {
    var waterTax := if includeWater then PercentOf(totalAssessableAlv, rates.waterTaxPct) else 0;
    var drainageTax :=
      if includeDrainage then PercentOf(totalAssessableAlv, rates.drainageTaxPct) else 0;
    var penalty := PenaltyOn(propertyTax, rates.penaltyPct);
    DemandTotals(waterTax, drainageTax, penalty, propertyTax + waterTax + drainageTax + penalty)
  }

  // ---- The engine ----

  function TaxRateKey(zoneCode: string, constructionCode: string): string {
    zoneCode + "::" + constructionCode
  }

  function Lookup(table: map<string, real>, key: string): Option<real> {
    if key in table then Some(table[key]) else None
  }

  function MatrixRate(rates: RateTable, zoneCode: string, constructionCode: string): real {
    Lookup(rates.rateByZoneAndConstruction, TaxRateKey(zoneCode, constructionCode)).GetOr(0.0)
  }

  function OpenLandRate(rates: RateTable, zoneCode: string): real {
    Lookup(rates.rateByZoneAndConstruction, TaxRateKey(zoneCode, "OPEN_LAND"))
    .OrElse(Lookup(rates.anyRateByZone, zoneCode)).GetOr(0.0)
  }

  // ---- The rate table of a tax configuration ----

  /** One cell of the rate matrix. */
  datatype RateCell = RateCell(zoneCode: string, constructionCode: string, rate: real)

  datatype Percentages = Percentages(
    assessable: real, commercialAssessable: real, propertyTax: real, waterTax: real, drainageTax: real, penalty: real)

  function KeyOf(cell: RateCell): string {
    TaxRateKey(cell.zoneCode, cell.constructionCode)
  }

  /** The last rate of each cell. */
  function MatrixOf(cells: seq<RateCell>): map<string, real> {
    if cells == [] then map[]
    else MatrixOf(cells[..|cells| - 1])[KeyOf(cells[|cells| - 1]) := cells[|cells| - 1].rate]
  }

  /** The first positive rate of each zone. */
  function AnyRateOf(cells: seq<RateCell>): map<string, real> {
    if cells == [] then map[]
    else
      var last, before := cells[|cells| - 1], AnyRateOf(cells[..|cells| - 1]);
      if last.zoneCode !in before && last.rate > 0.0 then before[last.zoneCode := last.rate] else before
  }

  function RateTableOf(cells: seq<RateCell>, pct: Percentages): RateTable {
    RateTable(
      pct.assessable, pct.commercialAssessable, pct.propertyTax, pct.waterTax, pct.drainageTax, pct.penalty,
      MatrixOf(cells), AnyRateOf(cells))
  }

  method TaxConfigToRateTable(cells: seq<RateCell>, pct: Percentages) returns (rates: RateTable)
    ensures rates == RateTableOf(cells, pct)
  {
    var matrix: map<string, real>, anyRate: map<string, real> := map[], map[];
    for i := 0 to |cells|
      invariant matrix == MatrixOf(cells[..i]) && anyRate == AnyRateOf(cells[..i])
    {
      assert cells[..i + 1][..i] == cells[..i];
      var cell := cells[i];
      matrix := matrix[KeyOf(cell) := cell.rate];
      if cell.zoneCode !in anyRate && cell.rate > 0.0 {
        anyRate := anyRate[cell.zoneCode := cell.rate];
      }
    }
    assert cells[..|cells|] == cells;
    rates := RateTable(
      pct.assessable, pct.commercialAssessable, pct.propertyTax, pct.waterTax, pct.drainageTax, pct.penalty,
      matrix, anyRate);
  }

  /** The matrix holds the last rate given for a cell. */
  lemma {:induction false} MatrixHoldsLast(cells: seq<RateCell>, i: nat)
    requires i < |cells| && forall j :: i < j < |cells| ==> KeyOf(cells[j]) != KeyOf(cells[i])
    ensures KeyOf(cells[i]) in MatrixOf(cells) && MatrixOf(cells)[KeyOf(cells[i])] == cells[i].rate
    decreases |cells|
  {
    if i < |cells| - 1 {
      MatrixHoldsLast(cells[..|cells| - 1], i);
    }
  }

  predicate PositiveIn(cell: RateCell, zoneCode: string) {
    cell.zoneCode == zoneCode && cell.rate > 0.0
  }

  /** A zone has a rate of any kind exactly when one of its cells is positive. */
  lemma {:induction false} AnyRateIff(cells: seq<RateCell>, zoneCode: string)
    ensures zoneCode in AnyRateOf(cells) <==> exists i :: 0 <= i < |cells| && PositiveIn(cells[i], zoneCode)
    decreases |cells|
  {
    if cells != [] {
      var n := |cells| - 1;
      AnyRateIff(cells[..n], zoneCode);
      if i :| 0 <= i < n && PositiveIn(cells[i], zoneCode) {
        assert PositiveIn(cells[..n][i], zoneCode);
      }
      if zoneCode in AnyRateOf(cells[..n]) {
        var i :| 0 <= i < n && PositiveIn(cells[..n][i], zoneCode);
        assert PositiveIn(cells[i], zoneCode);
      }
    }
  }

  /** It is the first positive one, and that cell is in the matrix as well. */
  lemma {:induction false} AnyRateIsFirst(cells: seq<RateCell>, i: nat)
    requires i < |cells| && PositiveIn(cells[i], cells[i].zoneCode)
    requires forall j :: 0 <= j < i ==> !PositiveIn(cells[j], cells[i].zoneCode)
    ensures cells[i].zoneCode in AnyRateOf(cells) && AnyRateOf(cells)[cells[i].zoneCode] == cells[i].rate
    ensures KeyOf(cells[i]) in MatrixOf(cells)
    decreases |cells|
  {
    var n := |cells| - 1;
    if i < n {
      AnyRateIsFirst(cells[..n], i);
    } else {
      AnyRateIff(cells[..n], cells[i].zoneCode);
    }
  }

  /** The table of a configuration with a single cell. */
  lemma OneCell(cell: RateCell, pct: Percentages)
    requires cell.rate > 0.0
    ensures RateTableOf([cell], pct).rateByZoneAndConstruction
         == map[TaxRateKey(cell.zoneCode, cell.constructionCode) := cell.rate]
    ensures RateTableOf([cell], pct).anyRateByZone == map[cell.zoneCode := cell.rate]
  {
    var cells := [cell];
    assert cells[..|cells| - 1] == [];
    assert MatrixOf([]) == map[] && AnyRateOf([]) == map[];
    assert MatrixOf(cells) == MatrixOf([])[TaxRateKey(cell.zoneCode, cell.constructionCode) := cell.rate];
    assert AnyRateOf(cells) == AnyRateOf([])[cell.zoneCode := cell.rate];
  }

  const BELOW_9M := "BELOW_9M"
  const RCC_ROOF := "PAKKA_BUILDING_WITH_RCC_ROOF"

  /** Mixed properties fall back to the usage of each floor. */
  function RateGisClass(gisClass: Option<GisUseClass>): Option<GisUseClass> {
    if gisClass == Some(Mixed) then None else gisClass
  }

  /** Everything but the floor itself that the charge on a floor depends on. */
  datatype Setting = Setting(zoneCode: string, propertyUse: Option<string>, gisClass: Option<GisUseClass>,
      rates: RateTable)

  function SettingOf(survey: Survey, rates: RateTable): Setting {
    Setting(survey.zoneCode, survey.propertyUse, survey.gisClass, rates)
  }

  function FloorRate(floor: Floor, at: Setting, gisClass: Option<GisUseClass>): int {
    ResolveEffectiveMonthlyRate(
      MatrixRate(at.rates, at.zoneCode, floor.constructionCode),
      floor.usageFactor, floor.usageType, at.propertyUse, gisClass)
  }

  function FloorPct(floor: Floor, at: Setting, gisClass: Option<GisUseClass>): real {
    ResolveAssessablePct(at.propertyUse, floor.usageType, floor.usageFactor, at.rates, gisClass)
  }

  /** What one pass of the engine's floor loop adds; floors without a positive matrix rate add nothing. */
  function FloorCharge(floor: Floor, at: Setting): FloorAlv {
    if MatrixRate(at.rates, at.zoneCode, floor.constructionCode) <= 0.0 then FloorAlv(0, 0, 0)
    else
      var gisClass := RateGisClass(at.gisClass);
      ComputeFloorAlv(
        floor.areaSqFt, FloorRate(floor, at, gisClass) as real, FloorPct(floor, at, gisClass), at.rates.propertyTaxPct)
  }

  function TaxOfFloor(at: Setting): Floor -> int {
    (floor: Floor) => FloorCharge(floor, at).propertyTax
  }

  function AlvOfFloor(at: Setting): Floor -> int {
    (floor: Floor) => FloorCharge(floor, at).assessableAlv
  }

  predicate IsOpenLand(survey: Survey) {
    || survey.gisClass == Some(OpenLand)
    || (survey.gisClass == None && LooksOpenLand(survey.propertyUse.GetOr("")))
  }

  predicate FloorsHaveArea(floors: seq<Floor>) {
    exists i :: 0 <= i < |floors| && floors[i].areaSqFt > 0.0
  }

  /** `plot || built-up || plinth`: the first area that is not 0. */
  function FallbackArea(survey: Survey): real {
    if survey.plotAreaSqFt != 0.0 then survey.plotAreaSqFt
    else if survey.totalBuiltUpAreaSqFt != 0.0 then survey.totalBuiltUpAreaSqFt
    else survey.plinthAreaSqFt
  }

  /** No floor contributes an area, but the plot has one and its zone has a rate. */
  predicate FallbackApplies(survey: Survey, rates: RateTable) {
    && SumBy(survey.floors, AlvOfFloor(SettingOf(survey, rates))) == 0
    && !FloorsHaveArea(survey.floors)
    && OpenLandRate(rates, survey.zoneCode) > 0.0
    && FallbackArea(survey) > 0.0
  }

  function FallbackCharge(survey: Survey, rates: RateTable): FloorAlv {
    ComputeFloorAlv(
      FallbackArea(survey), OpenLandRate(rates, survey.zoneCode),
      ResolveAssessablePct(survey.propertyUse, None, None, rates, survey.gisClass), rates.propertyTaxPct)
  }

  function PlotCharge(survey: Survey, rates: RateTable): int {
    ComputeFloorAlv(survey.plotAreaSqFt, OpenLandRate(rates, survey.zoneCode), 100.0, rates.propertyTaxPct).propertyTax
  }

  predicate HasPlotCharge(survey: Survey, rates: RateTable) {
    survey.plotAreaSqFt > 0.0 && OpenLandRate(rates, survey.zoneCode) > 0.0
  }

  /** Property tax and assessable value before the open-land adjustment. */
  function BuiltTax(survey: Survey, rates: RateTable): int {
    if FallbackApplies(survey, rates) then FallbackCharge(survey, rates).propertyTax
    else SumBy(survey.floors, TaxOfFloor(SettingOf(survey, rates)))
  }

  function BuiltAlv(survey: Survey, rates: RateTable): int {
    if FallbackApplies(survey, rates) then FallbackCharge(survey, rates).assessableAlv
    else SumBy(survey.floors, AlvOfFloor(SettingOf(survey, rates)))
  }

  /** What `computeSurveyExportTax` computes, floors taken as a sum. */
  function ExportTax(survey: Survey, rates: RateTable): (s: TaxSummary)
    ensures s.totalDemand == s.propertyTax + s.waterTax + s.drainageTax + s.penalty
    ensures IsOpenLand(survey) ==> s.waterTax == 0 && s.drainageTax == 0
  {
    if IsOpenLand(survey) then
      var propertyTax :=
        if HasPlotCharge(survey, rates) then PlotCharge(survey, rates) else BuiltTax(survey, rates);
      var penalty := PenaltyOn(propertyTax, rates.penaltyPct);
      TaxSummary(propertyTax, 0, 0, penalty, propertyTax + penalty)
    else
      var totals := ComputeDemandTotals(BuiltAlv(survey, rates), BuiltTax(survey, rates), rates, true, true);
      TaxSummary(
        BuiltTax(survey, rates), totals.waterTax, totals.drainageTax, totals.penalty, totals.totalAnnualDemand)
  }

  /** The engine's floor loop. */
  method ChargeFloors(floors: seq<Floor>, at: Setting)
    returns (propertyTax: int, totalAssessableAlv: int, floorsHaveArea: bool)
    ensures propertyTax == SumBy(floors, TaxOfFloor(at))
    ensures totalAssessableAlv == SumBy(floors, AlvOfFloor(at))
    ensures floorsHaveArea == FloorsHaveArea(floors)
  {
    propertyTax, totalAssessableAlv, floorsHaveArea := 0, 0, false;
    for i := 0 to |floors|
      invariant propertyTax == SumBy(floors[..i], TaxOfFloor(at))
      invariant totalAssessableAlv == SumBy(floors[..i], AlvOfFloor(at))
      invariant floorsHaveArea <==> exists j :: 0 <= j < i && floors[j].areaSqFt > 0.0
    {
      var floor := floors[i];
      SumByTakeNext(floors, i, TaxOfFloor(at));
      SumByTakeNext(floors, i, AlvOfFloor(at));
      floorsHaveArea := floorsHaveArea || floor.areaSqFt > 0.0;
      var baseRate := MatrixRate(at.rates, at.zoneCode, floor.constructionCode);
      if baseRate <= 0.0 {
        continue;
      }
      var rateGisClass := RateGisClass(at.gisClass);
      var monthlyRate := ResolveEffectiveMonthlyRate(
        baseRate, floor.usageFactor, floor.usageType, at.propertyUse, rateGisClass);
      var pct := ResolveAssessablePct(at.propertyUse, floor.usageType, floor.usageFactor, at.rates, rateGisClass);
      var charge := ComputeFloorAlv(floor.areaSqFt, monthlyRate as real, pct, at.rates.propertyTaxPct);
      propertyTax := propertyTax + charge.propertyTax;
      totalAssessableAlv := totalAssessableAlv + charge.assessableAlv;
    }
    assert floors[..|floors|] == floors;
  }

  /** The floor loop, the plot fallback and the open-land replacement, in the source's order. */
  method ComputeSurveyExportTax(survey: Survey, rates: RateTable) returns (summary: Option<TaxSummary>)
    ensures summary.None? <==> Trim(survey.zoneCode) == ""
    ensures summary.Some? ==> summary.value == ExportTax(survey.(zoneCode := Trim(survey.zoneCode)), rates)
  {
    var zoneCode := Trim(survey.zoneCode);
    if zoneCode == "" {
      return None;
    }
    var at := Setting(zoneCode, survey.propertyUse, survey.gisClass, rates);
    var propertyTax, totalAssessableAlv, floorsHaveArea := ChargeFloors(survey.floors, at);
    var openLand := IsOpenLand(survey);
    var openLandRate := OpenLandRate(rates, zoneCode);
    if totalAssessableAlv == 0 && !floorsHaveArea {
      var area := FallbackArea(survey);
      if openLandRate > 0.0 && area > 0.0 {
        var charge := ComputeFloorAlv(
          area, openLandRate, ResolveAssessablePct(survey.propertyUse, None, None, rates, survey.gisClass),
          rates.propertyTaxPct);
        propertyTax, totalAssessableAlv := charge.propertyTax, charge.assessableAlv;
      }
    }

    var totals := ComputeDemandTotals(totalAssessableAlv, propertyTax, rates, !openLand, !openLand);
    var waterTax, drainageTax, penalty := totals.waterTax, totals.drainageTax, totals.penalty;
    var totalDemand := totals.totalAnnualDemand;
    if openLand {
      if survey.plotAreaSqFt > 0.0 && openLandRate > 0.0 {
        propertyTax :=
          ComputeFloorAlv(survey.plotAreaSqFt, openLandRate, 100.0, rates.propertyTaxPct).propertyTax;
      }
      waterTax, drainageTax := 0, 0;
      penalty := PenaltyOn(propertyTax, rates.penaltyPct);
      totalDemand := propertyTax + penalty;
    }
    summary := Some(TaxSummary(propertyTax, waterTax, drainageTax, penalty, totalDemand));
  }
}
