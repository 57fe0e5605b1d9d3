/** What each class of property is charged, with the numbers of the tax rules written out. */
module TaxClasses {
  import opened Common
  import opened Sums
  import opened Tax
  import opened Text

  // ---- Rates, multiples and assessable parts ----

  /** The matrix rate of a zone and construction; 0 where the matrix has none. */
  function CellRate(rates: RateTable, zoneCode: string, constructionCode: string): real {
    var key := zoneCode + "::" + constructionCode;
    if key in rates.rateByZoneAndConstruction then rates.rateByZoneAndConstruction[key] else 0.0
  }

  predicate Says(text: string, word: string) {
    Includes(LowerCase(text), word)
  }

  predicate ShopLike(text: string) {
    Says(text, "commercial") || Says(text, "shop") || Says(text, "godown") || Says(text, "non-res")
  }

  /** The floor's own usage type; only without one its usage factor and the use of the property. */
  function UsageText(floor: Floor, propertyUse: Option<string>): string {
    if floor.usageType.Some? && Trim(floor.usageType.value) != "" then Trim(floor.usageType.value)
    else
      (if floor.usageFactor.Some? then floor.usageFactor.value else "") + " "
      + (if propertyUse.Some? then propertyUse.value else "")
  }

  /** Shops pay twice the matrix rate. */
  function Multiple(floor: Floor, at: Setting): (multiple: real)
    ensures multiple >= 1.0
  {
    match at.gisClass
    case Some(Commercial) => 2.0
    case Some(Residential) => 1.0
    case Some(OpenLand) => 1.0
    case _ => if ShopLike(UsageText(floor, at.propertyUse)) then 2.0 else 1.0
  }

  /** The percentage of the annual value that is assessed. */
  function AssessedPct(floor: Floor, at: Setting): real {
    match at.gisClass
    case Some(Commercial) => at.rates.commercialAssessablePct
    case Some(Residential) => at.rates.assessablePct
    case Some(OpenLand) => 100.0
    case _ =>
      if Says(UsageText(floor, at.propertyUse), "open") then 100.0
      else if ShopLike(UsageText(floor, at.propertyUse)) then at.rates.commercialAssessablePct
      else at.rates.assessablePct
  }

  predicate Word(w: string) {
    w != "" && !IsSpace(w[0]) && !IsSpace(w[|w| - 1])
  }

  /** The engine looks for a word in the same text. */
  lemma KeySaysWord(floor: Floor, propertyUse: Option<string>, w: string)
    requires Word(w)
    ensures Includes(LowerCase(HeuristicUsageKey(floor.usageType, floor.usageFactor, propertyUse)), w)
       <==> Says(UsageText(floor, propertyUse), w)
  {
    var text := UsageText(floor, propertyUse);
    var lower := LowerCase(text);
    LowerCaseTwice(text);
    LowerCaseTwice(Trim(lower));
    if Trim(floor.usageType.GetOr("")) == "" {
      TrimKeepsLower(lower);
      if Includes(lower, w) {
        IncludesTrim(lower, w);
      }
      if Includes(Trim(lower), w) {
        IncludesOfTrim(lower, w);
      }
    }
  }

  /** Trimming a lower-case text leaves it lower-case. */
  lemma TrimKeepsLower(s: string)
    requires LowerCase(s) == s
    ensures LowerCase(Trim(s)) == Trim(s)
  {
    var inner, t := TrimStart(s), Trim(s);
    TrimStartIsSuffix(s);
    forall i | 0 <= i < |t| ensures Lower(t[i]) == t[i] {
      assert t[i] == inner[i] == s[|s| - |inner| + i];
      assert LowerCase(s)[|s| - |inner| + i] == s[|s| - |inner| + i];
    }
  }

  lemma KeyIsShopLike(floor: Floor, propertyUse: Option<string>)
    ensures LooksCommercial(HeuristicUsageKey(floor.usageType, floor.usageFactor, propertyUse))
       <==> ShopLike(UsageText(floor, propertyUse))
    ensures LooksOpenLand(HeuristicUsageKey(floor.usageType, floor.usageFactor, propertyUse))
       <==> Says(UsageText(floor, propertyUse), "open")
  {
    KeySaysWord(floor, propertyUse, "commercial");
    KeySaysWord(floor, propertyUse, "shop");
    KeySaysWord(floor, propertyUse, "godown");
    KeySaysWord(floor, propertyUse, "non-res");
    KeySaysWord(floor, propertyUse, "open");
  }

  lemma CellNumber(floor: Floor, at: Setting)
    ensures MatrixRate(at.rates, at.zoneCode, floor.constructionCode)
         == CellRate(at.rates, at.zoneCode, floor.constructionCode)
  {
  }

  lemma MultipleNumber(floor: Floor, at: Setting)
    ensures ResolveUsageRateMult(floor.usageFactor, floor.usageType, at.propertyUse, RateGisClass(at.gisClass))
         == Multiple(floor, at)
  {
    KeyIsShopLike(floor, at.propertyUse);
  }

  lemma PctNumber(floor: Floor, at: Setting)
    ensures FloorPct(floor, at, RateGisClass(at.gisClass)) == AssessedPct(floor, at)
  {
    KeyIsShopLike(floor, at.propertyUse);
  }

  // ---- What a floor is charged ----

  /** Twelve months' rent at the rate, its assessed part, and the property tax on that, each in whole paise. */
  function Charged(areaSqFt: real, rate: real, assessedPct: real, propertyTaxPct: real): FloorAlv {
    var gross := RoundPaise(areaSqFt * rate * 12.0);
    var alv := RoundPaise(gross as real * (assessedPct / 100.0));
    FloorAlv(gross, alv, RoundPaise(alv as real * (propertyTaxPct / 100.0)))
  }

  lemma ChargedAlike(areaSqFt: real, rate: real, assessedPct: real, propertyTaxPct: real)
    ensures ComputeFloorAlv(areaSqFt, rate, assessedPct, propertyTaxPct)
         == Charged(areaSqFt, rate, assessedPct, propertyTaxPct)
  {
  }

  /** The matrix rate times its multiple, in whole paise. */
  function MonthlyRate(rate: real, multiple: real): int {
    RoundPaise(rate * multiple)
  }

  /** A floor whose zone and construction have no positive rate is charged nothing. */
  function FloorCharged(floor: Floor, at: Setting): FloorAlv {
    var rate := CellRate(at.rates, at.zoneCode, floor.constructionCode);
    if rate <= 0.0 then FloorAlv(0, 0, 0)
    else
      Charged(
        floor.areaSqFt, MonthlyRate(rate, Multiple(floor, at)) as real, AssessedPct(floor, at), at.rates.propertyTaxPct)
  }

  lemma EffectiveRateIs(
    base: real, usageFactor: Option<string>, usageType: Option<string>, propertyUse: Option<string>,
    gisClass: Option<GisUseClass>)
    ensures ResolveEffectiveMonthlyRate(base, usageFactor, usageType, propertyUse, gisClass)
         == MonthlyRate(base, ResolveUsageRateMult(usageFactor, usageType, propertyUse, gisClass))
  {
  }

  lemma RateNumber(floor: Floor, at: Setting)
    ensures FloorRate(floor, at, RateGisClass(at.gisClass))
         == MonthlyRate(CellRate(at.rates, at.zoneCode, floor.constructionCode), Multiple(floor, at))
  {
    CellNumber(floor, at);
    MultipleNumber(floor, at);
    EffectiveRateIs(
      MatrixRate(at.rates, at.zoneCode, floor.constructionCode), floor.usageFactor, floor.usageType, at.propertyUse,
      RateGisClass(at.gisClass));
  }

  lemma ChargeOfNumbers(floor: Floor, at: Setting, monthly: int, pct: real)
    requires FloorRate(floor, at, RateGisClass(at.gisClass)) == monthly
    requires FloorPct(floor, at, RateGisClass(at.gisClass)) == pct
    ensures FloorCharge(floor, at)
         == if MatrixRate(at.rates, at.zoneCode, floor.constructionCode) <= 0.0 then FloorAlv(0, 0, 0)
            else ComputeFloorAlv(floor.areaSqFt, monthly as real, pct, at.rates.propertyTaxPct)
  {
  }

  lemma FloorIsCharged(floor: Floor, at: Setting)
    ensures FloorCharge(floor, at) == FloorCharged(floor, at)
  {
    var monthly := MonthlyRate(CellRate(at.rates, at.zoneCode, floor.constructionCode), Multiple(floor, at));
    CellNumber(floor, at);
    RateNumber(floor, at);
    PctNumber(floor, at);
    ChargeOfNumbers(floor, at, monthly, AssessedPct(floor, at));
    ChargedAlike(floor.areaSqFt, monthly as real, AssessedPct(floor, at), at.rates.propertyTaxPct);
  }

  lemma ChargedAtNumbers(floor: Floor, at: Setting, multiple: real)
    requires CellRate(at.rates, at.zoneCode, floor.constructionCode) > 0.0 && Multiple(floor, at) == multiple
    ensures FloorCharge(floor, at)
         == Charged(
              floor.areaSqFt, MonthlyRate(CellRate(at.rates, at.zoneCode, floor.constructionCode), multiple) as real,
              AssessedPct(floor, at), at.rates.propertyTaxPct)
  {
    FloorIsCharged(floor, at);
  }

  /** A floor of a commercial property is charged twice the matrix rate at the commercial percentage. */
  lemma CommercialFloor(floor: Floor, at: Setting)
    requires at.gisClass == Some(Commercial) && CellRate(at.rates, at.zoneCode, floor.constructionCode) > 0.0
    ensures FloorCharge(floor, at)
         == Charged(
              floor.areaSqFt, MonthlyRate(CellRate(at.rates, at.zoneCode, floor.constructionCode), 2.0) as real,
              at.rates.commercialAssessablePct, at.rates.propertyTaxPct)
  {
    ChargedAtNumbers(floor, at, 2.0);
  }

  /** A floor of a residential property is charged the matrix rate once, whatever its usage texts say. */
  lemma ResidentialFloor(floor: Floor, at: Setting)
    requires at.gisClass == Some(Residential) && CellRate(at.rates, at.zoneCode, floor.constructionCode) > 0.0
    ensures FloorCharge(floor, at)
         == Charged(
              floor.areaSqFt, MonthlyRate(CellRate(at.rates, at.zoneCode, floor.constructionCode), 1.0) as real,
              at.rates.assessablePct, at.rates.propertyTaxPct)
  {
    ChargedAtNumbers(floor, at, 1.0);
  }

  /**
   * In a mixed or unclassified property a floor with its own usage type is charged by that type alone: like a shop, at
   * the full value where it says "open", else like a house.
   */
  lemma FloorByItsOwnUse(floor: Floor, at: Setting)
    requires at.gisClass == Some(Mixed) || at.gisClass == None
    requires CellRate(at.rates, at.zoneCode, floor.constructionCode) > 0.0
    requires floor.usageType.Some? && Trim(floor.usageType.value) != ""
    ensures
      var rate, use := CellRate(at.rates, at.zoneCode, floor.constructionCode), Trim(floor.usageType.value);
      FloorCharge(floor, at)
      == Charged(
           floor.areaSqFt, MonthlyRate(rate, if ShopLike(use) then 2.0 else 1.0) as real,
           if Says(use, "open") then 100.0
           else if ShopLike(use) then at.rates.commercialAssessablePct
           else at.rates.assessablePct,
           at.rates.propertyTaxPct)
  {
    ChargedAtNumbers(floor, at, if ShopLike(Trim(floor.usageType.value)) then 2.0 else 1.0);
  }

  // ---- What a survey is charged ----

  function TaxAt(at: Setting): Floor -> int {
    (floor: Floor) => FloorCharged(floor, at).propertyTax
  }

  function AlvAt(at: Setting): Floor -> int {
    (floor: Floor) => FloorCharged(floor, at).assessableAlv
  }

  lemma FloorsAreCharged(floors: seq<Floor>, at: Setting)
    ensures SumBy(floors, TaxOfFloor(at)) == SumBy(floors, TaxAt(at))
    ensures SumBy(floors, AlvOfFloor(at)) == SumBy(floors, AlvAt(at))
  {
    forall i | 0 <= i < |floors|
      ensures TaxOfFloor(at)(floors[i]) == TaxAt(at)(floors[i])
      ensures AlvOfFloor(at)(floors[i]) == AlvAt(at)(floors[i])
    {
      FloorIsCharged(floors[i], at);
    }
    SumBySame(floors, TaxOfFloor(at), TaxAt(at));
    SumBySame(floors, AlvOfFloor(at), AlvAt(at));
  }

  predicate OpenLandProperty(survey: Survey) {
    || survey.gisClass == Some(OpenLand)
    || (survey.gisClass == None && survey.propertyUse.Some? && Says(survey.propertyUse.value, "open"))
  }

  /** The zone's own rate for open land, else its first positive rate. */
  function PlotRate(rates: RateTable, zoneCode: string): real {
    var key := zoneCode + "::" + "OPEN_LAND";
    if key in rates.rateByZoneAndConstruction then rates.rateByZoneAndConstruction[key]
    else if zoneCode in rates.anyRateByZone then rates.anyRateByZone[zoneCode]
    else 0.0
  }

  function Penalty(propertyTax: int, penaltyPct: real): int {
    if penaltyPct <= 0.0 then 0 else RoundPaise(propertyTax as real * (penaltyPct / 100.0))
  }

  /** Water and drainage are percentages of the assessed value, the penalty one of the property tax. */
  predicate TaxesOf(s: TaxSummary, tax: int, alv: int, rates: RateTable) {
    && s.propertyTax == tax
    && s.waterTax == RoundPaise(alv as real * (rates.waterTaxPct / 100.0))
    && s.drainageTax == RoundPaise(alv as real * (rates.drainageTaxPct / 100.0))
    && s.penalty == Penalty(tax, rates.penaltyPct)
    && s.totalDemand == s.propertyTax + s.waterTax + s.drainageTax + s.penalty
  }

  lemma TaxesOfTotals(survey: Survey, rates: RateTable, tax: int, alv: int)
    requires !IsOpenLand(survey) && BuiltTax(survey, rates) == tax && BuiltAlv(survey, rates) == alv
    ensures TaxesOf(ExportTax(survey, rates), tax, alv, rates)
  {
  }

  /** The plot, else the built-up area, else the plinth. */
  function SomeArea(survey: Survey): real {
    if survey.plotAreaSqFt != 0.0 then survey.plotAreaSqFt
    else if survey.totalBuiltUpAreaSqFt != 0.0 then survey.totalBuiltUpAreaSqFt
    else survey.plinthAreaSqFt
  }

  predicate Measured(floors: seq<Floor>) {
    exists i :: 0 <= i < |floors| && floors[i].areaSqFt > 0.0
  }

  /** No floor has an area or adds a value, but the survey has some area and its zone a rate. */
  predicate ChargedByArea(survey: Survey, rates: RateTable) {
    && !Measured(survey.floors) && SumBy(survey.floors, AlvAt(SettingOf(survey, rates))) == 0
    && SomeArea(survey) > 0.0 && PlotRate(rates, survey.zoneCode) > 0.0
  }

  /** A floor without texts: only class and use of the property speak. */
  const NoTexts := Floor("", "", None, None, 0.0)

  function AreaCharged(survey: Survey, rates: RateTable): FloorAlv {
    Charged(
      SomeArea(survey), PlotRate(rates, survey.zoneCode), AssessedPct(NoTexts, SettingOf(survey, rates)),
      rates.propertyTaxPct)
  }

  function FloorsTax(survey: Survey, rates: RateTable): int {
    if ChargedByArea(survey, rates) then AreaCharged(survey, rates).propertyTax
    else SumBy(survey.floors, TaxAt(SettingOf(survey, rates)))
  }

  function FloorsAlv(survey: Survey, rates: RateTable): int {
    if ChargedByArea(survey, rates) then AreaCharged(survey, rates).assessableAlv
    else SumBy(survey.floors, AlvAt(SettingOf(survey, rates)))
  }

  lemma AreaIsCharged(survey: Survey, rates: RateTable)
    ensures FallbackCharge(survey, rates) == AreaCharged(survey, rates)
  {
    var at := SettingOf(survey, rates);
    PctNumber(NoTexts, at);
    assert ResolveAssessablePct(survey.propertyUse, None, None, rates, survey.gisClass) == AssessedPct(NoTexts, at);
    ChargedAlike(SomeArea(survey), PlotRate(rates, survey.zoneCode), AssessedPct(NoTexts, at), rates.propertyTaxPct);
  }

  lemma ByAreaIff(survey: Survey, rates: RateTable)
    ensures FallbackApplies(survey, rates) <==> ChargedByArea(survey, rates)
  {
    FloorsAreCharged(survey.floors, SettingOf(survey, rates));
  }

  lemma TotalsAre(survey: Survey, rates: RateTable)
    ensures BuiltTax(survey, rates) == FloorsTax(survey, rates) && BuiltAlv(survey, rates) == FloorsAlv(survey, rates)
  {
    ByAreaIff(survey, rates);
    AreaIsCharged(survey, rates);
    FloorsAreCharged(survey.floors, SettingOf(survey, rates));
  }

  /**
   * Built property is charged the sum over its floors or, where they have no area, its own area; water and drainage by
   * their own percentages of the assessed value.
   */
  lemma BuiltPropertyIsCharged(survey: Survey, rates: RateTable)
    requires !OpenLandProperty(survey)
    ensures TaxesOf(ExportTax(survey, rates), FloorsTax(survey, rates), FloorsAlv(survey, rates), rates)
  {
    assert !IsOpenLand(survey);
    TotalsAre(survey, rates);
    TaxesOfTotals(survey, rates, FloorsTax(survey, rates), FloorsAlv(survey, rates));
  }

  lemma PenaltyIs(propertyTax: int, penaltyPct: real)
    ensures PenaltyOn(propertyTax, penaltyPct) == Penalty(propertyTax, penaltyPct)
  {
  }

  lemma TaxesOfOpenLand(survey: Survey, rates: RateTable, tax: int)
    requires IsOpenLand(survey)
    requires tax == if HasPlotCharge(survey, rates) then PlotCharge(survey, rates) else BuiltTax(survey, rates)
    ensures var penalty := Penalty(tax, rates.penaltyPct);
            ExportTax(survey, rates) == TaxSummary(tax, 0, 0, penalty, tax + penalty)
  {
    PenaltyIs(tax, rates.penaltyPct);
  }

  lemma PlotIsCharged(survey: Survey, rates: RateTable)
    ensures HasPlotCharge(survey, rates) <==> survey.plotAreaSqFt > 0.0 && PlotRate(rates, survey.zoneCode) > 0.0
    ensures PlotCharge(survey, rates)
         == Charged(survey.plotAreaSqFt, PlotRate(rates, survey.zoneCode), 100.0, rates.propertyTaxPct).propertyTax
  {
    ChargedAlike(survey.plotAreaSqFt, PlotRate(rates, survey.zoneCode), 100.0, rates.propertyTaxPct);
  }

  /** Open land is charged its plot at the full value, without one like built property, and no water or drainage. */
  lemma OpenLandIsCharged(survey: Survey, rates: RateTable)
    requires OpenLandProperty(survey)
    ensures
      var rate := PlotRate(rates, survey.zoneCode);
      var tax :=
        if survey.plotAreaSqFt > 0.0 && rate > 0.0 then
          Charged(survey.plotAreaSqFt, rate, 100.0, rates.propertyTaxPct).propertyTax
        else FloorsTax(survey, rates);
      var penalty := Penalty(tax, rates.penaltyPct);
      ExportTax(survey, rates) == TaxSummary(tax, 0, 0, penalty, tax + penalty)
  {
    PlotIsCharged(survey, rates);
    TotalsAre(survey, rates);
    TaxesOfOpenLand(
      survey, rates, if HasPlotCharge(survey, rates) then PlotCharge(survey, rates) else FloorsTax(survey, rates));
  }

  lemma ShopNumbers()
    ensures MonthlyRate(100.0, 2.0) == 200
    ensures Charged(1000.0, 200.0, 60.0, 10.0) == FloorAlv(2400000, 1440000, 144000)
    ensures RoundPaise(1440000 as real * (5.0 / 100.0)) == 72000
    ensures RoundPaise(1440000 as real * (2.5 / 100.0)) == 36000
  {
  }

  /** A shop of 1000 square feet at one rupee, 80 percent assessed for houses and 60 for shops: 1440 rupees of tax. */
  lemma CommercialInstance()
    ensures
      var cell := RateCell(BELOW_9M, RCC_ROOF, 100.0);
      var rates := RateTableOf([cell], Percentages(80.0, 60.0, 10.0, 5.0, 2.5, 0.0));
      var floor := Floor("Ground Floor", RCC_ROOF, None, None, 1000.0);
      ExportTax(Survey(Some(Commercial), BELOW_9M, None, [floor], 0.0, 0.0, 0.0), rates)
      == TaxSummary(144000, 72000, 36000, 0, 252000)
  {
    var cell, pct := RateCell(BELOW_9M, RCC_ROOF, 100.0), Percentages(80.0, 60.0, 10.0, 5.0, 2.5, 0.0);
    var rates := RateTableOf([cell], pct);
    var floor := Floor("Ground Floor", RCC_ROOF, None, None, 1000.0);
    var survey := Survey(Some(Commercial), BELOW_9M, None, [floor], 0.0, 0.0, 0.0);
    var at := SettingOf(survey, rates);
    OneCell(cell, pct);
    assert survey.floors[0].areaSqFt > 0.0;
    assert [floor][..0] == [];
    ShopNumbers();
    assert FloorCharged(floor, at) == Charged(1000.0, 200.0, 60.0, 10.0);
    assert SumBy([floor], TaxAt(at)) == 144000 && SumBy([floor], AlvAt(at)) == 1440000;
    BuiltPropertyIsCharged(survey, rates);
  }
}
