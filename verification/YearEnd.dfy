/** Year-end carry-forward: `previewYearEnd` and `commitYearEnd`. */
module YearEnd {
  import opened Common
  import opened Sums
  import opened LedgerModel

  const PREVIEW_LIMIT: nat := 5000

  predicate IsUnpaid(demands: Demands, yearId: string, surveyId: string) {
    var key := DemandKey(surveyId, yearId);
    IsPublished(demands, key) && demands[key].outstanding > 0
  }

  function OutstandingOf(demands: Demands, yearId: string, surveyId: string): int
    requires IsUnpaid(demands, yearId, surveyId)
  {
    demands[DemandKey(surveyId, yearId)].outstanding
  }

  predicate Distinct(surveys: seq<string>) {
    forall i, j :: 0 <= i < j < |surveys| ==> surveys[i] != surveys[j]
  }

  ghost function UnpaidSurveys(demands: Demands, yearId: string): set<string> {
    set key | key in demands && key.yearId == yearId && IsUnpaid(demands, yearId, key.surveyId) :: key.surveyId
  }

  /** An answer of the preview query: unpaid demands, largest first, at most 5000 of them. */
  ghost predicate IsPreview(demands: Demands, yearId: string, surveys: seq<string>) {
    && Distinct(surveys)
    && (forall i :: 0 <= i < |surveys| ==> IsUnpaid(demands, yearId, surveys[i]))
    && (forall i, j :: 0 <= i < j < |surveys| ==>
                         OutstandingOf(demands, yearId, surveys[i]) >= OutstandingOf(demands, yearId, surveys[j]))
    && |surveys| == Min(PREVIEW_LIMIT, |UnpaidSurveys(demands, yearId)|)
    && (forall surveyId, i :: 0 <= i < |surveys| &&
                              surveyId in UnpaidSurveys(demands, yearId) && surveyId !in surveys ==>
                                OutstandingOf(demands, yearId, surveyId) <= OutstandingOf(demands, yearId, surveys[i]))
  }

  // ---- One row ----

  function NewDraft(amount: int): Demand {
    Demand(Draft, 0, 0, 0, 0, 0, amount, 0, amount, 0, amount, map[])
  }

  function Target(demands: Demands, key: DemandKey, amount: int): Demand {
    if key in demands then demands[key] else NewDraft(amount)
  }

  predicate AlreadyCarried(demands: Demands, key: DemandKey, fromYear: string) {
    key in demands && fromYear in demands[key].rows
  }

  ghost function WithArrear(target: Demand, fromYear: string, amount: int): Demand {
    var arrears := SumMap(target.rows) + amount;
    var totalPayable := target.currentDemand + arrears;
    target.(
    rows := target.rows[fromYear := amount],
    arrears := arrears,
    totalPayable := totalPayable,
    outstanding := Max(0, totalPayable - target.amountPaid))
  }

  ghost function CarryOne(demands: Demands, fromYear: string, toYear: string, surveyId: string, amount: int): Demands {
    var key := DemandKey(surveyId, toYear);
    if AlreadyCarried(demands, key, fromYear) then demands
    else demands[key := WithArrear(Target(demands, key, amount), fromYear, amount)]
  }

  // ---- The whole commit ----

  /** Amounts are those of the preview, read from the demands `before` the transaction. */
  ghost function CarryAll(
    before: Demands, demands: Demands, fromYear: string, toYear: string, surveys: seq<string>): Demands
    requires forall i :: 0 <= i < |surveys| ==> IsUnpaid(before, fromYear, surveys[i])
  {
    if surveys == [] then demands
    else
      var last := surveys[|surveys| - 1];
      CarryOne(
        CarryAll(before, demands, fromYear, toYear, surveys[..|surveys| - 1]), fromYear, toYear, last,
        OutstandingOf(before, fromYear, last))
  }

  ghost function CarriedCount(demands: Demands, fromYear: string, toYear: string, surveys: seq<string>): nat {
    if surveys == [] then 0
    else
      CarriedCount(demands, fromYear, toYear, surveys[..|surveys| - 1])
      + (if AlreadyCarried(demands, DemandKey(surveys[|surveys| - 1], toYear), fromYear) then 0 else 1)
  }

  /** The previewed demands that already have their row. */
  ghost function SkippedCount(demands: Demands, fromYear: string, toYear: string, surveys: seq<string>): nat {
    if surveys == [] then 0
    else
      SkippedCount(demands, fromYear, toYear, surveys[..|surveys| - 1])
      + (if AlreadyCarried(demands, DemandKey(surveys[|surveys| - 1], toYear), fromYear) then 1 else 0)
  }

  lemma {:induction false} CarriedAndSkippedAddUp(
    demands: Demands, fromYear: string, toYear: string, surveys: seq<string>)
    ensures CarriedCount(demands, fromYear, toYear, surveys) + SkippedCount(demands, fromYear, toYear, surveys)
        == |surveys|
  {
    if surveys != [] {
      CarriedAndSkippedAddUp(demands, fromYear, toYear, surveys[..|surveys| - 1]);
    }
  }

  function PreviewTotal(demands: Demands, yearId: string, surveys: seq<string>): int
    requires forall i :: 0 <= i < |surveys| ==> IsUnpaid(demands, yearId, surveys[i])
  {
    if surveys == [] then 0
    else
      PreviewTotal(demands, yearId, surveys[..|surveys| - 1]) + OutstandingOf(demands, yearId, surveys[|surveys| - 1])
  }

  ghost function Summary(demands: Demands, fromYear: string, toYear: string, surveys: seq<string>): YearEndSummary
    requires forall i :: 0 <= i < |surveys| ==> IsUnpaid(demands, fromYear, surveys[i])
  {
    YearEndSummary(
      |surveys|, PreviewTotal(demands, fromYear, surveys),
      CarriedCount(demands, fromYear, toYear, surveys), SkippedCount(demands, fromYear, toYear, surveys))
  }

  /** A year cannot be carried into itself, and a committed pair of years is left alone. */
  ghost function Commit(s: Store, fromYear: string, toYear: string, surveys: seq<string>): Store
    requires IsPreview(s.demands, fromYear, surveys)
  {
    if fromYear == toYear || (fromYear, toYear) in s.runs then s
    else
      s.(
      demands := CarryAll(s.demands, s.demands, fromYear, toYear, surveys),
      runs := s.runs[(fromYear, toYear) := Summary(s.demands, fromYear, toYear, surveys)])
  }
}
