/** What each writer of the ledger puts into a row, column by column. */
module LedgerFields {
  import opened Common
  import opened Sums
  import opened Text
  import opened LedgerModel
  import opened OfflineRules
  import opened OnlinePayments
  import opened LedgerRuns
  import opened LedgerLaws
  import Counter = CounterPayments
  import Pub = Publication
  import Ward = WardPublication
  import YearEnd
  import YearEndLaws
  import A = Assessment
  import R = Receipts
  import ReceiptRows
  import Tax

  // ---- Online creation ----

  /**
   * A published demand is charged its outstanding and linked, anything else the recomputed due; nothing is created for
   * an amount that is not positive or a reference that is taken.
   */
  lemma CreatedPayment(s: Store, reference: string, key: DemandKey, due: int, tokenIssued: bool)
    ensures
      var published := key in s.demands && s.demands[key].status == Published;
      var amount := if published then s.demands[key].outstanding else due;
      OnlinePayments.CreateOnline(s, reference, key, due, tokenIssued)
      == if amount <= 0 || reference in s.payments then s
         else
           s.(payments := s.payments[reference :=
             Payment(
               Online, Some(key.surveyId), Some(key.yearId), if published then Some(key) else None, amount,
               if tokenIssued then Pending else Failed, None, None, None, None, None)])
  {
  }

  // ---- Counter payments ----

  /** A cheque, draft or UPI payment needs a reference. */
  predicate HasReference(request: Counter.OfflineRequest) {
    request.mode in {Cheque, DemandDraft, UpiManual}
    ==> request.reference.Some? && Trim(request.reference.value) != ""
  }

  predicate Affordable(demands: Demands, key: DemandKey, amount: int) {
    key in demands && demands[key].status == Published && 0 < amount <= demands[key].outstanding
  }

  /** A client key that is given and not blank. */
  function KeyOf(request: Counter.OfflineRequest): Option<string> {
    if request.clientKey.Some? && Trim(request.clientKey.value) != "" then Some(Trim(request.clientKey.value)) else None
  }

  /**
   * The pre-check admits exactly an offline mode with its reference, a named survey, a client key not used before, and
   * an amount within the outstanding of a published demand.
   */
  lemma AdmittedIff(s: Store, clerk: string, request: Counter.OfflineRequest)
    requires clerk !in s.counter
    ensures
      var key := DemandKey(request.surveyId, request.yearId);
      clerk in Counter.Begin(s, clerk, request).counter
      <==>
      && request.mode != Online && HasReference(request) && Trim(request.surveyId) != ""
      && (KeyOf(request).None? || forall r :: r in s.payments ==> s.payments[r].clientKey != KeyOf(request))
      && Affordable(s.demands, key, request.amount)
  {
  }

  /** The first of the tests that fails names the refusal. */
  lemma RefusalIs(demands: Demands, request: Counter.OfflineRequest)
    ensures
      var key := DemandKey(request.surveyId, request.yearId);
      && Counter.RequestError(request)
         == (if request.mode == Online then Some(UseOnlineEndpoint)
             else if Trim(request.surveyId) == "" then Some(SurveyRequired)
             else if !HasReference(request) then Some(ReferenceRequired)
             else None)
      && Counter.PreCheck(demands, request)
         == (if key !in demands || demands[key].status != Published then Some(DemandUnpublished)
             else if request.amount <= 0 then Some(InvalidAmount)
             else if demands[key].outstanding <= 0 then Some(NoOutstanding)
             else if request.amount > demands[key].outstanding then Some(AmountExceedsOutstanding)
             else None)
  {
  }

  /** What the admitted request carries into the commit. */
  lemma AdmittedRequest(s: Store, clerk: string, request: Counter.OfflineRequest)
    requires clerk !in s.counter && clerk in Counter.Begin(s, clerk, request).counter
    ensures
      var admitted := Counter.Begin(s, clerk, request).counter[clerk];
      && admitted.key == DemandKey(request.surveyId, request.yearId) && admitted.amount == request.amount
      && admitted.mode == request.mode && admitted.clientKey == KeyOf(request)
      && admitted.receiptNumber
         == if request.receiptNumber.Some? && Trim(request.receiptNumber.value) != "" then
              Some(Trim(request.receiptNumber.value))
            else None
  {
  }

  /** Under the lock the amount is checked again, and reference, receipt number and client key must be new. */
  lemma RecordedIff(s: Store, request: CounterRequest, reference: string)
    ensures
      var receiptNumber := if request.receiptNumber.Some? then request.receiptNumber.value else reference;
      Counter.Commits(s, request, reference)
      <==>
      && Affordable(s.demands, request.key, request.amount)
      && reference !in s.payments
      && (forall r :: r in s.payments ==> s.payments[r].receiptNumber != Some(receiptNumber))
      && (request.clientKey.None? || forall r :: r in s.payments ==> s.payments[r].clientKey != request.clientKey)
  {
  }

  /** The snapshot shows the demand as it was, the amount, and the balance after it. */
  predicate Shows(snapshot: Snapshot, d: Demand, amount: int) {
    && snapshot.propertyTax == d.propertyTax && snapshot.waterTax == d.waterTax
    && snapshot.drainageTax == d.drainageTax && snapshot.penalty == d.penalty && snapshot.rebate == d.rebate
    && snapshot.arrears == d.arrears && snapshot.currentDemand == d.currentDemand
    && snapshot.totalPayable == d.totalPayable
    && snapshot.amountReceived == amount && snapshot.amountPaidAfter == d.amountPaid + amount
    && snapshot.outstandingAfter == Max(0, d.totalPayable - d.amountPaid - amount)
  }

  /** A recorded counter payment is at SUCCESS, linked to its demand, with a snapshot of it. */
  lemma RecordedPayment(s: Store, clerk: string, reference: string, now: nat)
    requires clerk in s.counter && Counter.Commits(s, s.counter[clerk], reference)
    ensures
      var request := s.counter[clerk];
      var after := Counter.Commit(s, clerk, reference, now);
      && reference in after.payments
      && var p := after.payments[reference];
      && p.mode == request.mode && p.status == Success && p.amount == request.amount
      && p.surveyId == Some(request.key.surveyId) && p.yearId == Some(request.key.yearId)
      && p.demand == Some(request.key) && p.clientKey == request.clientKey && p.collectionDate == Some(now)
      && p.receiptNumber == Some(if request.receiptNumber.Some? then request.receiptNumber.value else reference)
      && p.snapshot.Some? && Shows(p.snapshot.value, s.demands[request.key], request.amount)
      && p.snapshot.value.yearId == request.key.yearId && p.snapshot.value.surveyId == Some(request.key.surveyId)
      && p.snapshot.value.mode == request.mode && Some(p.snapshot.value.receiptNumber) == p.receiptNumber
      && p.snapshot.value.paidAt == now
      && clerk !in after.counter
  {
  }

  /** The receipt of a counter payment shows the arrears of its demand first. */
  lemma CounterReceiptShowsArrears(s: Store, clerk: string, reference: string, now: nat)
    requires Inv(s) && clerk in s.counter && Counter.Commits(s, s.counter[clerk], reference)
    ensures
      var d, amount := s.demands[s.counter[clerk].key], s.counter[clerk].amount;
      var snapshot := Counter.Commit(s, clerk, reference, now).payments[reference].snapshot;
      snapshot.Some?
      && R.RowOf(InputOf(snapshot.value)).arrearsApplied
         == Min(d.arrears, d.amountPaid + amount) - Min(d.arrears, d.amountPaid)
  {
    RecordedPayment(s, clerk, reference, now);
    var d := s.demands[s.counter[clerk].key];
    assert DemandOk(d);
    var input := InputOf(Counter.Commit(s, clerk, reference, now).payments[reference].snapshot.value);
    ReceiptRows.RowIs(input);
  }

  // ---- Online success ----

  /** The first success of an online payment freezes the demand it is credited to. */
  lemma CreditedSnapshot(
    demands: Demands, reference: string, p: Payment, status: PaymentStatus, atomTxnId: Option<string>, now: nat,
    key: DemandKey)
    requires PaymentOk(p) && p.status != Success && IsPublished(demands, key)
    requires p.surveyId == Some(key.surveyId) && p.yearId == Some(key.yearId)
    ensures
      var p' := SettledPayment(demands, reference, p, true, status, atomTxnId, now);
      && p'.demand == Some(key) && p'.snapshot.Some? && Shows(p'.snapshot.value, demands[key], p.amount)
      && p'.snapshot.value.mode == p.mode && p'.snapshot.value.surveyId == p.surveyId
  {
    CreditKeyIff(demands, p, true, key);
  }

  // ---- Publication ----

  /** A published demand shows the taxes of its survey, the assessment of its rules, and what was paid. */
  lemma PublishedDemandOf(
    s: Store, key: DemandKey, survey: Tax.Survey, table: Tax.RateTable, rules: seq<A.Rule>, preserveArrears: bool)
    ensures
      var taxes := Tax.ExportTax(survey, table);
      var base := A.TaxBase(taxes.propertyTax, taxes.waterTax, taxes.drainageTax, taxes.penalty);
      var arrears := if preserveArrears && key in s.demands then s.demands[key].arrears else 0;
      var a := A.Assess(base, rules, arrears, PaidFor(s.payments, key));
      var after := Pub.Upsert(s, key, Ward.BaseOf(survey, table), rules, preserveArrears);
      && key in after.demands
      && var d := after.demands[key];
      && d.status == Published && d.propertyTax == taxes.propertyTax && d.waterTax == taxes.waterTax
      && d.drainageTax == taxes.drainageTax && d.penalty == a.penalty && d.rebate == a.rebate
      && d.currentDemand == a.currentDemand && d.arrears == a.arrears && d.totalPayable == a.totalPayable
      && d.amountPaid == a.amountPaid && d.outstanding == a.outstanding
      && d.rows == (if key in s.demands then s.demands[key].rows else map[])
      && after == s.(demands := s.demands[key := d])
  {
  }

  // ---- Year end ----

  /** A target that did not exist is a draft that owes the carried amount and nothing else. */
  lemma CreatedTarget(s: Store, fromYear: string, toYear: string, surveys: seq<string>, surveyId: string)
    requires YearEnd.IsPreview(s.demands, fromYear, surveys)
    requires fromYear != toYear && (fromYear, toYear) !in s.runs && surveyId in surveys
    requires DemandKey(surveyId, toYear) !in s.demands
    ensures
      var key, amount := DemandKey(surveyId, toYear), s.demands[DemandKey(surveyId, fromYear)].outstanding;
      var after := YearEnd.Commit(s, fromYear, toYear, surveys).demands;
      && key in after
      && after[key] == Demand(Draft, 0, 0, 0, 0, 0, amount, 0, amount, 0, amount, map[fromYear := amount])
  {
    YearEndLaws.CarryAllRow(s.demands, s.demands, fromYear, toYear, surveys, DemandKey(surveyId, toYear));
    assert SumMap<string>(map[]) == 0;
  }

  /** A target that existed gets the row, and its totals follow its rows; every other column stays. */
  lemma CarriedTarget(s: Store, fromYear: string, toYear: string, surveys: seq<string>, surveyId: string)
    requires YearEnd.IsPreview(s.demands, fromYear, surveys)
    requires fromYear != toYear && (fromYear, toYear) !in s.runs && surveyId in surveys
    requires DemandKey(surveyId, toYear) in s.demands && fromYear !in s.demands[DemandKey(surveyId, toYear)].rows
    ensures
      var key, amount := DemandKey(surveyId, toYear), s.demands[DemandKey(surveyId, fromYear)].outstanding;
      var d, after := s.demands[key], YearEnd.Commit(s, fromYear, toYear, surveys).demands;
      var arrears := SumMap(d.rows) + amount;
      && key in after
      && after[key] == Demand(
                         d.status, d.propertyTax, d.waterTax, d.drainageTax, d.penalty, d.rebate, arrears,
                         d.currentDemand, d.currentDemand + arrears, d.amountPaid,
                         Max(0, d.currentDemand + arrears - d.amountPaid), d.rows[fromYear := amount])
  {
    YearEndLaws.CarryAllRow(s.demands, s.demands, fromYear, toYear, surveys, DemandKey(surveyId, toYear));
  }

  function OwedIn(demands: Demands, yearId: string): string -> int {
    (surveyId: string) =>
      var key := DemandKey(surveyId, yearId);
      if key in demands then demands[key].outstanding else 0
  }

  function NewIn(demands: Demands, fromYear: string, toYear: string): string -> int {
    (surveyId: string) =>
      var key := DemandKey(surveyId, toYear);
      if key in demands && fromYear in demands[key].rows then 0 else 1
  }

  lemma {:induction false} TotalsAreSums(demands: Demands, fromYear: string, toYear: string, surveys: seq<string>)
    requires YearEndLaws.AllUnpaid(demands, fromYear, surveys)
    ensures YearEnd.PreviewTotal(demands, fromYear, surveys) == SumBy(surveys, OwedIn(demands, fromYear))
    ensures YearEnd.CarriedCount(demands, fromYear, toYear, surveys) == SumBy(surveys, NewIn(demands, fromYear, toYear))
  {
    if surveys != [] {
      TotalsAreSums(demands, fromYear, toYear, surveys[..|surveys| - 1]);
    }
  }

  /** The record of a commit: how many were previewed, what they owed in all, and how many got a row of the year. */
  lemma CommittedSummary(s: Store, fromYear: string, toYear: string, surveys: seq<string>)
    requires YearEnd.IsPreview(s.demands, fromYear, surveys)
    requires fromYear != toYear && (fromYear, toYear) !in s.runs
    ensures
      var after := YearEnd.Commit(s, fromYear, toYear, surveys);
      && after.runs.Keys == s.runs.Keys + {(fromYear, toYear)}
      && after.payments == s.payments
      && var summary := after.runs[(fromYear, toYear)];
      && summary.count == |surveys| && summary.carried + summary.skipped == |surveys|
      && summary.totalArrears == SumBy(surveys, OwedIn(s.demands, fromYear))
      && summary.carried == SumBy(surveys, NewIn(s.demands, fromYear, toYear))
  {
    TotalsAreSums(s.demands, fromYear, toYear, surveys);
    YearEnd.CarriedAndSkippedAddUp(s.demands, fromYear, toYear, surveys);
  }
}
