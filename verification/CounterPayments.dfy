/**
 * Payments at the counter (`createOffline`): a pre-check without a lock, then a commit
 * that locks the demand row and checks again. Other requests may run in between.
 */
module CounterPayments {
  import opened Common
  import opened Text
  import opened LedgerModel
  import opened OfflineRules

  /** `yearId` is the year the demand lookup settles on. */
  datatype OfflineRequest = OfflineRequest(
    amount: int, mode: PaymentMode, reference: Option<string>, surveyId: string, yearId: string,
    receiptNumber: Option<string>, clientKey: Option<string>)

  /** `value?.trim() || null`. */
  function Cleaned(value: Option<string>): Option<string> {
    if Trim(value.GetOr("")) == "" then None else Some(Trim(value.GetOr("")))
  }

  datatype Reply = Admitted | Replayed(reference: string) | Refused(error: OfflineError) | Recorded(reference: string)

  /** The pre-check's refusal, or None when the request is admitted. */
  function PreCheck(demands: Demands, request: OfflineRequest): Option<OfflineError> {
    var key := DemandKey(request.surveyId, request.yearId);
    if !IsPublished(demands, key) then Some(DemandUnpublished)
    else CheckAmount(request.amount, demands[key].outstanding)
  }

  function RequestError(request: OfflineRequest): Option<OfflineError> {
    if request.mode == Online then Some(UseOnlineEndpoint)
    else if Trim(request.surveyId) == "" then Some(SurveyRequired)
    else CheckModeAndReference(request.mode, request.reference)
  }

  function Begin(s: Store, clerk: string, request: OfflineRequest): Store {
    if clerk in s.counter || RequestError(request).Some?
        || ClientKeyTaken(s.payments, Cleaned(request.clientKey)) then s
    else if PreCheck(s.demands, request).Some? then s
    else s.(counter := s.counter[clerk := CounterRequest(
                                   DemandKey(request.surveyId, request.yearId), request.amount, request.mode,
                                   Cleaned(request.receiptNumber), Cleaned(request.clientKey))])
  }

  // ---- The locked commit ----

  function NewCounterPayment(d: Demand, request: CounterRequest, reference: string, now: nat): Payment {
    var receiptNumber := request.receiptNumber.GetOr(reference);
    var balance := OutstandingAfterPayment(d.totalPayable, d.amountPaid, request.amount);
    Payment(
      request.mode, Some(request.key.surveyId), Some(request.key.yearId), Some(request.key), request.amount, Success,
      None, Some(receiptNumber), Some(now),
      Some(SnapshotOf(
             d, request.key, Some(request.key.surveyId), request.amount, balance, request.mode, receiptNumber, now)),
      request.clientKey)
  }

  /** The re-check under the row lock. */
  function LockedCheck(demands: Demands, request: CounterRequest): Option<OfflineError> {
    if !IsPublished(demands, request.key) then Some(DemandUnpublished)
    else CheckAmount(request.amount, demands[request.key].outstanding)
  }

  predicate UniqueClash(payments: Payments, request: CounterRequest, reference: string) {
    || reference in payments
    || ReceiptTaken(payments, reference, Some(request.receiptNumber.GetOr(reference)))
    || ClientKeyTaken(payments, request.clientKey)
  }

  predicate Commits(s: Store, request: CounterRequest, reference: string) {
    LockedCheck(s.demands, request).None? && !UniqueClash(s.payments, request, reference)
  }

  /** The clerk's request ends here, recorded or not. */
  function Commit(s: Store, clerk: string, reference: string, now: nat): Store {
    if clerk !in s.counter then s
    else
      var request := s.counter[clerk];
      var done := s.(counter := s.counter - {clerk});
      if !Commits(s, request, reference) then done
      else
        var d := s.demands[request.key];
        done.(
        payments := s.payments[reference := NewCounterPayment(d, request, reference, now)],
        demands := s.demands[request.key := Credited(d, request.amount)])
  }
}
