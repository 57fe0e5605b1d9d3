/**
 * Online payments: creation, gateway callbacks and requeries
 * (`createOnlinePayment`, `handleCallback`, `finalizeRequerySuccess`).
 */
module OnlinePayments {
  import opened Common
  import opened Text
  import opened LedgerModel
  import opened OfflineRules

  /** What the gateway sends, decrypted and with its status classified. */
  datatype GatewayCallback = GatewayCallback(
    merchTxnId: Option<string>,
    atomTxnId: Option<string>,
    idempotencyKey: Option<string>,
    outcome: Outcome,
    gatewayAmount: Option<real>,
    amountRequired: bool,
    now: nat)

  // ---- Creation ----

  /** The amount charged: the outstanding of a published demand, else the recomputed due. */
  function PayableAmount(demands: Demands, key: DemandKey, recomputedDue: int): int {
    if IsPublished(demands, key) then demands[key].outstanding else recomputedDue
  }

  function NewOnlinePayment(demands: Demands, key: DemandKey, recomputedDue: int, tokenIssued: bool): Payment {
    Payment(
      Online, Some(key.surveyId), Some(key.yearId), if IsPublished(demands, key) then Some(key) else None,
      PayableAmount(demands, key, recomputedDue), if tokenIssued then Pending else Failed,
      None, None, None, None, None)
  }

  /** The whole of `createOnlinePayment`; a refused or clashing request leaves no row. */
  function CreateOnline(s: Store, reference: string, key: DemandKey, recomputedDue: int, tokenIssued: bool): Store {
    if PayableAmount(s.demands, key, recomputedDue) <= 0 || reference in s.payments then s
    else s.(payments := s.payments[reference := NewOnlinePayment(s.demands, key, recomputedDue, tokenIssued)])
  }

  // ---- Settlement: the transaction callbacks and requeries share ----

  predicate FirstSuccess(p: Payment) {
    p.status != Success && p.snapshot.None?
  }

  /** The demand a first success is credited to, if there is a published one. */
  function DemandToCredit(demands: Demands, p: Payment): Option<DemandKey> {
    if p.demand.Some? then
      if IsPublished(demands, p.demand.value) then p.demand else None
    else if p.surveyId.Some? && p.yearId.Some? && IsPublished(demands, DemandKey(p.surveyId.value, p.yearId.value)) then
      Some(DemandKey(p.surveyId.value, p.yearId.value))
    else None
  }

  function ReceiptNumberFor(reference: string, p: Payment): string {
    p.receiptNumber.GetOr("RCP-" + reference)
  }

  function CreditKey(demands: Demands, p: Payment, success: bool): Option<DemandKey> {
    if success && FirstSuccess(p) then DemandToCredit(demands, p) else None
  }

  function SettledPayment(
    demands: Demands, reference: string, p: Payment, success: bool, status: PaymentStatus, atomTxnId: Option<string>,
    now: nat): Payment
  {
    var receiptNumber, date := ReceiptNumberFor(reference, p), p.collectionDate.GetOr(now);
    var updated := p.(status := status, atomTxnId := atomTxnId.OrElse(p.atomTxnId));
    var numbered :=
      if success && p.receiptNumber.None? then
        updated.(receiptNumber := Some(receiptNumber), collectionDate := Some(date))
      else updated;
    var key := CreditKey(demands, p, success);
    if key.None? || key.value !in demands then numbered
    else
      var d := demands[key.value];
      var balance := OutstandingAfterPayment(d.totalPayable, d.amountPaid, p.amount);
      numbered.(
      demand := key,
      snapshot := Some(SnapshotOf(d, key.value, p.surveyId, p.amount, balance, p.mode, receiptNumber, date)))
  }

  function SettledDemands(demands: Demands, p: Payment, success: bool): Demands {
    var key := CreditKey(demands, p, success);
    if key.None? || key.value !in demands then demands
    else demands[key.value := Credited(demands[key.value], p.amount)]
  }

  /** None: a unique column of the payment table clashed and the transaction was rolled back. */
  function Settle(
    s: Store, reference: string, success: bool, status: PaymentStatus, atomTxnId: Option<string>,
    now: nat): Option<Store>
    requires reference in s.payments
  {
    var p := s.payments[reference];
    var settled := SettledPayment(s.demands, reference, p, success, status, atomTxnId, now);
    if AtomTaken(s.payments, reference, settled.atomTxnId)
        || ReceiptTaken(s.payments, reference, settled.receiptNumber) then None
    else Some(s.(
              payments := s.payments[reference := settled],
              demands := SettledDemands(s.demands, p, success)))
  }

  // ---- Callbacks ----

  /** `buildPaymentCallbackIdempotencyKey`. */
  function CallbackKey(cb: GatewayCallback): string {
    if Trim(cb.idempotencyKey.GetOr("")) != "" then Trim(cb.idempotencyKey.GetOr(""))
    else if Trim(cb.merchTxnId.GetOr("")) != "" then Trim(cb.merchTxnId.GetOr(""))
    else "na"
  }

  /** The first row from position i on with the key, or |rows|. */
  function IndexOfKey(rows: seq<CallbackRow>, key: string, i: nat): (j: nat)
    requires i <= |rows|
    ensures i <= j <= |rows|
    ensures j < |rows| ==> rows[j].key == key
    ensures forall k :: i <= k < j ==> rows[k].key != key
    decreases |rows| - i
  {
    if i == |rows| || rows[i].key == key then i else IndexOfKey(rows, key, i + 1)
  }

  function IndexOfReference(rows: seq<CallbackRow>, reference: string, i: nat): (j: nat)
    requires i <= |rows|
    ensures i <= j <= |rows|
    ensures j < |rows| ==> rows[j].paymentReference == reference
    ensures forall k :: i <= k < j ==> rows[k].paymentReference != reference
    decreases |rows| - i
  {
    if i == |rows| || rows[i].paymentReference == reference then i else IndexOfReference(rows, reference, i + 1)
  }

  /** The callback row found by its key, else the oldest of the payment; |rows| if there is none. */
  function ExistingCallback(rows: seq<CallbackRow>, key: string, reference: string): (j: nat)
    ensures j <= |rows|
  {
    var byKey := IndexOfKey(rows, key, 0);
    if byKey < |rows| then byKey else IndexOfReference(rows, reference, 0)
  }

  /** `shouldReprocessProcessedCallback`. */
  predicate ShouldReprocess(existingProcessed: bool, newStatusIsSuccess: bool, status: PaymentStatus) {
    if !existingProcessed then true
    else if !newStatusIsSuccess then false
    else status != Success && status != Refunded && status != PartiallyRefunded
  }

  /** Amounts match within 0.01, that is one paise. */
  predicate AmountMismatch(cb: GatewayCallback, amount: int) {
    if cb.gatewayAmount.None? then cb.amountRequired
    else !(amount as real - 1.0 <= cb.gatewayAmount.value <= amount as real + 1.0)
  }

  function EffectiveStatus(p: Payment, outcome: Outcome): PaymentStatus {
    var next := if outcome == Succeeded then Success else if outcome == Unknown then p.status else Failed;
    if p.status == Success && outcome != Succeeded then Success else next
  }

  datatype CallbackVerdict = Rejected | Duplicate | Processed

  function Verdict(s: Store, cb: GatewayCallback): CallbackVerdict {
    if cb.merchTxnId.None? || cb.merchTxnId.value == "" then Rejected
    else if cb.merchTxnId.value !in s.payments || s.payments[cb.merchTxnId.value].mode != Online then Rejected
    else
      var reference := cb.merchTxnId.value;
      var p, j := s.payments[reference], ExistingCallback(s.callbacks, CallbackKey(cb), reference);
      if j < |s.callbacks| && s.callbacks[j].processed
         && !ShouldReprocess(true, cb.outcome == Succeeded, p.status) then Duplicate
      else if AmountMismatch(cb, p.amount) then Rejected
      else Processed
  }

  /** A duplicate may still bring a gateway id onto the callback row; money is not touched. */
  function AfterDuplicate(s: Store, cb: GatewayCallback): Store
    requires cb.merchTxnId.Some?
  {
    var j := ExistingCallback(s.callbacks, CallbackKey(cb), cb.merchTxnId.value);
    if j < |s.callbacks| && cb.atomTxnId.Some? && cb.atomTxnId.value != ""
        && s.callbacks[j].atomTxnId != cb.atomTxnId then
      s.(callbacks := s.callbacks[j := s.callbacks[j].(
                                       atomTxnId := cb.atomTxnId, outcome := cb.outcome, key := CallbackKey(cb))])
    else s
  }

  function RecordedCallbacks(rows: seq<CallbackRow>, cb: GatewayCallback, reference: string): seq<CallbackRow> {
    var key := CallbackKey(cb);
    var j := ExistingCallback(rows, key, reference);
    if j < |rows| then
      rows[j := rows[j].(
           outcome := cb.outcome, atomTxnId := cb.atomTxnId.OrElse(rows[j].atomTxnId), key := key, processed := true)]
    else rows + [CallbackRow(reference, cb.atomTxnId, cb.outcome, key, true)]
  }

  function AfterCallback(s: Store, cb: GatewayCallback): Store {
    match Verdict(s, cb)
    case Rejected => s
    case Duplicate => AfterDuplicate(s, cb)
    case Processed =>
      var reference := cb.merchTxnId.value;
      var settled := Settle(
        s, reference, cb.outcome == Succeeded, EffectiveStatus(s.payments[reference], cb.outcome), cb.atomTxnId,
        cb.now);
      if settled.None? then s
      else settled.value.(callbacks := RecordedCallbacks(s.callbacks, cb, reference))
  }

  // ---- Requeries ----

  /** `requery` by staff, and the citizen sync, which leaves settled payments alone. */
  function AfterRequery(
    s: Store, reference: string, byCitizen: bool, success: bool, atomTxnId: Option<string>, now: nat): Store
  {
    if reference !in s.payments || s.payments[reference].mode != Online then s
    else if byCitizen && s.payments[reference].status in {Success, Failed, Refunded} then s
    else
      var status := if success then Success else s.payments[reference].status;
      Settle(s, reference, success, status, atomTxnId, now).GetOr(s)
  }
}
