/** Which gateway messages are believed, and that money is recorded only on one that was. */
module CallbackLaws {
  import opened Common
  import opened Text
  import opened LedgerModel
  import opened OfflineRules
  import opened OnlinePayments
  import opened LedgerRuns
  import opened LedgerLaws
  import Counter = CounterPayments

  // ---- The decision on a callback ----

  predicate NamesOnlinePayment(s: Store, cb: GatewayCallback) {
    && cb.merchTxnId.Some? && cb.merchTxnId.value != ""
    && cb.merchTxnId.value in s.payments && s.payments[cb.merchTxnId.value].mode == Online
  }

  /** The row with the key; only if there is none the first row of the payment. */
  predicate IsRowFor(rows: seq<CallbackRow>, key: string, reference: string, j: nat) {
    && j < |rows|
    && if rows[j].key == key then forall i :: 0 <= i < j ==> rows[i].key != key
       else
         && (forall i :: 0 <= i < |rows| ==> rows[i].key != key)
         && rows[j].paymentReference == reference
         && forall i :: 0 <= i < j ==> rows[i].paymentReference != reference
  }

  lemma ExistingIsRowFor(rows: seq<CallbackRow>, key: string, reference: string)
    ensures var j := ExistingCallback(rows, key, reference);
            if j < |rows| then IsRowFor(rows, key, reference, j)
            else forall i :: 0 <= i < |rows| ==> rows[i].key != key && rows[i].paymentReference != reference
  {
  }

  lemma OneRowFor(rows: seq<CallbackRow>, key: string, reference: string, i: nat, j: nat)
    requires IsRowFor(rows, key, reference, i) && IsRowFor(rows, key, reference, j)
    ensures i == j
  {
  }

  /** A callback is keyed by the key it brings, else by its merchant id. */
  lemma KeyOfCallback(cb: GatewayCallback)
    ensures cb.idempotencyKey.Some? && Trim(cb.idempotencyKey.value) != ""
            ==> CallbackKey(cb) == Trim(cb.idempotencyKey.value)
    ensures (cb.idempotencyKey.None? || Trim(cb.idempotencyKey.value) == "")
            && cb.merchTxnId.Some? && Trim(cb.merchTxnId.value) != ""
            ==> CallbackKey(cb) == Trim(cb.merchTxnId.value)
    ensures (cb.idempotencyKey.None? || Trim(cb.idempotencyKey.value) == "")
            && (cb.merchTxnId.None? || Trim(cb.merchTxnId.value) == "")
            ==> CallbackKey(cb) == "na"
  {
    assert Trim("") == "";
  }

  /** Its row was processed, and it does not bring the success of a payment that is neither paid nor refunded. */
  ghost predicate SeenBefore(s: Store, cb: GatewayCallback)
    requires NamesOnlinePayment(s, cb)
  {
    var reference := cb.merchTxnId.value;
    && (exists j: nat :: IsRowFor(s.callbacks, CallbackKey(cb), reference, j) && s.callbacks[j].processed)
    && (cb.outcome != Succeeded || s.payments[reference].status in {Success, Refunded, PartiallyRefunded})
  }

  /**
   * A callback that names no online payment is rejected; one seen before is a duplicate whatever its amount; any other
   * is processed exactly when its amount fits.
   */
  lemma VerdictIs(s: Store, cb: GatewayCallback)
    ensures Verdict(s, cb)
         == if !NamesOnlinePayment(s, cb) then Rejected
            else if SeenBefore(s, cb) then Duplicate
            else if AmountFits(cb, s.payments[cb.merchTxnId.value].amount) then Processed
            else Rejected
  {
    if NamesOnlinePayment(s, cb) {
      var key, reference := CallbackKey(cb), cb.merchTxnId.value;
      ExistingIsRowFor(s.callbacks, key, reference);
      var j := ExistingCallback(s.callbacks, key, reference);
      forall i: nat | IsRowFor(s.callbacks, key, reference, i) ensures i == j {
        if j < |s.callbacks| {
          OneRowFor(s.callbacks, key, reference, i, j);
        }
      }
    }
  }

  /** A wrong or missing amount moves no money. */
  lemma WrongAmountMovesNothing(s: Store, cb: GatewayCallback)
    requires NamesOnlinePayment(s, cb) && !AmountFits(cb, s.payments[cb.merchTxnId.value].amount)
    ensures Verdict(s, cb) == Rejected || Verdict(s, cb) == Duplicate
    ensures AfterCallback(s, cb).payments == s.payments && AfterCallback(s, cb).demands == s.demands
  {
    VerdictIs(s, cb);
  }

  /** One rupee reported for a payment of 5000 rupees. */
  lemma OneRupeeIsRejected()
    ensures
      var p := Payment(Online, Some("S"), Some("2025"), None, 500000, Pending, None, None, None, None, None);
      var s := Store(map["M" := p], [], map[], map[], map[]);
      var cb := GatewayCallback(Some("M"), None, None, Succeeded, Some(100.0), true, 0);
      Verdict(s, cb) == Rejected && AfterCallback(s, cb) == s
  {
    var p := Payment(Online, Some("S"), Some("2025"), None, 500000, Pending, None, None, None, None, None);
    var s := Store(map["M" := p], [], map[], map[], map[]);
    var cb := GatewayCallback(Some("M"), None, None, Succeeded, Some(100.0), true, 0);
    VerdictIs(s, cb);
  }

  // ---- What a settlement writes ----

  /** Another payment has the gateway id, or the receipt number a first success would get. */
  ghost predicate TakenElsewhere(payments: Payments, reference: string, success: bool, atomTxnId: Option<string>)
    requires reference in payments
  {
    || (atomTxnId.Some? && exists r :: r in payments && r != reference && payments[r].atomTxnId == atomTxnId)
    || (success && payments[reference].receiptNumber.None?
        && exists r :: r in payments && r != reference && payments[r].receiptNumber == Some("RCP-" + reference))
  }

  lemma AtomTakenIff(payments: Payments, reference: string, atomTxnId: Option<string>)
    requires UniqueColumns(payments) && reference in payments
    ensures AtomTaken(payments, reference, atomTxnId.OrElse(payments[reference].atomTxnId))
       <==> atomTxnId.Some? && exists r :: r in payments && r != reference && payments[r].atomTxnId == atomTxnId
  {
    OwnColumnsAreFree(payments, reference);
  }

  lemma ReceiptTakenIff(payments: Payments, reference: string, success: bool, given: Option<string>)
    requires UniqueColumns(payments) && reference in payments
    ensures
      var own := payments[reference].receiptNumber;
      ReceiptTaken(payments, reference, if success && own.None? then given else own)
      <==> success && own.None? && given.Some?
           && exists r :: r in payments && r != reference && payments[r].receiptNumber == given
  {
    OwnColumnsAreFree(payments, reference);
  }

  lemma UniqueOfSettled(
    demands: Demands, reference: string, p: Payment, success: bool, status: PaymentStatus, atomTxnId: Option<string>,
    now: nat)
    ensures
      var settled := SettledPayment(demands, reference, p, success, status, atomTxnId, now);
      && settled.atomTxnId == atomTxnId.OrElse(p.atomTxnId)
      && settled.receiptNumber
         == if success && p.receiptNumber.None? then Some("RCP-" + reference) else p.receiptNumber
  {
  }

  lemma ClashIff(s: Store, reference: string, success: bool, status: PaymentStatus, atomTxnId: Option<string>, now: nat)
    requires Inv(s) && reference in s.payments
    ensures Settle(s, reference, success, status, atomTxnId, now).None?
       <==> TakenElsewhere(s.payments, reference, success, atomTxnId)
  {
    UniqueOfSettled(s.demands, reference, s.payments[reference], success, status, atomTxnId, now);
    AtomTakenIff(s.payments, reference, atomTxnId);
    ReceiptTakenIff(s.payments, reference, success, Some("RCP-" + reference));
  }

  /** The columns of the payment after a settlement. */
  predicate WrittenAs(
    p: Payment, p': Payment, reference: string, success: bool, status: PaymentStatus, atomTxnId: Option<string>,
    now: nat)
  {
    && p'.status == status && p'.amount == p.amount && p'.mode == p.mode
    && p'.surveyId == p.surveyId && p'.yearId == p.yearId && p'.clientKey == p.clientKey
    && p'.atomTxnId == (if atomTxnId.Some? then atomTxnId else p.atomTxnId)
    && (if success && p.receiptNumber.None? then
          p'.receiptNumber == Some("RCP-" + reference)
          && p'.collectionDate == Some(if p.collectionDate.Some? then p.collectionDate.value else now)
        else p'.receiptNumber == p.receiptNumber && p'.collectionDate == p.collectionDate)
  }

  lemma SettledAs(
    s: Store, reference: string, success: bool, status: PaymentStatus, atomTxnId: Option<string>, now: nat)
    requires reference in s.payments && Settle(s, reference, success, status, atomTxnId, now).Some?
    ensures var after := Settle(s, reference, success, status, atomTxnId, now).value.payments;
            reference in after
            && WrittenAs(s.payments[reference], after[reference], reference, success, status, atomTxnId, now)
  {
  }

  /** SUCCESS stays; a success makes it SUCCESS, a decline FAILED, and an unknown outcome leaves the status. */
  function StatusAfter(status: PaymentStatus, outcome: Outcome): PaymentStatus {
    if outcome == Succeeded || status == Success then Success
    else if outcome == Declined then Failed
    else status
  }

  lemma StatusIsEffective(p: Payment, outcome: Outcome)
    ensures EffectiveStatus(p, outcome) == StatusAfter(p.status, outcome)
  {
  }

  /** A processed callback writes its outcome to the payment, or changes nothing where a unique column is taken. */
  lemma ProcessedWrites(s: Store, cb: GatewayCallback)
    requires Inv(s) && Verdict(s, cb) == Processed
    ensures
      var reference, after := cb.merchTxnId.value, AfterCallback(s, cb);
      if TakenElsewhere(s.payments, reference, cb.outcome == Succeeded, cb.atomTxnId) then after == s
      else
        && reference in after.payments
        && WrittenAs(
             s.payments[reference], after.payments[reference], reference, cb.outcome == Succeeded,
             StatusAfter(s.payments[reference].status, cb.outcome), cb.atomTxnId, cb.now)
  {
    var reference := cb.merchTxnId.value;
    var p := s.payments[reference];
    StatusIsEffective(p, cb.outcome);
    ClashIff(s, reference, cb.outcome == Succeeded, EffectiveStatus(p, cb.outcome), cb.atomTxnId, cb.now);
    if !TakenElsewhere(s.payments, reference, cb.outcome == Succeeded, cb.atomTxnId) {
      SettledAs(s, reference, cb.outcome == Succeeded, EffectiveStatus(p, cb.outcome), cb.atomTxnId, cb.now);
    }
  }

  /** The callback's row then carries its key and outcome and is marked processed; no other row changes. */
  lemma ProcessedRow(s: Store, cb: GatewayCallback)
    requires Inv(s) && Verdict(s, cb) == Processed
    requires !TakenElsewhere(s.payments, cb.merchTxnId.value, cb.outcome == Succeeded, cb.atomTxnId)
    ensures
      var rows, after := s.callbacks, AfterCallback(s, cb).callbacks;
      exists j: nat ::
        && j < |after| && after[j].key == CallbackKey(cb) && after[j].outcome == cb.outcome && after[j].processed
        && (if j < |rows| then |after| == |rows| && IsRowFor(rows, CallbackKey(cb), cb.merchTxnId.value, j)
            else j == |rows| && |after| == |rows| + 1 && after[j].paymentReference == cb.merchTxnId.value)
        && forall i :: 0 <= i < |rows| && i != j ==> after[i] == rows[i]
  {
    var reference := cb.merchTxnId.value;
    ClashIff(
      s, reference, cb.outcome == Succeeded, EffectiveStatus(s.payments[reference], cb.outcome), cb.atomTxnId, cb.now);
    ExistingIsRowFor(s.callbacks, CallbackKey(cb), reference);
    var j := ExistingCallback(s.callbacks, CallbackKey(cb), reference);
    var after := AfterCallback(s, cb).callbacks;
    assert after == RecordedCallbacks(s.callbacks, cb, reference);
    assert j < |after| && after[j].key == CallbackKey(cb) && after[j].outcome == cb.outcome && after[j].processed;
  }

  /** A duplicate may bring a gateway id onto its row, with key and outcome; it changes nothing else. */
  lemma DuplicateChanges(s: Store, cb: GatewayCallback, j: nat)
    requires Verdict(s, cb) == Duplicate && IsRowFor(s.callbacks, CallbackKey(cb), cb.merchTxnId.value, j)
    ensures
      var row := s.callbacks[j];
      AfterCallback(s, cb)
      == if cb.atomTxnId.Some? && cb.atomTxnId.value != "" && cb.atomTxnId != row.atomTxnId then
           s.(callbacks := s.callbacks[j :=
             CallbackRow(row.paymentReference, cb.atomTxnId, cb.outcome, CallbackKey(cb), row.processed)])
         else s
  {
    ExistingIsRowFor(s.callbacks, CallbackKey(cb), cb.merchTxnId.value);
    OneRowFor(
      s.callbacks, CallbackKey(cb), cb.merchTxnId.value, j,
      ExistingCallback(s.callbacks, CallbackKey(cb), cb.merchTxnId.value));
  }

  // ---- Requeries ----

  /**
   * A successful requery of an online payment ends at SUCCESS unless a unique column is taken; an unsuccessful one
   * keeps status and money. A citizen's requery leaves settled payments alone.
   */
  lemma RequeryWrites(
    s: Store, reference: string, byCitizen: bool, success: bool, atomTxnId: Option<string>, now: nat)
    requires Inv(s) && reference in s.payments && s.payments[reference].mode == Online
    ensures
      var p, after := s.payments[reference], AfterRequery(s, reference, byCitizen, success, atomTxnId, now);
      if (byCitizen && p.status in {Success, Failed, Refunded})
         || TakenElsewhere(s.payments, reference, success, atomTxnId) then after == s
      else
        && reference in after.payments
        && WrittenAs(
             p, after.payments[reference], reference, success, if success then Success else p.status, atomTxnId, now)
        && (!success ==> after.demands == s.demands)
  {
    var p := s.payments[reference];
    var status := if success then Success else p.status;
    ClashIff(s, reference, success, status, atomTxnId, now);
    if !TakenElsewhere(s.payments, reference, success, atomTxnId) {
      SettledAs(s, reference, success, status, atomTxnId, now);
    }
  }

  // ---- Money is recorded only on a confirmation ----

  /** The gateway confirmed the payment, by a callback with a fitting amount or by a requery. */
  predicate Confirms(s: Store, step: Step, reference: string) {
    && reference in s.payments && s.payments[reference].mode == Online
    && match step
       case Callback(cb) =>
         cb.merchTxnId == Some(reference) && cb.outcome == Succeeded && AmountFits(cb, s.payments[reference].amount)
       case Requery(r, _, success, _, _) => r == reference && success
       case _ => false
  }

  /** The clerk's request was within the outstanding of a published demand when it was recorded. */
  predicate RecordsAtCounter(s: Store, step: Step, reference: string) {
    && step.CounterCommit? && step.reference == reference && reference !in s.payments
    && step.clerk in s.counter
    && var request := s.counter[step.clerk];
    && request.key in s.demands && s.demands[request.key].status == Published
    && 0 < request.amount <= s.demands[request.key].outstanding
  }

  lemma CallbackToSuccess(s: Store, cb: GatewayCallback, reference: string)
    requires Inv(s) && reference in s.payments && s.payments[reference].status != Success
    requires reference in AfterCallback(s, cb).payments && AfterCallback(s, cb).payments[reference].status == Success
    ensures Confirms(s, Callback(cb), reference)
  {
    VerdictIs(s, cb);
    if cb.merchTxnId.Some? {
      GatewayStepFrame(s, Callback(cb), cb.merchTxnId.value);
    }
    assert Verdict(s, cb) == Processed;
    ProcessedWrites(s, cb);
  }

  lemma RequeryToSuccess(
    s: Store, r: string, byCitizen: bool, success: bool, atomTxnId: Option<string>, now: nat, reference: string)
    requires Inv(s) && reference in s.payments && s.payments[reference].status != Success
    requires var after := AfterRequery(s, r, byCitizen, success, atomTxnId, now).payments;
             reference in after && after[reference].status == Success
    ensures Confirms(s, Requery(r, byCitizen, success, atomTxnId, now), reference)
  {
    GatewayStepFrame(s, Requery(r, byCitizen, success, atomTxnId, now), r);
    if r in s.payments && s.payments[r].mode == Online {
      RequeryWrites(s, r, byCitizen, success, atomTxnId, now);
    }
  }

  /** A step that takes a payment to SUCCESS, or adds one there, is a confirmation or a recorded counter payment. */
  lemma StepToSuccess(s: Store, step: Step, reference: string)
    requires Inv(s) && Enabled(s, step) && reference in Next(s, step).payments
    requires Next(s, step).payments[reference].status == Success
    requires reference in s.payments ==> s.payments[reference].status != Success
    ensures Confirms(s, step, reference) || RecordsAtCounter(s, step, reference)
  {
    match step
    case Callback(cb) =>
      CallbackKeepsReferences(s, cb);
      CallbackToSuccess(s, cb, reference);
    case Requery(r, byCitizen, success, atomTxnId, now) =>
      GatewayStepFrame(s, step, r);
      RequeryToSuccess(s, r, byCitizen, success, atomTxnId, now, reference);
    case CounterCommit(clerk, r, now) =>
    case CreateOnline(_, _, _, _) =>
    case CounterBegin(_, _) =>
    case Publish(_, _, _, _) =>
    case CommitYearEnd(fromYear, toYear, surveys) => YearEndKeepsPayments(s, fromYear, toYear, surveys);
  }

  lemma CallbackKeepsReferences(s: Store, cb: GatewayCallback)
    ensures AfterCallback(s, cb).payments.Keys == s.payments.Keys
  {
    if cb.merchTxnId.Some? {
      GatewayStepFrame(s, Callback(cb), cb.merchTxnId.value);
    }
  }

  ghost predicate HasCause(stores: seq<Store>, steps: seq<Step>, n: nat, reference: string)
    requires n <= |steps| < |stores|
  {
    exists k :: 0 <= k < n
                && (Confirms(stores[k], steps[k], reference) || RecordsAtCounter(stores[k], steps[k], reference))
  }

  /**
   * In every run from the empty ledger each payment at SUCCESS was confirmed by the gateway, by a callback whose amount
   * fitted or by a requery, or recorded at the counter within the outstanding of its demand.
   */
  lemma {:induction false} EverySuccessHasItsCause(stores: seq<Store>, steps: seq<Step>, n: nat, reference: string)
    requires IsRun(stores, steps) && stores[0] == Empty && n <= |steps|
    requires reference in stores[n].payments && stores[n].payments[reference].status == Success
    ensures HasCause(stores, steps, n, reference)
    decreases n
  {
    assert n > 0;
    var k := n - 1;
    if reference in stores[k].payments && stores[k].payments[reference].status == Success {
      EverySuccessHasItsCause(stores, steps, k, reference);
    } else {
      EmptyInv();
      RunKeeps(stores, steps, k);
      RunStep(stores, steps, k);
      StepToSuccess(stores[k], steps[k], reference);
    }
  }
}
