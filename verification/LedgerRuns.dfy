/**
 * The ledger as a state machine. A step is one request, except that a counter payment is
 * two: its pre-check and its locked commit. There are no refund steps.
 */
module LedgerRuns {
  import opened Common
  import opened Sums
  import opened LedgerModel
  import opened OfflineRules
  import opened OnlinePayments
  import Counter = CounterPayments
  import Pub = Publication
  import YearEnd
  import YearEndLaws
  import A = Assessment

  datatype Step =
    | CreateOnline(reference: string, key: DemandKey, recomputedDue: int, tokenIssued: bool)
    | Callback(cb: GatewayCallback)
    | Requery(reference: string, byCitizen: bool, success: bool, atomTxnId: Option<string>, now: nat)
    | CounterBegin(clerk: string, request: Counter.OfflineRequest)
    | CounterCommit(clerk: string, reference: string, now: nat)
    | Publish(key: DemandKey, base: A.TaxBase, rules: seq<A.Rule>, preserveArrears: bool)
    | CommitYearEnd(fromYear: string, toYear: string, surveys: seq<string>)

  /** A year-end step comes with an answer of its preview query; the others are always possible. */
  ghost predicate Enabled(s: Store, step: Step) {
    step.CommitYearEnd? ==> YearEnd.IsPreview(s.demands, step.fromYear, step.surveys)
  }

  ghost function Next(s: Store, step: Step): Store
    requires Enabled(s, step)
  {
    match step
    case CreateOnline(reference, key, due, tokenIssued) =>
      OnlinePayments.CreateOnline(s, reference, key, due, tokenIssued)
    case Callback(cb) => AfterCallback(s, cb)
    case Requery(reference, byCitizen, success, atomTxnId, now) =>
      AfterRequery(s, reference, byCitizen, success, atomTxnId, now)
    case CounterBegin(clerk, request) => Counter.Begin(s, clerk, request)
    case CounterCommit(clerk, reference, now) => Counter.Commit(s, clerk, reference, now)
    case Publish(key, base, rules, preserveArrears) => Pub.Upsert(s, key, base, rules, preserveArrears)
    case CommitYearEnd(fromYear, toYear, surveys) => YearEnd.Commit(s, fromYear, toYear, surveys)
  }

  const Empty := Store(map[], [], map[], map[], map[])

  /** A run: consecutive stores are related by the steps. */
  ghost predicate IsRun(stores: seq<Store>, steps: seq<Step>) {
    && |stores| == |steps| + 1
    && forall i {:trigger steps[i]} :: 0 <= i < |steps|
        ==> Enabled(stores[i], steps[i]) && stores[i + 1] == Next(stores[i], steps[i])
  }

  // ---- The invariant ----

  predicate SnapshotFits(p: Payment, snapshot: Snapshot) {
    && p.status == Success
    && p.demand.Some? && snapshot.yearId == p.demand.value.yearId
    && p.receiptNumber == Some(snapshot.receiptNumber)
    && snapshot.amountReceived == p.amount
    && snapshot.amountPaidAfter >= snapshot.amountReceived
    && snapshot.outstandingAfter == Max(0, snapshot.totalPayable - snapshot.amountPaidAfter)
    && snapshot.totalPayable == snapshot.currentDemand + snapshot.arrears
  }

  predicate PaymentOk(p: Payment) {
    && p.amount > 0
    && p.status in {Pending, Failed, Success}
    && (p.demand.Some? ==> p.surveyId == Some(p.demand.value.surveyId) && p.yearId == Some(p.demand.value.yearId))
    && (p.snapshot.Some? ==> SnapshotFits(p, p.snapshot.value))
  }

  predicate DemandOk(d: Demand) {
    && d.status in {Draft, Published}
    && d.arrears >= 0 && d.amountPaid >= 0
    && d.totalPayable == d.currentDemand + d.arrears
    && d.outstanding == Max(0, d.totalPayable - d.amountPaid)
    && forall y :: y in d.rows ==> d.rows[y] > 0
  }

  /** Published demands show exactly the SUCCESS payments of their survey and year. */
  ghost predicate PaidAgrees(s: Store) {
    forall key :: IsPublished(s.demands, key) ==> s.demands[key].amountPaid == PaidFor(s.payments, key)
  }

  ghost predicate UniqueColumns(payments: Payments) {
    && (forall r, r' :: r in payments && r' in payments && r != r' && payments[r].atomTxnId.Some? ==>
                          payments[r].atomTxnId != payments[r'].atomTxnId)
    && (forall r, r' :: r in payments && r' in payments && r != r' && payments[r].receiptNumber.Some? ==>
                          payments[r].receiptNumber != payments[r'].receiptNumber)
    && (forall r, r' :: r in payments && r' in payments && r != r' && payments[r].clientKey.Some? ==>
                          payments[r].clientKey != payments[r'].clientKey)
  }

  ghost predicate Inv(s: Store) {
    && (forall r :: r in s.payments ==> PaymentOk(s.payments[r]))
    && (forall key :: key in s.demands ==> DemandOk(s.demands[key]))
    && PaidAgrees(s)
    && UniqueColumns(s.payments)
    && (forall c :: c in s.counter ==> s.counter[c].amount > 0)
    && (forall i, j :: 0 <= i < j < |s.callbacks| ==> s.callbacks[i].key != s.callbacks[j].key)
  }

  lemma EmptyInv()
    ensures Inv(Empty)
  {
  }

  // ---- Each step keeps it ----

  lemma CreateOnlineKeeps(s: Store, reference: string, key: DemandKey, due: int, tokenIssued: bool)
    requires Inv(s)
    ensures Inv(OnlinePayments.CreateOnline(s, reference, key, due, tokenIssued))
  {
    var s' := OnlinePayments.CreateOnline(s, reference, key, due, tokenIssued);
    if s' != s {
      forall k ensures PaidFor(s'.payments, k) == PaidFor(s.payments, k) {
        PaidForUpdate(s.payments, reference, s'.payments[reference], k);
      }
    }
  }

  /** The status a settlement writes: SUCCESS on success, otherwise the old one or FAILED, never leaving SUCCESS. */
  predicate StatusFits(p: Payment, success: bool, status: PaymentStatus) {
    && (success ==> status == Success)
    && (!success ==> status == p.status || (status == Failed && p.status != Success))
  }

  /** A first success is credited to a published demand exactly when it is of the demand's survey and year. */
  lemma CreditKeyIff(demands: Demands, p: Payment, success: bool, key: DemandKey)
    requires PaymentOk(p) && IsPublished(demands, key)
    ensures CreditKey(demands, p, success) == Some(key)
       <==> success && p.status != Success && CountsFor(p.(status := Success), key)
  {
  }

  lemma CreditedAt(demands: Demands, p: Payment, success: bool, key: DemandKey)
    requires key in demands
    ensures key in SettledDemands(demands, p, success)
    ensures SettledDemands(demands, p, success)[key].amountPaid
         == demands[key].amountPaid + (if CreditKey(demands, p, success) == Some(key) then p.amount else 0)
  {
  }

  lemma SettledPaidBy(
    demands: Demands, reference: string, p: Payment, success: bool, status: PaymentStatus, atomTxnId: Option<string>,
    now: nat, key: DemandKey)
    ensures PaidBy(SettledPayment(demands, reference, p, success, status, atomTxnId, now), key)
         == PaidBy(p.(status := status), key)
  {
  }

  /** A settlement credits a published demand with exactly what it adds to the SUCCESS payments. */
  lemma SettleCreditsAt(
    s: Store, reference: string, success: bool, status: PaymentStatus, atomTxnId: Option<string>, now: nat,
    key: DemandKey)
    requires Inv(s) && reference in s.payments && StatusFits(s.payments[reference], success, status)
    requires IsPublished(s.demands, key)
    ensures
      var p := s.payments[reference];
      var p' := SettledPayment(s.demands, reference, p, success, status, atomTxnId, now);
      SettledDemands(s.demands, p, success)[key].amountPaid - s.demands[key].amountPaid
          == PaidBy(p', key) - PaidBy(p, key)
  {
    var p := s.payments[reference];
    CreditKeyIff(s.demands, p, success, key);
    CreditedAt(s.demands, p, success, key);
    SettledPaidBy(s.demands, reference, p, success, status, atomTxnId, now, key);
  }

  lemma UniqueAfterWrite(payments: Payments, reference: string, p: Payment)
    requires UniqueColumns(payments)
    requires !AtomTaken(payments, reference, p.atomTxnId) && !ReceiptTaken(payments, reference, p.receiptNumber)
    requires p.clientKey == (if reference in payments then payments[reference].clientKey else None)
             || !ClientKeyTaken(payments, p.clientKey)
    ensures UniqueColumns(payments[reference := p])
  {
  }

  lemma SettleKeeps(
    s: Store, reference: string, success: bool, status: PaymentStatus, atomTxnId: Option<string>, now: nat)
    requires Inv(s) && reference in s.payments && StatusFits(s.payments[reference], success, status)
    ensures Settle(s, reference, success, status, atomTxnId, now).Some? ==>
              Inv(Settle(s, reference, success, status, atomTxnId, now).value)
  {
    var p := s.payments[reference];
    var p' := SettledPayment(s.demands, reference, p, success, status, atomTxnId, now);
    if Settle(s, reference, success, status, atomTxnId, now).Some? {
      SettledPaymentOk(s, reference, success, status, atomTxnId, now);
      SettledDemandsOk(s, p, success);
      UniqueAfterWrite(s.payments, reference, p');
      SettledPaidAgrees(s, reference, success, status, atomTxnId, now);
    }
  }

  lemma SettledPaidAgrees(
    s: Store, reference: string, success: bool, status: PaymentStatus, atomTxnId: Option<string>, now: nat)
    requires Inv(s) && reference in s.payments && StatusFits(s.payments[reference], success, status)
    ensures
      var p := s.payments[reference];
      var p' := SettledPayment(s.demands, reference, p, success, status, atomTxnId, now);
      PaidAgrees(s.(payments := s.payments[reference := p'], demands := SettledDemands(s.demands, p, success)))
  {
    var p := s.payments[reference];
    var p' := SettledPayment(s.demands, reference, p, success, status, atomTxnId, now);
    var demands' := SettledDemands(s.demands, p, success);
    SettledDemandsOk(s, p, success);
    forall k | IsPublished(demands', k) ensures demands'[k].amountPaid == PaidFor(s.payments[reference := p'], k) {
      SettleCreditsAt(s, reference, success, status, atomTxnId, now, k);
      PaidForUpdate(s.payments, reference, p', k);
    }
  }

  lemma SettledPaymentOk(
    s: Store, reference: string, success: bool, status: PaymentStatus, atomTxnId: Option<string>, now: nat)
    requires Inv(s) && reference in s.payments && StatusFits(s.payments[reference], success, status)
    ensures
      var p := s.payments[reference];
      var p' := SettledPayment(s.demands, reference, p, success, status, atomTxnId, now);
      PaymentOk(p') && p'.amount == p.amount && p'.surveyId == p.surveyId && p'.yearId == p.yearId
      && p'.clientKey == p.clientKey
  {
  }

  lemma SettledDemandsOk(s: Store, p: Payment, success: bool)
    requires Inv(s) && PaymentOk(p)
    ensures
      var demands' := SettledDemands(s.demands, p, success);
      && demands'.Keys == s.demands.Keys
      && forall k :: k in demands' ==> DemandOk(demands'[k]) && demands'[k].status == s.demands[k].status
  {
  }

  lemma CallbackKeeps(s: Store, cb: GatewayCallback)
    requires Inv(s)
    ensures Inv(AfterCallback(s, cb))
  {
    if Verdict(s, cb) == Processed {
      var reference := cb.merchTxnId.value;
      SettleKeeps(
        s, reference, cb.outcome == Succeeded, EffectiveStatus(s.payments[reference], cb.outcome), cb.atomTxnId,
        cb.now);
      RecordedKeysUnique(s.callbacks, cb, reference);
    }
  }

  ghost predicate KeysUnique(rows: seq<CallbackRow>) {
    forall i, j :: 0 <= i < j < |rows| ==> rows[i].key != rows[j].key
  }

  lemma RecordedKeysUnique(rows: seq<CallbackRow>, cb: GatewayCallback, reference: string)
    requires KeysUnique(rows)
    ensures KeysUnique(RecordedCallbacks(rows, cb, reference))
  {
  }

  lemma RequeryKeeps(s: Store, reference: string, byCitizen: bool, success: bool, atomTxnId: Option<string>, now: nat)
    requires Inv(s)
    ensures Inv(AfterRequery(s, reference, byCitizen, success, atomTxnId, now))
  {
    if reference in s.payments {
      SettleKeeps(s, reference, success, if success then Success else s.payments[reference].status, atomTxnId, now);
    }
  }

  lemma CounterPaymentOk(d: Demand, request: CounterRequest, reference: string, now: nat)
    requires DemandOk(d) && CheckAmount(request.amount, d.outstanding).None?
    ensures PaymentOk(Counter.NewCounterPayment(d, request, reference, now)) && DemandOk(Credited(d, request.amount))
  {
  }

  lemma CounterPaidAgrees(s: Store, request: CounterRequest, reference: string, p: Payment)
    requires PaidAgrees(s) && IsPublished(s.demands, request.key) && reference !in s.payments
    requires CountsFor(p, request.key) && p.amount == request.amount
    ensures PaidAgrees(s.(payments := s.payments[reference := p],
                          demands := s.demands[request.key := Credited(s.demands[request.key], request.amount)]))
  {
    forall k ensures PaidFor(s.payments[reference := p], k) == PaidFor(s.payments, k) + PaidBy(p, k) {
      PaidForUpdate(s.payments, reference, p, k);
    }
  }

  lemma CounterCommitKeeps(s: Store, clerk: string, reference: string, now: nat)
    requires Inv(s)
    ensures Inv(Counter.Commit(s, clerk, reference, now))
  {
    if clerk in s.counter && Counter.Commits(s, s.counter[clerk], reference) {
      var request := s.counter[clerk];
      var d := s.demands[request.key];
      var p := Counter.NewCounterPayment(d, request, reference, now);
      CounterPaymentOk(d, request, reference, now);
      CounterPaidAgrees(s, request, reference, p);
      UniqueAfterWrite(s.payments, reference, p);
    }
  }

  lemma PublishKeeps(s: Store, key: DemandKey, base: A.TaxBase, rules: seq<A.Rule>, preserveArrears: bool)
    requires Inv(s)
    ensures Inv(Pub.Upsert(s, key, base, rules, preserveArrears))
  {
    PaidForNonNegative(s.payments, key);
  }

  lemma WithArrearOk(target: Demand, fromYear: string, amount: int)
    requires DemandOk(target) && amount > 0
    ensures DemandOk(YearEnd.WithArrear(target, fromYear, amount))
  {
    SumMapNonNegative(target.rows);
  }

  lemma TargetOk(demands: Demands, key: DemandKey, amount: int)
    requires (key in demands ==> DemandOk(demands[key])) && amount > 0
    ensures DemandOk(YearEnd.Target(demands, key, amount))
  {
  }

  lemma CarriedDemandOk(s: Store, fromYear: string, toYear: string, surveys: seq<string>, key: DemandKey)
    requires Inv(s) && YearEnd.IsPreview(s.demands, fromYear, surveys)
    ensures
      var after := YearEnd.CarryAll(s.demands, s.demands, fromYear, toYear, surveys);
      key in after ==>
        && DemandOk(after[key])
        && (after[key].status == Published ==>
              key in s.demands && s.demands[key].status == Published
              && after[key].amountPaid == s.demands[key].amountPaid)
  {
    YearEndLaws.CarryAllRow(s.demands, s.demands, fromYear, toYear, surveys, key);
    if key.yearId == toYear && key.surveyId in surveys && !YearEnd.AlreadyCarried(s.demands, key, fromYear) {
      var amount := YearEnd.OutstandingOf(s.demands, fromYear, key.surveyId);
      TargetOk(s.demands, key, amount);
      WithArrearOk(YearEnd.Target(s.demands, key, amount), fromYear, amount);
    }
  }

  lemma YearEndKeeps(s: Store, fromYear: string, toYear: string, surveys: seq<string>)
    requires Inv(s) && YearEnd.IsPreview(s.demands, fromYear, surveys)
    ensures Inv(YearEnd.Commit(s, fromYear, toYear, surveys))
  {
    if fromYear != toYear && (fromYear, toYear) !in s.runs {
      forall key {
        CarriedDemandOk(s, fromYear, toYear, surveys, key);
      }
    }
  }

  lemma StepKeeps(s: Store, step: Step)
    requires Inv(s) && Enabled(s, step)
    ensures Inv(Next(s, step))
  {
    match step
    case CreateOnline(reference, key, due, tokenIssued) => CreateOnlineKeeps(s, reference, key, due, tokenIssued);
    case Callback(cb) => CallbackKeeps(s, cb);
    case Requery(reference, byCitizen, success, atomTxnId, now) =>
      RequeryKeeps(s, reference, byCitizen, success, atomTxnId, now);
    case CounterBegin(clerk, request) =>
    case CounterCommit(clerk, reference, now) => CounterCommitKeeps(s, clerk, reference, now);
    case Publish(key, base, rules, preserveArrears) => PublishKeeps(s, key, base, rules, preserveArrears);
    case CommitYearEnd(fromYear, toYear, surveys) => YearEndKeeps(s, fromYear, toYear, surveys);
  }

  lemma {:induction false} RunKeeps(stores: seq<Store>, steps: seq<Step>, i: nat)
    requires IsRun(stores, steps) && i < |stores| && Inv(stores[0])
    ensures Inv(stores[i])
  {
    if i > 0 {
      RunKeeps(stores, steps, i - 1);
      StepKeeps(stores[i - 1], steps[i - 1]);
    }
  }
}
