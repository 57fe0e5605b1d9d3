/** What the ledger promises over whole runs. */
module LedgerLaws {
  import opened Common
  import opened Sums
  import opened LedgerModel
  import opened OfflineRules
  import opened OnlinePayments
  import opened LedgerRuns
  import Counter = CounterPayments
  import Pub = Publication
  import YearEnd
  import YearEndLaws
  import A = Assessment
  import R = Receipts
  import ReceiptLaws

  // ---- The ledger adds up ----

  /** At every point of every run a published demand shows what was paid for it and what is left. */
  lemma LedgerAddsUp(stores: seq<Store>, steps: seq<Step>, i: nat, key: DemandKey)
    requires IsRun(stores, steps) && stores[0] == Empty && i < |stores|
    requires IsPublished(stores[i].demands, key)
    ensures
      var d := stores[i].demands[key];
      && d.amountPaid == PaidFor(stores[i].payments, key)
      && d.outstanding == Max(0, d.totalPayable - PaidFor(stores[i].payments, key))
      && d.totalPayable == d.currentDemand + d.arrears
  {
    EmptyInv();
    RunKeeps(stores, steps, i);
  }

  // ---- What a payment row never loses ----

  predicate Grows(p: Payment, p': Payment) {
    && p'.amount == p.amount && p'.mode == p.mode
    && p'.surveyId == p.surveyId && p'.yearId == p.yearId && p'.clientKey == p.clientKey
    && (p.status == Success ==> p'.status == Success)
    && (p.receiptNumber.Some? ==> p'.receiptNumber == p.receiptNumber && p'.collectionDate == p.collectionDate)
    && (p.snapshot.Some? ==> p'.snapshot == p.snapshot)
  }

  ghost predicate PaymentsGrow(a: Payments, b: Payments) {
    forall r :: r in a ==> r in b && Grows(a[r], b[r])
  }

  lemma SettleGrows(
    s: Store, reference: string, success: bool, status: PaymentStatus, atomTxnId: Option<string>, now: nat)
    requires Inv(s) && reference in s.payments && StatusFits(s.payments[reference], success, status)
    ensures Settle(s, reference, success, status, atomTxnId, now).Some? ==>
              PaymentsGrow(s.payments, Settle(s, reference, success, status, atomTxnId, now).value.payments)
  {
    assert PaymentOk(s.payments[reference]);
  }

  lemma UnprocessedKeepsPayments(s: Store, cb: GatewayCallback)
    requires Verdict(s, cb) != Processed
    ensures AfterCallback(s, cb).payments == s.payments
  {
  }

  lemma SamePaymentsGrow(payments: Payments)
    ensures PaymentsGrow(payments, payments)
  {
  }

  lemma CallbackGrows(s: Store, cb: GatewayCallback)
    requires Inv(s)
    ensures PaymentsGrow(s.payments, AfterCallback(s, cb).payments)
  {
    SamePaymentsGrow(s.payments);
    if Verdict(s, cb) == Processed {
      var p := s.payments[cb.merchTxnId.value];
      SettleGrows(
        s, cb.merchTxnId.value, cb.outcome == Succeeded, EffectiveStatus(p, cb.outcome), cb.atomTxnId, cb.now);
    } else {
      UnprocessedKeepsPayments(s, cb);
    }
  }

  lemma RequeryGrows(s: Store, reference: string, byCitizen: bool, success: bool, atomTxnId: Option<string>, now: nat)
    requires Inv(s)
    ensures PaymentsGrow(s.payments, AfterRequery(s, reference, byCitizen, success, atomTxnId, now).payments)
  {
    if reference in s.payments {
      SettleGrows(s, reference, success, if success then Success else s.payments[reference].status, atomTxnId, now);
    }
  }

  lemma CreateOnlineGrows(s: Store, reference: string, key: DemandKey, due: int, tokenIssued: bool)
    ensures PaymentsGrow(s.payments, OnlinePayments.CreateOnline(s, reference, key, due, tokenIssued).payments)
  {
    assert forall r :: r in s.payments ==> Grows(s.payments[r], s.payments[r]);
  }

  lemma CounterCommitGrows(s: Store, clerk: string, reference: string, now: nat)
    ensures PaymentsGrow(s.payments, Counter.Commit(s, clerk, reference, now).payments)
  {
    if clerk in s.counter && Counter.Commits(s, s.counter[clerk], reference) {
      assert reference !in s.payments;
    }
  }

  lemma GatewayStepGrows(s: Store, step: Step)
    requires Inv(s) && (step.Callback? || step.Requery?)
    ensures PaymentsGrow(s.payments, Next(s, step).payments)
  {
    match step
    case Callback(cb) => CallbackGrows(s, cb);
    case Requery(reference, byCitizen, success, atomTxnId, now) =>
      RequeryGrows(s, reference, byCitizen, success, atomTxnId, now);
  }

  lemma StepGrows(s: Store, step: Step)
    requires Inv(s) && Enabled(s, step)
    ensures PaymentsGrow(s.payments, Next(s, step).payments)
  {
    match step
    case Callback(_) => GatewayStepGrows(s, step);
    case Requery(_, _, _, _, _) => GatewayStepGrows(s, step);
    case CreateOnline(reference, key, due, tokenIssued) => CreateOnlineGrows(s, reference, key, due, tokenIssued);
    case CounterBegin(clerk, request) => CounterNoCredit(s, clerk, request, "", 0);
    case CounterCommit(clerk, reference, now) => CounterCommitGrows(s, clerk, reference, now);
    case Publish(key, base, rules, preserveArrears) => PublishKeepsPayments(s, key, base, rules, preserveArrears);
    case CommitYearEnd(fromYear, toYear, surveys) => YearEndKeepsPayments(s, fromYear, toYear, surveys);
  }

  lemma PublishKeepsPayments(s: Store, key: DemandKey, base: A.TaxBase, rules: seq<A.Rule>, preserveArrears: bool)
    ensures Pub.Upsert(s, key, base, rules, preserveArrears).payments == s.payments
  {
  }

  lemma YearEndKeepsPayments(s: Store, fromYear: string, toYear: string, surveys: seq<string>)
    requires YearEnd.IsPreview(s.demands, fromYear, surveys)
    ensures YearEnd.Commit(s, fromYear, toYear, surveys).payments == s.payments
  {
  }

  lemma RunStepGrows(stores: seq<Store>, steps: seq<Step>, i: nat)
    requires IsRun(stores, steps) && Inv(stores[0]) && i < |steps|
    ensures PaymentsGrow(stores[i].payments, stores[i + 1].payments)
  {
    RunKeeps(stores, steps, i);
    StepGrows(stores[i], steps[i]);
  }

  lemma GrowthChains(a: Payments, b: Payments, c: Payments)
    requires PaymentsGrow(a, b) && PaymentsGrow(b, c)
    ensures PaymentsGrow(a, c)
  {
  }

  /**
   * Between any two points of a run no payment disappears, leaves SUCCESS, or has its receipt
   * number or snapshot rewritten.
   */
  lemma {:induction false} PaymentsGrowOverRuns(stores: seq<Store>, steps: seq<Step>, i: nat, j: nat)
    requires IsRun(stores, steps) && Inv(stores[0]) && i <= j < |stores|
    ensures PaymentsGrow(stores[i].payments, stores[j].payments)
    decreases j
  {
    if i < j {
      PaymentsGrowOverRuns(stores, steps, i, j - 1);
      RunStepGrows(stores, steps, j - 1);
      GrowthChains(stores[i].payments, stores[j - 1].payments, stores[j].payments);
    }
  }

  // ---- Exactly one credit ----

  /** A callback or requery about one payment. */
  predicate IsGatewayStep(step: Step, reference: string) {
    match step
    case Callback(cb) => cb.merchTxnId == Some(reference)
    case Requery(r, _, _, _, _) => r == reference
    case _ => false
  }

  /** Only the balance columns of the demands may differ. */
  ghost predicate SameButBalance(a: Demands, b: Demands) {
    && a.Keys == b.Keys
    && forall key :: key in a ==> b[key] == a[key].(amountPaid := b[key].amountPaid, outstanding := b[key].outstanding)
  }

  ghost predicate OnlyPayment(a: Payments, b: Payments, reference: string) {
    && a.Keys == b.Keys
    && forall r :: r in a && r != reference ==> b[r] == a[r]
  }

  ghost predicate BalanceKeptUnlessPublished(a: Demands, b: Demands) {
    forall key :: key in a && key in b && a[key].status != Published ==> a[key] == b[key]
  }

  ghost predicate GatewayFrame(s: Store, s': Store, reference: string) {
    && OnlyPayment(s.payments, s'.payments, reference)
    && SameButBalance(s.demands, s'.demands)
    && BalanceKeptUnlessPublished(s.demands, s'.demands)
  }

  lemma SettleFrame(
    s: Store, reference: string, success: bool, status: PaymentStatus, atomTxnId: Option<string>, now: nat)
    requires reference in s.payments
    ensures Settle(s, reference, success, status, atomTxnId, now).Some? ==>
              GatewayFrame(s, Settle(s, reference, success, status, atomTxnId, now).value, reference)
  {
  }

  lemma GatewayStepFrame(s: Store, step: Step, reference: string)
    requires IsGatewayStep(step, reference)
    ensures GatewayFrame(s, Next(s, step), reference)
  {
    match step
    case Callback(cb) =>
      if Verdict(s, cb) == Processed {
        SettleFrame(
          s, reference, cb.outcome == Succeeded, EffectiveStatus(s.payments[reference], cb.outcome), cb.atomTxnId,
          cb.now);
      }
    case Requery(_, _, success, atomTxnId, now) =>
      if reference in s.payments {
        SettleFrame(s, reference, success, if success then Success else s.payments[reference].status, atomTxnId, now);
      }
  }

  lemma FrameTransitive(a: Store, b: Store, c: Store, reference: string)
    requires GatewayFrame(a, b, reference) && GatewayFrame(b, c, reference)
    ensures GatewayFrame(a, c, reference)
  {
    forall key | key in a.demands
      ensures c.demands[key] == a.demands[key].(
                amountPaid := c.demands[key].amountPaid, outstanding := c.demands[key].outstanding)
    {
      assert key in b.demands;
    }
  }

  ghost predicate AllGatewaySteps(steps: seq<Step>, reference: string) {
    forall k :: 0 <= k < |steps| ==> IsGatewayStep(steps[k], reference)
  }

  lemma RunStep(stores: seq<Store>, steps: seq<Step>, i: nat)
    requires IsRun(stores, steps) && i < |steps|
    ensures Enabled(stores[i], steps[i]) && stores[i + 1] == Next(stores[i], steps[i])
  {
  }

  lemma {:induction false} GatewayRunFrame(stores: seq<Store>, steps: seq<Step>, reference: string, i: nat)
    requires IsRun(stores, steps) && i < |stores| && AllGatewaySteps(steps, reference)
    ensures GatewayFrame(stores[0], stores[i], reference)
  {
    if i > 0 {
      GatewayRunFrame(stores, steps, reference, i - 1);
      RunStep(stores, steps, i - 1);
      GatewayStepFrame(stores[i - 1], steps[i - 1], reference);
      FrameTransitive(stores[0], stores[i - 1], stores[i], reference);
    }
  }

  lemma OnePaymentDiffers(a: Payments, b: Payments, reference: string, key: DemandKey)
    requires OnlyPayment(a, b, reference) && reference in a
    ensures PaidFor(b, key) - PaidFor(a, key) == PaidBy(b[reference], key) - PaidBy(a[reference], key)
  {
    assert b == a[reference := b[reference]];
    PaidForUpdate(a, reference, b[reference], key);
  }

  /**
   * Any sequence of success, failure and unknown callbacks and of requeries for one payment, in any
   * order and with repeats, credits the payment's published demand once if it takes the payment to
   * SUCCESS and not at all otherwise; no other demand changes.
   */
  lemma CreditedExactlyOnce(stores: seq<Store>, steps: seq<Step>, reference: string, key: DemandKey)
    requires IsRun(stores, steps) && Inv(stores[0]) && reference in stores[0].payments && key in stores[0].demands
    requires AllGatewaySteps(steps, reference)
    ensures
      var first, last := stores[0], stores[|steps|];
      && reference in last.payments && key in last.demands
      && last.demands[key].amountPaid - first.demands[key].amountPaid
         == (if && IsPublished(first.demands, key)
                && first.payments[reference].status != Success
                && CountsFor(last.payments[reference], key)
             then first.payments[reference].amount else 0)
      && Grows(first.payments[reference], last.payments[reference])
  {
    var first, last := stores[0], stores[|steps|];
    GatewayRunFrame(stores, steps, reference, |steps|);
    PaymentsGrowOverRuns(stores, steps, 0, |steps|);
    RunKeeps(stores, steps, |steps|);
    CreditBetween(first, last, reference, key);
  }

  /**
   * Between two consistent ledgers that differ in one payment and in balances, the credit is what the payment gained.
   */
  lemma CreditBetween(first: Store, last: Store, reference: string, key: DemandKey)
    requires Inv(first) && Inv(last) && GatewayFrame(first, last, reference)
    requires reference in first.payments && key in first.demands
    requires Grows(first.payments[reference], last.payments[reference])
    ensures last.demands[key].amountPaid - first.demands[key].amountPaid
         == (if && IsPublished(first.demands, key)
                && first.payments[reference].status != Success
                && CountsFor(last.payments[reference], key)
             then first.payments[reference].amount else 0)
  {
    if IsPublished(first.demands, key) {
      assert last.demands[key].status == Published;
      OnePaymentDiffers(first.payments, last.payments, reference, key);
    }
  }

  /** The amount given is within one paise of the payment's; one may be missing only where none is required. */
  predicate AmountFits(cb: GatewayCallback, amount: int) {
    match cb.gatewayAmount
    case Some(given) => amount as real - 1.0 <= given <= amount as real + 1.0
    case None => !cb.amountRequired
  }

  /** With a matching amount a success is turned away as a duplicate only when it is already recorded. */
  lemma SuccessIsProcessed(s: Store, cb: GatewayCallback)
    requires Inv(s) && cb.outcome == Succeeded
    requires cb.merchTxnId.Some? && cb.merchTxnId.value != "" && cb.merchTxnId.value in s.payments
    requires s.payments[cb.merchTxnId.value].mode == Online
    requires AmountFits(cb, s.payments[cb.merchTxnId.value].amount)
    ensures Verdict(s, cb) == Processed
            || (Verdict(s, cb) == Duplicate && s.payments[cb.merchTxnId.value].status == Success)
  {
    assert PaymentOk(s.payments[cb.merchTxnId.value]);
  }

  lemma SettledOnSuccess(s: Store, reference: string, atomTxnId: Option<string>, now: nat)
    requires Inv(s) && reference in s.payments
    requires !AtomTaken(s.payments, reference, atomTxnId)
    requires !ReceiptTaken(s.payments, reference, Some("RCP-" + reference))
    ensures var settled := Settle(s, reference, true, Success, atomTxnId, now);
            settled.Some? && reference in settled.value.payments && settled.value.payments[reference].status == Success
  {
    var p := s.payments[reference];
    OwnColumnsAreFree(s.payments, reference);
    var settled := SettledPayment(s.demands, reference, p, true, Success, atomTxnId, now);
    assert settled.atomTxnId == atomTxnId.OrElse(p.atomTxnId);
    assert settled.receiptNumber == Some(ReceiptNumberFor(reference, p));
  }

  lemma OwnColumnsAreFree(payments: Payments, reference: string)
    requires UniqueColumns(payments) && reference in payments
    ensures !AtomTaken(payments, reference, payments[reference].atomTxnId)
    ensures !ReceiptTaken(payments, reference, payments[reference].receiptNumber)
  {
  }

  /** A success callback with the right amount is never lost: it leaves the payment at SUCCESS. */
  lemma SuccessIsRecorded(s: Store, cb: GatewayCallback)
    requires Inv(s) && cb.outcome == Succeeded
    requires cb.merchTxnId.Some? && cb.merchTxnId.value != "" && cb.merchTxnId.value in s.payments
    requires s.payments[cb.merchTxnId.value].mode == Online
    requires AmountFits(cb, s.payments[cb.merchTxnId.value].amount)
    requires !AtomTaken(s.payments, cb.merchTxnId.value, cb.atomTxnId)
    requires !ReceiptTaken(s.payments, cb.merchTxnId.value, Some("RCP-" + cb.merchTxnId.value))
    ensures AfterCallback(s, cb).payments[cb.merchTxnId.value].status == Success
  {
    SuccessIsProcessed(s, cb);
    SettledOnSuccess(s, cb.merchTxnId.value, cb.atomTxnId, cb.now);
  }

  // ---- The counter ----

  /**
   * Whatever ran between pre-check and commit, a recorded counter payment lowers the outstanding by
   * exactly its amount, never overpays the demand, and touches no other demand or payment.
   */
  lemma CounterCommitExact(s: Store, clerk: string, reference: string, now: nat)
    requires Inv(s) && clerk in s.counter && Counter.Commits(s, s.counter[clerk], reference)
    ensures
      var s', request := Counter.Commit(s, clerk, reference, now), s.counter[clerk];
      var d, d' := s.demands[request.key], s'.demands[request.key];
      && d'.outstanding == d.outstanding - request.amount
      && d'.amountPaid == d.amountPaid + request.amount <= d'.totalPayable == d.totalPayable
      && s'.demands - {request.key} == s.demands - {request.key}
      && reference !in s.payments && s'.payments - {reference} == s.payments
      && s'.payments[reference].amount == request.amount
  {
  }

  /** A commit that is not recorded, and a replayed or refused request, move no money. */
  lemma CounterNoCredit(s: Store, clerk: string, request: Counter.OfflineRequest, reference: string, now: nat)
    ensures Counter.Begin(s, clerk, request).payments == s.payments
    ensures Counter.Begin(s, clerk, request).demands == s.demands
    ensures clerk !in s.counter || !Counter.Commits(s, s.counter[clerk], reference) ==>
              var s' := Counter.Commit(s, clerk, reference, now);
              s'.payments == s.payments && s'.demands == s.demands
  {
  }

  /** Over a whole run one client key never belongs to two payments. */
  lemma ClientKeyOnce(
    stores: seq<Store>, steps: seq<Step>, i: nat, j: nat, r: string, r': string, clientKey: string)
    requires IsRun(stores, steps) && Inv(stores[0]) && i <= j < |stores|
    requires r in stores[i].payments && stores[i].payments[r].clientKey == Some(clientKey)
    requires r' in stores[j].payments && stores[j].payments[r'].clientKey == Some(clientKey)
    ensures r == r'
  {
    PaymentsGrowOverRuns(stores, steps, i, j);
    RunKeeps(stores, steps, j);
  }

  // ---- Publishing again changes nothing ----

  /** The base tax and rules that survey, rates and rule table give while they stay unchanged. */
  datatype Rates = Rates(base: DemandKey -> A.TaxBase, rules: string -> seq<A.Rule>)

  predicate UsesRates(step: Step, rates: Rates) {
    step.Publish? ==> step.base == rates.base(step.key) && step.rules == rates.rules(step.key.yearId)
  }

  function Recomputed(key: DemandKey, d: Demand, rates: Rates): Demand {
    Pub.PublishedDemand(A.Assess(rates.base(key), rates.rules(key.yearId), d.arrears, d.amountPaid), d.rows)
  }

  ghost predicate AllAsRecomputed(s: Store, rates: Rates) {
    forall key :: IsPublished(s.demands, key) ==> s.demands[key] == Recomputed(key, s.demands[key], rates)
  }

  /** Crediting a payment is what reassessing with the new amount paid would write. */
  lemma CreditedAsRecomputed(key: DemandKey, d: Demand, p: int, rates: Rates)
    requires d == Recomputed(key, d, rates) && d.amountPaid + p >= 0
    ensures Credited(d, p) == Recomputed(key, Credited(d, p), rates)
  {
  }

  lemma SettledDemandsAsRecomputed(demands: Demands, p: Payment, success: bool, rates: Rates)
    requires p.amount > 0 && forall key :: key in demands ==> DemandOk(demands[key])
    requires forall key :: IsPublished(demands, key) ==> demands[key] == Recomputed(key, demands[key], rates)
    ensures var after := SettledDemands(demands, p, success);
            forall key :: IsPublished(after, key) ==> after[key] == Recomputed(key, after[key], rates)
  {
    var key := CreditKey(demands, p, success);
    if key.Some? {
      CreditedAsRecomputed(key.value, demands[key.value], p.amount, rates);
    }
  }

  lemma SettleKeepsRecomputed(
    s: Store, reference: string, success: bool, status: PaymentStatus, atomTxnId: Option<string>, now: nat,
    rates: Rates)
    requires Inv(s) && AllAsRecomputed(s, rates) && reference in s.payments
    ensures AllAsRecomputed(Settle(s, reference, success, status, atomTxnId, now).GetOr(s), rates)
  {
    assert PaymentOk(s.payments[reference]);
    SettledDemandsAsRecomputed(s.demands, s.payments[reference], success, rates);
  }

  lemma YearEndKeepsRecomputed(s: Store, fromYear: string, toYear: string, surveys: seq<string>, rates: Rates)
    requires Inv(s) && AllAsRecomputed(s, rates) && YearEnd.IsPreview(s.demands, fromYear, surveys)
    ensures AllAsRecomputed(YearEnd.Commit(s, fromYear, toYear, surveys), rates)
  {
    var s' := YearEnd.Commit(s, fromYear, toYear, surveys);
    if fromYear != toYear && (fromYear, toYear) !in s.runs {
      forall key | IsPublished(s'.demands, key) ensures s'.demands[key] == Recomputed(key, s'.demands[key], rates) {
        YearEndLaws.CarryAllRow(s.demands, s.demands, fromYear, toYear, surveys, key);
        assert YearEndLaws.Row(s'.demands, key) == Some(s'.demands[key]);
        if key.yearId == toYear && key.surveyId in surveys && !YearEnd.AlreadyCarried(s.demands, key, fromYear) {
          CarriedAsRecomputed(
            key, s.demands[key], fromYear, YearEnd.OutstandingOf(s.demands, fromYear, key.surveyId), rates);
        }
      }
    }
  }

  lemma CarriedAsRecomputed(key: DemandKey, d: Demand, fromYear: string, amount: int, rates: Rates)
    requires d == Recomputed(key, d, rates) && DemandOk(d) && amount >= 0
    ensures YearEnd.WithArrear(d, fromYear, amount) == Recomputed(key, YearEnd.WithArrear(d, fromYear, amount), rates)
  {
    SumMapNonNegative(d.rows);
  }

  lemma PublishKeepsRecomputed(s: Store, key: DemandKey, preserveArrears: bool, rates: Rates)
    requires Inv(s) && AllAsRecomputed(s, rates)
    ensures AllAsRecomputed(Pub.Upsert(s, key, rates.base(key), rates.rules(key.yearId), preserveArrears), rates)
  {
    PaidForNonNegative(s.payments, key);
  }

  lemma CallbackKeepsRecomputed(s: Store, cb: GatewayCallback, rates: Rates)
    requires Inv(s) && AllAsRecomputed(s, rates)
    ensures AllAsRecomputed(AfterCallback(s, cb), rates)
  {
    if Verdict(s, cb) == Processed {
      var reference := cb.merchTxnId.value;
      SettleKeepsRecomputed(
        s, reference, cb.outcome == Succeeded, EffectiveStatus(s.payments[reference], cb.outcome), cb.atomTxnId,
        cb.now, rates);
    }
  }

  lemma RequeryKeepsRecomputed(
    s: Store, reference: string, byCitizen: bool, success: bool, atomTxnId: Option<string>, now: nat, rates: Rates)
    requires Inv(s) && AllAsRecomputed(s, rates)
    ensures AllAsRecomputed(AfterRequery(s, reference, byCitizen, success, atomTxnId, now), rates)
  {
    if reference in s.payments {
      SettleKeepsRecomputed(
        s, reference, success, if success then Success else s.payments[reference].status, atomTxnId, now, rates);
    }
  }

  lemma CounterKeepsRecomputed(s: Store, clerk: string, reference: string, now: nat, rates: Rates)
    requires Inv(s) && AllAsRecomputed(s, rates)
    ensures AllAsRecomputed(Counter.Commit(s, clerk, reference, now), rates)
  {
    if clerk in s.counter && Counter.Commits(s, s.counter[clerk], reference) {
      var request := s.counter[clerk];
      CreditedAsRecomputed(request.key, s.demands[request.key], request.amount, rates);
    }
  }

  lemma StepKeepsRecomputed(s: Store, step: Step, rates: Rates)
    requires Inv(s) && Enabled(s, step) && AllAsRecomputed(s, rates) && UsesRates(step, rates)
    ensures AllAsRecomputed(Next(s, step), rates)
  {
    match step
    case Callback(cb) => CallbackKeepsRecomputed(s, cb, rates);
    case Requery(reference, byCitizen, success, atomTxnId, now) =>
      RequeryKeepsRecomputed(s, reference, byCitizen, success, atomTxnId, now, rates);
    case CounterCommit(clerk, reference, now) => CounterKeepsRecomputed(s, clerk, reference, now, rates);
    case Publish(key, _, _, preserveArrears) => PublishKeepsRecomputed(s, key, preserveArrears, rates);
    case CommitYearEnd(fromYear, toYear, surveys) => YearEndKeepsRecomputed(s, fromYear, toYear, surveys, rates);
    case CreateOnline(_, _, _, _) =>
    case CounterBegin(_, _) =>
  }

  lemma {:induction false} RunKeepsRecomputed(stores: seq<Store>, steps: seq<Step>, rates: Rates, i: nat)
    requires IsRun(stores, steps) && stores[0] == Empty && i < |stores|
    requires forall k :: 0 <= k < |steps| ==> UsesRates(steps[k], rates)
    ensures Inv(stores[i]) && AllAsRecomputed(stores[i], rates)
  {
    EmptyInv();
    RunKeeps(stores, steps, i);
    if i > 0 {
      RunKeepsRecomputed(stores, steps, rates, i - 1);
      StepKeepsRecomputed(stores[i - 1], steps[i - 1], rates);
    }
  }

  /**
   * After any run of payments, carries and publications at unchanged rates, republishing an already
   * published demand with its arrears preserved leaves the whole ledger as it was.
   */
  lemma RepublishChangesNothing(stores: seq<Store>, steps: seq<Step>, rates: Rates, i: nat, key: DemandKey)
    requires IsRun(stores, steps) && stores[0] == Empty && i < |stores|
    requires forall k :: 0 <= k < |steps| ==> UsesRates(steps[k], rates)
    requires IsPublished(stores[i].demands, key)
    ensures Pub.Upsert(stores[i], key, rates.base(key), rates.rules(key.yearId), true) == stores[i]
  {
    RunKeepsRecomputed(stores, steps, rates, i);
    var s := stores[i];
    assert s.demands[key] == Recomputed(key, s.demands[key], rates);
  }

  // ---- Arrears and their rows ----

  ghost predicate ArrearsAreRows(s: Store) {
    forall key :: key in s.demands ==> s.demands[key].arrears == SumMap(s.demands[key].rows)
  }

  predicate KeepsArrears(step: Step) {
    step.Publish? ==> step.preserveArrears
  }

  lemma BalanceKeepsArrears(s: Store, s': Store)
    requires ArrearsAreRows(s) && SameButBalance(s.demands, s'.demands)
    ensures ArrearsAreRows(s')
  {
  }

  lemma GatewayKeepsArrears(s: Store, step: Step, reference: string)
    requires ArrearsAreRows(s) && IsGatewayStep(step, reference)
    ensures ArrearsAreRows(Next(s, step))
  {
    GatewayStepFrame(s, step, reference);
    BalanceKeepsArrears(s, Next(s, step));
  }

  lemma CounterKeepsArrears(s: Store, clerk: string, reference: string, now: nat)
    requires ArrearsAreRows(s)
    ensures ArrearsAreRows(Counter.Commit(s, clerk, reference, now))
  {
  }

  lemma PublishKeepsArrears(s: Store, key: DemandKey, base: A.TaxBase, rules: seq<A.Rule>)
    requires Inv(s) && ArrearsAreRows(s)
    ensures ArrearsAreRows(Pub.Upsert(s, key, base, rules, true))
  {
  }

  lemma YearEndKeepsArrears(s: Store, fromYear: string, toYear: string, surveys: seq<string>)
    requires ArrearsAreRows(s) && YearEnd.IsPreview(s.demands, fromYear, surveys)
    ensures ArrearsAreRows(YearEnd.Commit(s, fromYear, toYear, surveys))
  {
    var s' := YearEnd.Commit(s, fromYear, toYear, surveys);
    if fromYear != toYear && (fromYear, toYear) !in s.runs {
      forall key | key in s'.demands ensures s'.demands[key].arrears == SumMap(s'.demands[key].rows) {
        YearEndLaws.CommitEffect(s, fromYear, toYear, surveys, key);
        assert YearEndLaws.Row(s'.demands, key) == Some(s'.demands[key]);
        YearEndLaws.CarryAllRow(s.demands, s.demands, fromYear, toYear, surveys, key);
      }
    }
  }

  lemma StepKeepsArrears(s: Store, step: Step)
    requires Inv(s) && Enabled(s, step) && ArrearsAreRows(s) && KeepsArrears(step)
    ensures ArrearsAreRows(Next(s, step))
  {
    match step
    case Callback(cb) =>
      if cb.merchTxnId.Some? {
        GatewayKeepsArrears(s, step, cb.merchTxnId.value);
      }
    case Requery(reference, _, _, _, _) => GatewayKeepsArrears(s, step, reference);
    case CounterCommit(clerk, reference, now) => CounterKeepsArrears(s, clerk, reference, now);
    case Publish(key, base, rules, _) => PublishKeepsArrears(s, key, base, rules);
    case CommitYearEnd(fromYear, toYear, surveys) => YearEndKeepsArrears(s, fromYear, toYear, surveys);
    case CreateOnline(_, _, _, _) =>
    case CounterBegin(_, _) =>
  }

  /** While single publications are left out, every demand's arrears are the sum of its rows. */
  lemma {:induction false} ArrearsMatchRows(stores: seq<Store>, steps: seq<Step>, i: nat)
    requires IsRun(stores, steps) && stores[0] == Empty && i < |stores|
    requires forall k :: 0 <= k < |steps| ==> KeepsArrears(steps[k])
    ensures ArrearsAreRows(stores[i])
  {
    if i > 0 {
      ArrearsMatchRows(stores, steps, i - 1);
      EmptyInv();
      RunKeeps(stores, steps, i - 1);
      RunStep(stores, steps, i - 1);
      StepKeepsArrears(stores[i - 1], steps[i - 1]);
    }
  }

  /** A single publication zeroes the arrears; it keeps the match exactly on demands without rows. */
  lemma SinglePublishKeepsMatchIff(s: Store, key: DemandKey, base: A.TaxBase, rules: seq<A.Rule>)
    requires Inv(s) && key in s.demands
    ensures
      var d := Pub.Upsert(s, key, base, rules, false).demands[key];
      d.arrears == SumMap(d.rows) <==> s.demands[key].rows == map[]
  {
    var rows := s.demands[key].rows;
    if rows != map[] {
      var y :| y in rows;
      SumMapRemove(rows, y);
      SumMapNonNegative(rows - {y});
      assert DemandOk(s.demands[key]);
    }
  }

  // ---- Counter receipts ----

  predicate SaneRates(rates: Rates, key: DemandKey) {
    A.SaneBase(rates.base(key)) && A.SaneRules(rates.rules(key.yearId))
  }

  function InputOf(snapshot: Snapshot): R.AllocationInput {
    R.AllocationInput(
      snapshot.propertyTax, snapshot.waterTax, snapshot.drainageTax, snapshot.penalty, snapshot.rebate,
      snapshot.arrears,
      snapshot.amountPaidAfter, snapshot.amountReceived, snapshot.outstandingAfter, Some(snapshot.yearId))
  }

  /** The snapshot gives back what was paid and what was outstanding before its payment. */
  predicate SnapshotRecovers(snapshot: Snapshot, d: Demand) {
    && R.PaidBefore(InputOf(snapshot)) == d.amountPaid
    && ReceiptLaws.OutstandingBefore(
         snapshot.totalPayable, snapshot.amountPaidAfter, snapshot.amountReceived, snapshot.outstandingAfter)
       == d.outstanding
  }

  /** The receipt spreads the whole payment over the heads. */
  predicate SnapshotFitsHeads(snapshot: Snapshot) {
    var dues, before := R.HeadDues(InputOf(snapshot)), R.PaidBefore(InputOf(snapshot));
    R.Allocation(dues, before, snapshot.amountReceived) == R.Shares(dues, before, snapshot.amountReceived)
  }

  /** What a counter payment's receipt shows of the demand it was paid to. */
  ghost predicate ReceiptFits(s: Store, clerk: string, reference: string, now: nat)
    requires clerk in s.counter && Counter.Commits(s, s.counter[clerk], reference)
  {
    var snapshot := Counter.Commit(s, clerk, reference, now).payments[reference].snapshot;
    snapshot.Some? && SnapshotRecovers(snapshot.value, s.demands[s.counter[clerk].key])
        && SnapshotFitsHeads(snapshot.value)
  }

  /** The snapshot a counter commit freezes. */
  function CounterSnapshot(d: Demand, request: CounterRequest, reference: string, now: nat): Snapshot {
    Counter.NewCounterPayment(d, request, reference, now).snapshot.value
  }

  lemma CounterSnapshotRecovers(d: Demand, request: CounterRequest, reference: string, now: nat)
    requires DemandOk(d) && CheckAmount(request.amount, d.outstanding).None?
    ensures SnapshotRecovers(CounterSnapshot(d, request, reference, now), d)
  {
  }

  lemma CounterSnapshotFitsHeads(d: Demand, request: CounterRequest, reference: string, now: nat, rates: Rates)
    requires d == Recomputed(request.key, d, rates) && DemandOk(d) && CheckAmount(request.amount, d.outstanding).None?
    requires SaneRates(rates, request.key)
    ensures SnapshotFitsHeads(CounterSnapshot(d, request, reference, now))
  {
    ReceiptLaws.ReceiptWithinPayable(
      rates.base(request.key), rates.rules(request.key.yearId), d.arrears, d.amountPaid, request.amount);
  }

  /**
   * The snapshot of every counter payment recovers the outstanding the clerk saw, and its receipt
   * spreads the payment over the heads without a remainder.
   */
  lemma CounterReceiptFits(s: Store, clerk: string, reference: string, now: nat, rates: Rates)
    requires Inv(s) && AllAsRecomputed(s, rates)
    requires clerk in s.counter && Counter.Commits(s, s.counter[clerk], reference)
    requires SaneRates(rates, s.counter[clerk].key)
    ensures ReceiptFits(s, clerk, reference, now)
  {
    var request := s.counter[clerk];
    var d := s.demands[request.key];
    assert d == Recomputed(request.key, d, rates);
    CounterSnapshotRecovers(d, request, reference, now);
    CounterSnapshotFitsHeads(d, request, reference, now, rates);
  }
}
