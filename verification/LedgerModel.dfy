/**
 * The rows of the property-tax ledger. Amounts are whole paise, times are milliseconds.
 * Payments are keyed by `paymentReference`, which is also the `merchTxnId` of an online
 * payment; demands by their unique pair of survey and assessment year.
 */
module LedgerModel {
  import opened Common
  import opened Sums
  import opened OfflineRules

  datatype DemandKey = DemandKey(surveyId: string, yearId: string)

  datatype PaymentStatus = Initiated | Pending | Success | Failed | Refunded | PartiallyRefunded

  datatype DemandStatus = Draft | Published | Closed

  /** The demand as it was when the payment was credited, frozen for the receipt. */
  datatype Snapshot = Snapshot(
    propertyTax: int, waterTax: int, drainageTax: int, penalty: int, rebate: int, arrears: int,
    currentDemand: int, totalPayable: int,
    amountReceived: int, outstandingAfter: int, amountPaidAfter: int,
    yearId: string, surveyId: Option<string>, mode: PaymentMode, receiptNumber: string, paidAt: nat)

  datatype Payment = Payment(
    mode: PaymentMode,
    surveyId: Option<string>,
    yearId: Option<string>,
    demand: Option<DemandKey>,
    amount: int,
    status: PaymentStatus,
    atomTxnId: Option<string>,
    receiptNumber: Option<string>,
    collectionDate: Option<nat>,
    snapshot: Option<Snapshot>,
    clientKey: Option<string>)

  /** `rows` are the demand's arrear rows, at most one for each source year. */
  datatype Demand = Demand(
    status: DemandStatus,
    propertyTax: int, waterTax: int, drainageTax: int, penalty: int, rebate: int,
    arrears: int, currentDemand: int, totalPayable: int, amountPaid: int, outstanding: int,
    rows: map<string, int>)

  datatype Outcome = Succeeded | Unknown | Declined

  datatype CallbackRow = CallbackRow(
    paymentReference: string, atomTxnId: Option<string>, outcome: Outcome, key: string, processed: bool)

  datatype YearEndSummary = YearEndSummary(count: nat, totalArrears: int, carried: nat, skipped: nat)

  /** A counter request that has passed its pre-check and waits for the locked commit. */
  datatype CounterRequest = CounterRequest(
    key: DemandKey, amount: int, mode: PaymentMode, receiptNumber: Option<string>, clientKey: Option<string>)

  type Payments = map<string, Payment>

  type Demands = map<DemandKey, Demand>

  datatype Store = Store(
    payments: Payments,
    callbacks: seq<CallbackRow>,
    demands: Demands,
    runs: map<(string, string), YearEndSummary>,
    counter: map<string, CounterRequest>)

  predicate IsPublished(demands: Demands, key: DemandKey) {
    key in demands && demands[key].status == Published
  }

  // ---- What was paid towards a demand ----

  predicate CountsFor(p: Payment, key: DemandKey) {
    p.status == Success && p.surveyId == Some(key.surveyId) && p.yearId == Some(key.yearId)
  }

  function PaidBy(p: Payment, key: DemandKey): int {
    if CountsFor(p, key) then p.amount else 0
  }

  function PaidColumn(payments: Payments, key: DemandKey): map<string, int> {
    map r | r in payments :: PaidBy(payments[r], key)
  }

  /** The SUCCESS payments of the demand's survey and year, added up. */
  ghost function PaidFor(payments: Payments, key: DemandKey): int {
    SumMap(PaidColumn(payments, key))
  }

  /** Writing one payment row changes what was paid for a demand by that row only. */
  lemma PaidForUpdate(payments: Payments, r: string, p: Payment, key: DemandKey)
    ensures PaidFor(payments[r := p], key)
            == PaidFor(payments, key) + PaidBy(p, key) - (if r in payments then PaidBy(payments[r], key) else 0)
  {
    assert PaidColumn(payments[r := p], key) == PaidColumn(payments, key)[r := PaidBy(p, key)];
    SumMapUpdate(PaidColumn(payments, key), r, PaidBy(p, key));
  }

  lemma PaidForNonNegative(payments: Payments, key: DemandKey)
    requires forall r :: r in payments ==> payments[r].amount > 0
    ensures PaidFor(payments, key) >= 0
  {
    SumMapNonNegative(PaidColumn(payments, key));
  }

  // ---- Crediting a demand ----

  /** `buildReceiptSnapshot` for a payment of p that leaves the given balance. */
  function SnapshotOf(
    d: Demand, key: DemandKey, surveyId: Option<string>, p: int, balance: Balance, mode: PaymentMode,
    receiptNumber: string, paidAt: nat): Snapshot
  {
    Snapshot(
      d.propertyTax, d.waterTax, d.drainageTax, d.penalty, d.rebate, d.arrears, d.currentDemand, d.totalPayable,
      p, balance.outstanding, balance.amountPaid, key.yearId, surveyId, mode, receiptNumber, paidAt)
  }

  function Credited(d: Demand, p: int): Demand {
    var balance := OutstandingAfterPayment(d.totalPayable, d.amountPaid, p);
    d.(amountPaid := balance.amountPaid, outstanding := balance.outstanding)
  }

  // ---- Unique columns ----

  predicate AtomTaken(payments: Payments, except: string, atomTxnId: Option<string>) {
    atomTxnId.Some? && exists r :: r in payments && r != except && payments[r].atomTxnId == atomTxnId
  }

  predicate ReceiptTaken(payments: Payments, except: string, receiptNumber: Option<string>) {
    receiptNumber.Some? && exists r :: r in payments && r != except && payments[r].receiptNumber == receiptNumber
  }

  predicate ClientKeyTaken(payments: Payments, clientKey: Option<string>) {
    clientKey.Some? && exists r :: r in payments && payments[r].clientKey == clientKey
  }
}
