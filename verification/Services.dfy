/**
 * The services that write the ledger, statement by statement. Each method is one request
 * (the counter payment is two), and leaves the database as the ledger's steps say.
 */
module Services {
  import opened Common
  import opened Sums
  import opened LedgerModel
  import opened OfflineRules
  import opened OnlinePayments
  import opened LedgerRuns
  import Counter = CounterPayments
  import Pub = Publication
  import YearEnd
  import YearEndLaws
  import A = Assessment
  import Tax
  import WardPublication

  class Database {
    var payments: Payments
    var callbacks: seq<CallbackRow>
    var demands: Demands
    var runs: map<(string, string), YearEndSummary>
    var counter: map<string, CounterRequest>

    ghost function State(): Store
      reads this
    {
      Store(payments, callbacks, demands, runs, counter)
    }

    constructor ()
      ensures State() == Empty
    {
      payments, callbacks, demands, runs, counter := map[], [], map[], map[], map[];
    }
  }

  class PaymentsService {
    const db: Database

    constructor (db: Database)
      ensures this.db == db
    {
      this.db := db;
    }

    // ---- Online payments ----

    method CreateOnlinePayment(reference: string, key: DemandKey, recomputedDue: int, tokenIssued: bool)
      returns (created: bool)
      modifies db
      ensures db.State() == OnlinePayments.CreateOnline(old(db.State()), reference, key, recomputedDue, tokenIssued)
      ensures created <==> reference in db.payments && reference !in old(db.payments)
    {
      var amount, demand := recomputedDue, None;
      if key in db.demands && db.demands[key].status == Published {
        amount, demand := db.demands[key].outstanding, Some(key);
      }
      if amount <= 0 || reference in db.payments {
        return false;
      }
      db.payments := db.payments[reference := Payment(
                                   Online, Some(key.surveyId), Some(key.yearId), demand, amount, Initiated,
                                   None, None, None, None, None)];
      if !tokenIssued {
        db.payments := db.payments[reference := db.payments[reference].(status := Failed)];
        return true;
      }
      db.payments := db.payments[reference := db.payments[reference].(status := Pending)];
      created := true;
    }

    /** Credits the payment's published demand, if there is one, and freezes the receipt. */
    method ApplyOnlineSuccessToDemand(p: Payment, receiptNumber: string, paidAt: nat)
      returns (credited: Option<DemandKey>, snapshot: Option<Snapshot>)
      modifies db`demands
      ensures credited == DemandToCredit(old(db.demands), p)
      ensures credited.None? ==> snapshot.None? && db.demands == old(db.demands)
      ensures credited.Some? ==>
                var d := old(db.demands)[credited.value];
                && snapshot == Some(SnapshotOf(
                                      d, credited.value, p.surveyId, p.amount,
                                      OutstandingAfterPayment(d.totalPayable, d.amountPaid, p.amount),
                                      p.mode, receiptNumber, paidAt))
                && db.demands == old(db.demands)[credited.value := Credited(d, p.amount)]
    {
      var key := p.demand;
      if key.None? && p.surveyId.Some? && p.yearId.Some? {
        var found := DemandKey(p.surveyId.value, p.yearId.value);
        if found in db.demands && db.demands[found].status == Published {
          key := Some(found);
        }
      }
      if key.None? || key.value !in db.demands || db.demands[key.value].status != Published {
        return None, None;
      }
      var locked := db.demands[key.value];
      var balance := OutstandingAfterPayment(locked.totalPayable, locked.amountPaid, p.amount);
      snapshot := Some(SnapshotOf(locked, key.value, p.surveyId, p.amount, balance, p.mode, receiptNumber, paidAt));
      db.demands := db.demands[key.value :=
        locked.(amountPaid := balance.amountPaid, outstanding := balance.outstanding)];
      credited := key;
    }

    /** Only a first success reaches the demand. */
    method CreditFirstSuccess(p: Payment, success: bool, receiptNumber: string, paidAt: nat)
      returns (credited: Option<DemandKey>, snapshot: Option<Snapshot>)
      modifies db`demands
      ensures credited == CreditKey(old(db.demands), p, success)
      ensures db.demands == SettledDemands(old(db.demands), p, success)
      ensures credited.None? ==> snapshot.None?
      ensures credited.Some? ==>
                && credited.value in old(db.demands)
                && var d := old(db.demands)[credited.value];
                snapshot == Some(SnapshotOf(
                                   d, credited.value, p.surveyId, p.amount,
                                   OutstandingAfterPayment(d.totalPayable, d.amountPaid, p.amount),
                                   p.mode, receiptNumber, paidAt))
    {
      credited, snapshot := None, None;
      if success && p.status != Success && p.snapshot.None? {
        credited, snapshot := ApplyOnlineSuccessToDemand(p, receiptNumber, paidAt);
      }
    }

    /** The transaction of callbacks and requeries; a clash on a unique column undoes it. */
    method SettlePayment(reference: string, success: bool, status: PaymentStatus, atomTxnId: Option<string>, now: nat)
      returns (committed: bool)
      requires reference in db.payments
      modifies db`payments, db`demands
      ensures committed <==> Settle(old(db.State()), reference, success, status, atomTxnId, now).Some?
      ensures db.State() == Settle(old(db.State()), reference, success, status, atomTxnId, now).GetOr(old(db.State()))
    {
      var demandsBefore, p := db.demands, db.payments[reference];
      var updated := CreditAndUpdate(reference, p, success, status, atomTxnId, now);
      committed := WritePayment(reference, updated);
      if !committed {
        db.demands := demandsBefore;
      }
    }

    /** Credits a first success and gathers the columns of the payment's update. */
    method CreditAndUpdate(
      reference: string, p: Payment, success: bool, status: PaymentStatus, atomTxnId: Option<string>, now: nat)
      returns (updated: Payment)
      modifies db`demands
      ensures updated == SettledPayment(old(db.demands), reference, p, success, status, atomTxnId, now)
      ensures db.demands == SettledDemands(old(db.demands), p, success)
    {
      var receiptNumber := if p.receiptNumber.Some? then p.receiptNumber.value else "RCP-" + reference;
      var date := if p.collectionDate.Some? then p.collectionDate.value else now;
      var credited, snapshot := CreditFirstSuccess(p, success, receiptNumber, date);
      updated := p.(status := status, atomTxnId := if atomTxnId.Some? then atomTxnId else p.atomTxnId);
      if success && p.receiptNumber.None? {
        updated := updated.(receiptNumber := Some(receiptNumber), collectionDate := Some(date));
      }
      if credited.Some? {
        updated := updated.(demand := credited, snapshot := snapshot);
      }
    }

    /** The row update; false when a unique column clashes. */
    method WritePayment(reference: string, updated: Payment) returns (written: bool)
      modifies db`payments
      ensures written <==> !AtomTaken(old(db.payments), reference, updated.atomTxnId)
                           && !ReceiptTaken(old(db.payments), reference, updated.receiptNumber)
      ensures db.payments == if written then old(db.payments)[reference := updated] else old(db.payments)
    {
      if AtomTaken(db.payments, reference, updated.atomTxnId)
          || ReceiptTaken(db.payments, reference, updated.receiptNumber) {
        return false;
      }
      db.payments := db.payments[reference := updated];
      written := true;
    }

    method HandleCallback(cb: GatewayCallback) returns (verdict: CallbackVerdict)
      modifies db
      ensures verdict == Verdict(old(db.State()), cb)
      ensures db.State() == AfterCallback(old(db.State()), cb)
    {
      var key := CallbackKey(cb);
      if cb.merchTxnId.None? || cb.merchTxnId.value == "" {
        return Rejected;
      }
      var reference := cb.merchTxnId.value;
      if reference !in db.payments || db.payments[reference].mode != Online {
        return Rejected;
      }
      var payment := db.payments[reference];
      var existing := ExistingCallback(db.callbacks, key, reference);
      var success := cb.outcome == Succeeded;
      if existing < |db.callbacks| && db.callbacks[existing].processed
          && !ShouldReprocess(true, success, payment.status) {
        var row := db.callbacks[existing];
        if cb.atomTxnId.Some? && cb.atomTxnId.value != "" && row.atomTxnId != cb.atomTxnId {
          db.callbacks := db.callbacks[existing := row.(atomTxnId := cb.atomTxnId, outcome := cb.outcome, key := key)];
        }
        return Duplicate;
      }
      if AmountMismatch(cb, payment.amount) {
        return Rejected;
      }

      var next := if success then Success else if cb.outcome == Unknown then payment.status else Failed;
      var effective := if payment.status == Success && !success then Success else next;
      ProcessCallback(cb, reference, key, effective);
      verdict := Processed;
    }

    /** The transaction of a callback: its row, the settlement, then the row's processed mark. */
    method ProcessCallback(cb: GatewayCallback, reference: string, key: string, status: PaymentStatus)
      requires reference in db.payments && key == CallbackKey(cb)
      modifies db`payments, db`demands, db`callbacks
      ensures
        var settled := Settle(old(db.State()), reference, cb.outcome == Succeeded, status, cb.atomTxnId, cb.now);
        db.State() == if settled.None? then old(db.State())
                      else settled.value.(callbacks := RecordedCallbacks(old(db.callbacks), cb, reference))
    {
      var callbacksBefore := db.callbacks;
      var existing := RecordCallback(cb, reference, key);
      var committed := SettlePayment(reference, cb.outcome == Succeeded, status, cb.atomTxnId, cb.now);
      if committed {
        db.callbacks := db.callbacks[existing := db.callbacks[existing].(processed := true)];
      } else {
        db.callbacks := callbacksBefore;
      }
    }

    /** Updates the callback's row or adds one, not yet processed. */
    method RecordCallback(cb: GatewayCallback, reference: string, key: string) returns (existing: nat)
      requires key == CallbackKey(cb)
      modifies db`callbacks
      ensures existing < |db.callbacks|
      ensures db.callbacks[existing := db.callbacks[existing].(processed := true)]
           == RecordedCallbacks(old(db.callbacks), cb, reference)
    {
      existing := ExistingCallback(db.callbacks, key, reference);
      if existing < |db.callbacks| {
        var row := db.callbacks[existing];
        db.callbacks := db.callbacks[existing := row.(
                                       outcome := cb.outcome, key := key, processed := false,
                                       atomTxnId := if cb.atomTxnId.Some? then cb.atomTxnId else row.atomTxnId)];
      } else {
        db.callbacks := db.callbacks + [CallbackRow(reference, cb.atomTxnId, cb.outcome, key, false)];
      }
    }

    /** `requery` and `syncCitizenPaymentByMerchTxnId`, once the gateway has answered. */
    method FinalizeRequery(reference: string, byCitizen: bool, success: bool, atomTxnId: Option<string>, now: nat)
      modifies db`payments, db`demands
      ensures db.State() == AfterRequery(old(db.State()), reference, byCitizen, success, atomTxnId, now)
    {
      if reference !in db.payments || db.payments[reference].mode != Online {
        return;
      }
      var payment := db.payments[reference];
      if byCitizen && (payment.status == Success || payment.status == Failed || payment.status == Refunded) {
        return;
      }
      if !success {
        var _ := SettlePayment(reference, false, payment.status, atomTxnId, now);
        return;
      }
      var _ := SettlePayment(reference, true, Success, atomTxnId, now);
    }

    // ---- The counter ----

    /** The first half of `createOffline`: validation, replay of a known client key, unlocked pre-check. */
    method BeginOffline(clerk: string, request: Counter.OfflineRequest) returns (reply: Counter.Reply)
      requires clerk !in db.counter
      modifies db`counter
      ensures db.State() == Counter.Begin(old(db.State()), clerk, request)
      ensures reply.Admitted? <==> clerk in db.counter
      ensures reply.Replayed? ==>
                reply.reference in db.payments
                && db.payments[reply.reference].clientKey == Counter.Cleaned(request.clientKey) != None
      ensures reply.Refused? ==>
                Some(reply.error) == if Counter.RequestError(request).Some? then Counter.RequestError(request)
                                     else Counter.PreCheck(db.demands, request)
      ensures !reply.Recorded?
    {
      if Counter.RequestError(request).Some? {
        return Counter.Refused(Counter.RequestError(request).value);
      }
      var clientKey := Counter.Cleaned(request.clientKey);
      if clientKey.Some? {
        if r :| r in db.payments && db.payments[r].clientKey == clientKey {
          return Counter.Replayed(r);
        }
      }
      var key := DemandKey(request.surveyId, request.yearId);
      if key !in db.demands || db.demands[key].status != Published {
        return Counter.Refused(DemandUnpublished);
      }
      var failed := CheckAmount(request.amount, db.demands[key].outstanding);
      if failed.Some? {
        return Counter.Refused(failed.value);
      }
      db.counter := db.counter[clerk := CounterRequest(
                                 key, request.amount, request.mode, Counter.Cleaned(request.receiptNumber), clientKey)];
      reply := Counter.Admitted;
    }

    /** The second half: lock, check again, record the payment and the new balance. */
    method CommitOffline(clerk: string, reference: string, now: nat) returns (reply: Counter.Reply)
      requires clerk in db.counter
      modifies db
      ensures db.State() == Counter.Commit(old(db.State()), clerk, reference, now)
      ensures reply.Recorded? <==> Counter.Commits(old(db.State()), old(db.counter)[clerk], reference)
      ensures reply.Recorded? ==> reply.reference == reference
      ensures reply.Replayed? ==>
                reply.reference in db.payments
                && db.payments[reply.reference].clientKey == old(db.counter)[clerk].clientKey != None
      ensures reply.Refused? ==>
                reply.error == Counter.LockedCheck(old(db.demands), old(db.counter)[clerk]).GetOr(ReceiptNumberExists)
      ensures !reply.Admitted?
    {
      var request := db.counter[clerk];
      db.counter := db.counter - {clerk};
      if request.key !in db.demands || db.demands[request.key].status != Published {
        return Counter.Refused(DemandUnpublished);
      }
      var locked := db.demands[request.key];
      var failed := CheckAmount(request.amount, locked.outstanding);
      if failed.Some? {
        return Counter.Refused(failed.value);
      }
      var balance := OutstandingAfterPayment(locked.totalPayable, locked.amountPaid, request.amount);
      var receiptNumber := if request.receiptNumber.Some? then request.receiptNumber.value else reference;
      var snapshot := SnapshotOf(
        locked, request.key, Some(request.key.surveyId), request.amount, balance, request.mode, receiptNumber, now);
      if Counter.UniqueClash(db.payments, request, reference) {
        if request.clientKey.Some? {
          if r :| r in db.payments && db.payments[r].clientKey == request.clientKey {
            return Counter.Replayed(r);
          }
        }
        return Counter.Refused(ReceiptNumberExists);
      }
      db.payments := db.payments[reference := Payment(
                                   request.mode, Some(request.key.surveyId), Some(request.key.yearId),
                                   Some(request.key),
                                   request.amount, Success, None, Some(receiptNumber), Some(now), Some(snapshot),
                                   request.clientKey)];
      db.demands := db.demands[request.key :=
        locked.(amountPaid := balance.amountPaid, outstanding := balance.outstanding)];
      reply := Counter.Recorded(reference);
    }
  }

  /** The surveys of a ward and its published rate table. */
  datatype Ward = Ward(surveys: map<string, Tax.Survey>, rates: Tax.RateTable)

  class DemandsService {
    const db: Database

    constructor (db: Database)
      ensures this.db == db
    {
      this.db := db;
    }

    // ---- Publication ----

    /** The aggregate query of `sumSuccessPayments`. */
    method SumSuccessPayments(key: DemandKey) returns (sum: int)
      ensures sum == PaidFor(db.payments, key)
    {
      sum := 0;
      var column := PaidColumn(db.payments, key);
      var rest := column;
      while rest != map[]
        invariant sum + SumMap(rest) == SumMap(column)
        decreases |rest|
      {
        var r :| r in rest;
        SumMapRemove(rest, r);
        sum := sum + rest[r];
        rest := rest - {r};
      }
    }

    method UpsertPublishedDemand(key: DemandKey, base: A.TaxBase, rules: seq<A.Rule>, preserveArrears: bool)
      modifies db`demands
      ensures db.State() == Pub.Upsert(old(db.State()), key, base, rules, preserveArrears)
    {
      var amountPaid := SumSuccessPayments(key);
      var arrears := 0;
      if preserveArrears && key in db.demands {
        arrears := db.demands[key].arrears;
      }
      var a := A.ComputePropertyAssessment(base, rules, arrears, amountPaid);
      var rows := map[];
      if key in db.demands {
        rows := db.demands[key].rows;
      }
      db.demands := db.demands[key := Demand(
                                 Published, a.propertyTax, a.waterTax, a.drainageTax, a.penalty, a.rebate,
                                 a.arrears, a.currentDemand, a.totalPayable, a.amountPaid, a.outstanding, rows)];
    }

    /** `publish` of one survey: its dues are computed from its record and its arrears reset. */
    method Publish(key: DemandKey, survey: Tax.Survey, rates: Tax.RateTable, rules: seq<A.Rule>)
      requires WardPublication.ZoneResolved(survey)
      modifies db`demands
      ensures db.State() == Pub.Upsert(old(db.State()), key, WardPublication.BaseOf(survey, rates), rules, false)
    {
      var base := ComputeBase(survey, rates);
      UpsertPublishedDemand(key, base, rules, false);
    }

    /** The taxes of one survey, as both publications compute them. */
    method ComputeBase(survey: Tax.Survey, rates: Tax.RateTable) returns (base: A.TaxBase)
      requires WardPublication.ZoneResolved(survey)
      ensures base == WardPublication.BaseOf(survey, rates)
    {
      var summary := Tax.ComputeSurveyExportTax(survey, rates);
      base := A.TaxBase(
        summary.value.propertyTax, summary.value.waterTax, summary.value.drainageTax, summary.value.penalty);
    }

    /** The engine's taxes of a listed survey. */
    method BaseOfListed(id: string, ward: Ward, ghost ids: seq<string>, ghost bases: map<string, A.TaxBase>)
      returns (base: A.TaxBase)
      requires id in ids && WardPublication.Assessable(ids, ward.surveys)
      requires WardPublication.BasesFrom(ids, ward.surveys, ward.rates, bases)
      ensures id in bases && base == bases[id]
    {
      base := ComputeBase(ward.surveys[id], ward.rates);
    }

    /** One survey of the ward's list: look for its demand, then upsert it. */
    method PublishSurvey(
      id: string, ward: Ward, yearId: string, rules: seq<A.Rule>,
      ghost ids: seq<string>, ghost bases: map<string, A.TaxBase>, ghost k: nat, ghost turn: WardPublication.Turn,
      ghost before: Store)
      returns (existing: bool)
      requires WardReady(ids, ward, bases) && WardPublication.Upserts(turn, bases, yearId, rules)
      requires k < |ids| && id == ids[k]
      requires db.State() == WardPublication.Turns(before, ids, k, turn)
      modifies db`demands
      ensures db.State() == WardPublication.Turns(before, ids, k + 1, turn)
      ensures existing <==> DemandKey(id, yearId) in before.demands
    {
      WardPublication.TurnsPublishAll(before, ids, k, turn, bases, yearId, rules);
      WardPublication.NotYetPublished(before, ids, k, bases, yearId, rules);
      existing := DemandKey(id, yearId) in db.demands;
      var base := BaseOfListed(id, ward, ids, bases);
      UpsertPublishedDemand(DemandKey(id, yearId), base, rules, true);
    }

    /** The surveys of one page, `ids[done..done + |page|]`, one after the other. */
    method PublishPage(
      page: seq<string>, ward: Ward, yearId: string, rules: seq<A.Rule>,
      ghost ids: seq<string>, ghost bases: map<string, A.TaxBase>, ghost done: nat, ghost turn: WardPublication.Turn,
      ghost before: Store)
      returns (created: nat, updated: nat)
      requires WardReady(ids, ward, bases) && WardPublication.Upserts(turn, bases, yearId, rules)
      requires done + |page| <= |ids| && page == ids[done..done + |page|]
      requires db.State() == WardPublication.Turns(before, ids, done, turn)
      modifies db`demands
      ensures db.State() == WardPublication.Turns(before, ids, done + |page|, turn)
      ensures created == WardPublication.MissingCount(before.demands, ids, done + |page|, yearId)
                         - WardPublication.MissingCount(before.demands, ids, done, yearId)
      ensures created + updated == |page|
    {
      created, updated := 0, 0;
      for k := 0 to |page|
        invariant db.State() == WardPublication.Turns(before, ids, done + k, turn)
        invariant created == WardPublication.MissingCount(before.demands, ids, done + k, yearId)
                             - WardPublication.MissingCount(before.demands, ids, done, yearId)
        invariant created + updated == k
      {
        assert page[k] == ids[done + k];
        var existing := PublishSurvey(page[k], ward, yearId, rules, ids, bases, done + k, turn, before);
        if existing {
          updated := updated + 1;
        } else {
          created := created + 1;
        }
      }
    }

    static ghost predicate WardReady(ids: seq<string>, ward: Ward, bases: map<string, A.TaxBase>) {
      && YearEnd.Distinct(ids) && WardPublication.Bases(ids, bases)
      && WardPublication.Assessable(ids, ward.surveys)
      && WardPublication.BasesFrom(ids, ward.surveys, ward.rates, bases)
    }

    static predicate IsCursor(ids: seq<string>, cursor: Option<string>, done: nat)
      requires done <= |ids|
    {
      cursor == if done == 0 then None else Some(ids[done - 1])
    }

    /** One turn of the loop: fetch the page after the cursor and publish it; its last id is the next cursor. */
    method PublishNextPage(
      ids: seq<string>, cursor: Option<string>, ward: Ward, yearId: string, rules: seq<A.Rule>,
      ghost bases: map<string, A.TaxBase>, ghost done: nat, ghost turn: WardPublication.Turn, ghost before: Store)
      returns (served: nat, next: Option<string>, created: nat, updated: nat)
      requires WardReady(ids, ward, bases) && WardPublication.Upserts(turn, bases, yearId, rules)
      requires done <= |ids| && IsCursor(ids, cursor, done)
      requires db.State() == WardPublication.Turns(before, ids, done, turn)
      modifies db`demands
      ensures served == Min(WardPublication.BATCH_SIZE, |ids| - done) && IsCursor(ids, next, done + served)
      ensures db.State() == WardPublication.Turns(before, ids, done + served, turn)
      ensures created == WardPublication.MissingCount(before.demands, ids, done + served, yearId)
                         - WardPublication.MissingCount(before.demands, ids, done, yearId)
      ensures created + updated == served
    {
      WardPublication.PageAfter(ids, cursor, done);
      var page := WardPublication.Page(ids, cursor);
      served := |page|;
      next := if page == [] then cursor else Some(page[|page| - 1]);
      created, updated := PublishPage(page, ward, yearId, rules, ids, bases, done, turn, before);
    }

    /** The loop: it ends with the first page that is not full. */
    method PublishPages(
      ids: seq<string>, ward: Ward, yearId: string, rules: seq<A.Rule>,
      ghost bases: map<string, A.TaxBase>, ghost turn: WardPublication.Turn)
      returns (created: nat, updated: nat)
      requires WardReady(ids, ward, bases) && WardPublication.Upserts(turn, bases, yearId, rules)
      modifies db`demands
      ensures db.State() == WardPublication.Turns(old(db.State()), ids, |ids|, turn)
      ensures created == WardPublication.MissingCount(old(db.demands), ids, |ids|, yearId)
      ensures created + updated == |ids|
    {
      ghost var before := db.State();
      ghost var done := 0;
      created, updated := 0, 0;
      var cursor, served := None, WardPublication.BATCH_SIZE;
      while served == WardPublication.BATCH_SIZE
        invariant done <= |ids| && IsCursor(ids, cursor, done)
        invariant served <= WardPublication.BATCH_SIZE && (served < WardPublication.BATCH_SIZE ==> done == |ids|)
        invariant db.State() == WardPublication.Turns(before, ids, done, turn)
        invariant created == WardPublication.MissingCount(before.demands, ids, done, yearId)
        invariant created + updated == done
        decreases |ids| - done, served
      {
        var pageCreated, pageUpdated;
        served, cursor, pageCreated, pageUpdated :=
          PublishNextPage(ids, cursor, ward, yearId, rules, bases, done, turn, before);
        created, updated := created + pageCreated, updated + pageUpdated;
        done := done + served;
      }
    }

    /**
     * `publishForWard`: pages of 100 surveys in id order, each starting after the last id of the
     * one before. `ids` are the ward's active surveys in that order.
     */
    method PublishForWard(ids: seq<string>, ward: Ward, yearId: string, rules: seq<A.Rule>)
      returns (created: nat, updated: nat, total: nat)
      requires YearEnd.Distinct(ids) && WardPublication.Assessable(ids, ward.surveys)
      modifies db`demands
      ensures
        var bases := WardPublication.BasesOf(ids, ward.surveys, ward.rates);
        && WardPublication.Bases(ids, bases)
        && db.State() == WardPublication.PublishAll(old(db.State()), ids, |ids|, bases, yearId, rules)
      ensures created == WardPublication.MissingCount(old(db.demands), ids, |ids|, yearId)
      ensures total == created + updated == |ids|
    {
      ghost var before := db.State();
      ghost var bases := WardPublication.BasesOf(ids, ward.surveys, ward.rates);
      WardPublication.BasesOfFrom(ids, ward.surveys, ward.rates);
      ghost var turn := WardPublication.UpsertTurn(bases, yearId, rules);
      created, updated := PublishPages(ids, ward, yearId, rules, bases, turn);
      WardPublication.TurnsPublishAll(before, ids, |ids|, turn, bases, yearId, rules);
      total := created + updated;
    }

    // ---- Year end ----

    method SumRows(rows: map<string, int>) returns (sum: int)
      ensures sum == SumMap(rows)
    {
      sum := 0;
      var rest := rows;
      while rest != map[]
        invariant sum + SumMap(rest) == SumMap(rows)
        decreases |rest|
      {
        var y :| y in rest;
        SumMapRemove(rest, y);
        sum := sum + rest[y];
        rest := rest - {y};
      }
    }

    /** The proposed rows and their total, from the answer of the preview query. */
    method PreviewYearEnd(fromYear: string, surveys: seq<string>) returns (proposed: seq<int>, totalArrears: int)
      requires YearEnd.IsPreview(db.demands, fromYear, surveys)
      ensures |proposed| == |surveys|
      ensures forall i :: 0 <= i < |surveys|
                ==> proposed[i] == db.demands[DemandKey(surveys[i], fromYear)].outstanding
      ensures totalArrears == YearEnd.PreviewTotal(db.demands, fromYear, surveys)
    {
      proposed, totalArrears := [], 0;
      for i := 0 to |surveys|
        invariant |proposed| == i
        invariant forall j :: 0 <= j < i ==> proposed[j] == YearEnd.OutstandingOf(db.demands, fromYear, surveys[j])
        invariant totalArrears == YearEnd.PreviewTotal(db.demands, fromYear, surveys[..i])
      {
        assert surveys[..i + 1][..i] == surveys[..i];
        var outstanding := db.demands[DemandKey(surveys[i], fromYear)].outstanding;
        proposed := proposed + [outstanding];
        totalArrears := totalArrears + outstanding;
      }
      assert surveys[..|surveys|] == surveys;
    }

    /** One pass of the commit's loop: create the target if needed, skip it or add the arrear row. */
    method CarryRow(fromYear: string, toYear: string, surveyId: string, amount: int) returns (carried: bool)
      modifies db`demands
      ensures db.demands == YearEnd.CarryOne(old(db.demands), fromYear, toYear, surveyId, amount)
      ensures carried <==> !YearEnd.AlreadyCarried(old(db.demands), DemandKey(surveyId, toYear), fromYear)
    {
      var key := DemandKey(surveyId, toYear);
      if key !in db.demands {
        db.demands := db.demands[key := Demand(Draft, 0, 0, 0, 0, 0, amount, 0, amount, 0, amount, map[])];
      }
      var target := db.demands[key];
      if fromYear in target.rows {
        return false;
      }
      db.demands := db.demands[key := target.(rows := target.rows[fromYear := amount])];
      var sum := SumRows(target.rows);
      var arrearsSum := sum + amount;
      var totalPayable := target.currentDemand + arrearsSum;
      var outstanding := Max(0, totalPayable - target.amountPaid);
      db.demands := db.demands[key := db.demands[key].(
                                 arrears := arrearsSum, totalPayable := totalPayable, outstanding := outstanding)];
      carried := true;
    }

    /** The loop of the commit over the proposed rows. */
    method CarryProposed(fromYear: string, toYear: string, surveys: seq<string>, proposed: seq<int>)
      returns (carried: nat, skipped: nat)
      requires YearEnd.Distinct(surveys) && YearEndLaws.AllUnpaid(db.demands, fromYear, surveys)
      requires |proposed| == |surveys|
      requires forall i :: 0 <= i < |surveys| ==> proposed[i] == YearEnd.OutstandingOf(db.demands, fromYear, surveys[i])
      modifies db`demands
      ensures db.demands == YearEnd.CarryAll(old(db.demands), old(db.demands), fromYear, toYear, surveys)
      ensures carried == YearEnd.CarriedCount(old(db.demands), fromYear, toYear, surveys)
      ensures skipped == YearEnd.SkippedCount(old(db.demands), fromYear, toYear, surveys)
    {
      ghost var before := db.demands;
      carried, skipped := 0, 0;
      for i := 0 to |surveys|
        invariant db.demands == YearEnd.CarryAll(before, before, fromYear, toYear, surveys[..i])
        invariant carried == YearEnd.CarriedCount(before, fromYear, toYear, surveys[..i])
        invariant skipped == YearEnd.SkippedCount(before, fromYear, toYear, surveys[..i])
      {
        assert surveys[..i + 1][..i] == surveys[..i];
        WardPublication.NotYetCarried(before, fromYear, toYear, surveys, i);
        var added := CarryRow(fromYear, toYear, surveys[i], proposed[i]);
        if added {
          carried := carried + 1;
        } else {
          skipped := skipped + 1;
        }
      }
      assert surveys[..|surveys|] == surveys;
    }

    method CommitYearEnd(fromYear: string, toYear: string, surveys: seq<string>)
      returns (noop: bool, carried: nat, skipped: nat)
      requires YearEnd.IsPreview(db.demands, fromYear, surveys)
      modifies db`demands, db`runs
      ensures db.State() == YearEnd.Commit(old(db.State()), fromYear, toYear, surveys)
      ensures noop <==> fromYear == toYear || (fromYear, toYear) in old(db.runs)
      ensures !noop ==> carried + skipped == |surveys|
    {
      if fromYear == toYear || (fromYear, toYear) in db.runs {
        return true, 0, 0;
      }
      YearEnd.CarriedAndSkippedAddUp(db.demands, fromYear, toYear, surveys);
      var proposed, totalArrears := PreviewYearEnd(fromYear, surveys);
      carried, skipped := CarryProposed(fromYear, toYear, surveys, proposed);
      db.runs := db.runs[(fromYear, toYear) := YearEndSummary(|surveys|, totalArrears, carried, skipped)];
      noop := false;
    }
  }
}
