/** What a survey owes over two years before and after one is carried into the other. */
module CarriedDebt {
  import opened Common
  import opened Sums
  import opened Text
  import opened LedgerModel
  import opened OfflineRules
  import opened LedgerRuns
  import opened LedgerLaws
  import CarryLaws
  import Counter = CounterPayments
  import Pub = Publication
  import YearEnd
  import YearEndLaws
  import A = Assessment

  function Owed(demands: Demands, key: DemandKey): int {
    if key in demands then demands[key].outstanding else 0
  }

  /** What the survey owes for the two years together. */
  function DebtOver(demands: Demands, surveyId: string, fromYear: string, toYear: string): int {
    Owed(demands, DemandKey(surveyId, fromYear)) + Owed(demands, DemandKey(surveyId, toYear))
  }

  /** The target year was overpaid by at least the carried amount. */
  ghost predicate PaidInAdvance(demands: Demands, key: DemandKey, amount: int) {
    key in demands && demands[key].currentDemand + SumMap(demands[key].rows) + amount <= demands[key].amountPaid
  }

  // ---- Arrears never exceed their rows ----

  ghost predicate ArrearsWithinRows(s: Store) {
    forall key :: key in s.demands ==> s.demands[key].arrears <= SumMap(s.demands[key].rows)
  }

  lemma BalanceKeepsWithin(a: Store, b: Store)
    requires ArrearsWithinRows(a) && SameButBalance(a.demands, b.demands)
    ensures ArrearsWithinRows(b)
  {
    forall key | key in b.demands ensures b.demands[key].arrears <= SumMap(b.demands[key].rows) {
      assert b.demands[key].rows == a.demands[key].rows;
    }
  }

  lemma GatewayKeepsWithin(s: Store, step: Step, reference: string)
    requires ArrearsWithinRows(s) && IsGatewayStep(step, reference)
    ensures ArrearsWithinRows(Next(s, step))
  {
    GatewayStepFrame(s, step, reference);
    BalanceKeepsWithin(s, Next(s, step));
  }

  lemma CounterKeepsWithin(s: Store, clerk: string, reference: string, now: nat)
    requires ArrearsWithinRows(s)
    ensures ArrearsWithinRows(Counter.Commit(s, clerk, reference, now))
  {
  }

  lemma PublishKeepsWithin(s: Store, key: DemandKey, base: A.TaxBase, rules: seq<A.Rule>, preserveArrears: bool)
    requires Inv(s) && ArrearsWithinRows(s)
    ensures ArrearsWithinRows(Pub.Upsert(s, key, base, rules, preserveArrears))
  {
    if key in s.demands {
      assert DemandOk(s.demands[key]);
    }
    SumMapNonNegative(Pub.RowsOf(s.demands, key));
  }

  lemma YearEndKeepsWithin(s: Store, fromYear: string, toYear: string, surveys: seq<string>)
    requires ArrearsWithinRows(s) && YearEnd.IsPreview(s.demands, fromYear, surveys)
    ensures ArrearsWithinRows(YearEnd.Commit(s, fromYear, toYear, surveys))
  {
    var s' := YearEnd.Commit(s, fromYear, toYear, surveys);
    if fromYear != toYear && (fromYear, toYear) !in s.runs {
      forall key | key in s'.demands ensures s'.demands[key].arrears <= SumMap(s'.demands[key].rows) {
        YearEndLaws.CommitEffect(s, fromYear, toYear, surveys, key);
        YearEndLaws.CarryAllRow(s.demands, s.demands, fromYear, toYear, surveys, key);
        assert YearEndLaws.Row(s'.demands, key) == Some(s'.demands[key]);
      }
    }
  }

  lemma StepKeepsWithin(s: Store, step: Step)
    requires Inv(s) && Enabled(s, step) && ArrearsWithinRows(s)
    ensures ArrearsWithinRows(Next(s, step))
  {
    match step
    case Callback(cb) =>
      if cb.merchTxnId.Some? {
        GatewayKeepsWithin(s, step, cb.merchTxnId.value);
      }
    case Requery(reference, _, _, _, _) => GatewayKeepsWithin(s, step, reference);
    case CounterCommit(clerk, reference, now) => CounterKeepsWithin(s, clerk, reference, now);
    case Publish(key, base, rules, preserveArrears) => PublishKeepsWithin(s, key, base, rules, preserveArrears);
    case CommitYearEnd(fromYear, toYear, surveys) => YearEndKeepsWithin(s, fromYear, toYear, surveys);
    case CreateOnline(_, _, _, _) =>
    case CounterBegin(_, _) =>
  }

  /** In every run, single publications included, a demand's arrears are at most the sum of its rows. */
  lemma {:induction false} ArrearsNeverExceedRows(stores: seq<Store>, steps: seq<Step>, i: nat)
    requires IsRun(stores, steps) && stores[0] == Empty && i < |stores|
    ensures Inv(stores[i]) && ArrearsWithinRows(stores[i])
  {
    EmptyInv();
    RunKeeps(stores, steps, i);
    if i > 0 {
      ArrearsNeverExceedRows(stores, steps, i - 1);
      RunStep(stores, steps, i - 1);
      StepKeepsWithin(stores[i - 1], steps[i - 1]);
    }
  }

  // ---- The debt before and after a commit ----

  lemma SourceStaysOwed(s: Store, fromYear: string, toYear: string, surveys: seq<string>, surveyId: string)
    requires YearEnd.IsPreview(s.demands, fromYear, surveys)
    requires fromYear != toYear && (fromYear, toYear) !in s.runs
    ensures Owed(YearEnd.Commit(s, fromYear, toYear, surveys).demands, DemandKey(surveyId, fromYear))
         == Owed(s.demands, DemandKey(surveyId, fromYear))
  {
    YearEndLaws.CommitEffect(s, fromYear, toYear, surveys, DemandKey(surveyId, fromYear));
  }

  /** The target of a new row owes its own demand, all its rows and the carried amount, less what was paid. */
  lemma TargetOwes(s: Store, fromYear: string, toYear: string, surveys: seq<string>, surveyId: string)
    requires YearEnd.IsPreview(s.demands, fromYear, surveys)
    requires fromYear != toYear && (fromYear, toYear) !in s.runs && surveyId in surveys
    requires !YearEnd.AlreadyCarried(s.demands, DemandKey(surveyId, toYear), fromYear)
    ensures
      var key, amount := DemandKey(surveyId, toYear), s.demands[DemandKey(surveyId, fromYear)].outstanding;
      Owed(YearEnd.Commit(s, fromYear, toYear, surveys).demands, key)
      == if key in s.demands then
           Max(0, s.demands[key].currentDemand + SumMap(s.demands[key].rows) + amount - s.demands[key].amountPaid)
         else amount
  {
    var key := DemandKey(surveyId, toYear);
    YearEndLaws.CarryAllRow(s.demands, s.demands, fromYear, toYear, surveys, key);
    assert SumMap<string>(map[]) == 0;
  }

  /** A row skipped or not previewed leaves its target. */
  lemma SkippedOwesTheSame(s: Store, fromYear: string, toYear: string, surveys: seq<string>, surveyId: string)
    requires YearEnd.IsPreview(s.demands, fromYear, surveys)
    requires fromYear != toYear && (fromYear, toYear) !in s.runs
    requires surveyId !in surveys || YearEnd.AlreadyCarried(s.demands, DemandKey(surveyId, toYear), fromYear)
    ensures Owed(YearEnd.Commit(s, fromYear, toYear, surveys).demands, DemandKey(surveyId, toYear))
         == Owed(s.demands, DemandKey(surveyId, toYear))
  {
    YearEndLaws.CarryAllRow(s.demands, s.demands, fromYear, toYear, surveys, DemandKey(surveyId, toYear));
  }

  /** The row was already there, was not previewed, or the target had been paid for in advance. */
  ghost predicate NothingToCarry(
    s: Store, fromYear: string, toYear: string, surveys: seq<string>, surveyId: string)
    requires YearEnd.IsPreview(s.demands, fromYear, surveys)
  {
    var key := DemandKey(surveyId, toYear);
    || surveyId !in surveys
    || YearEnd.AlreadyCarried(s.demands, key, fromYear)
    || PaidInAdvance(s.demands, key, s.demands[DemandKey(surveyId, fromYear)].outstanding)
  }

  ghost function DebtAfter(
    s: Store, fromYear: string, toYear: string, surveys: seq<string>, surveyId: string): int
    requires YearEnd.IsPreview(s.demands, fromYear, surveys)
  {
    DebtOver(YearEnd.Commit(s, fromYear, toYear, surveys).demands, surveyId, fromYear, toYear)
  }

  lemma CommitOnStore(s: Store, fromYear: string, toYear: string, surveys: seq<string>, surveyId: string)
    requires Inv(s) && ArrearsWithinRows(s) && YearEnd.IsPreview(s.demands, fromYear, surveys)
    requires fromYear != toYear && (fromYear, toYear) !in s.runs
    ensures
      var owed, owes := DebtOver(s.demands, surveyId, fromYear, toYear),
                        DebtAfter(s, fromYear, toYear, surveys, surveyId);
      owed <= owes && (owed == owes <==> NothingToCarry(s, fromYear, toYear, surveys, surveyId))
  {
    var key := DemandKey(surveyId, toYear);
    SourceStaysOwed(s, fromYear, toYear, surveys, surveyId);
    if surveyId !in surveys || YearEnd.AlreadyCarried(s.demands, key, fromYear) {
      SkippedOwesTheSame(s, fromYear, toYear, surveys, surveyId);
    } else {
      TargetOwes(s, fromYear, toYear, surveys, surveyId);
      if key in s.demands {
        assert DemandOk(s.demands[key]);
      }
    }
  }

  /**
   * At any point of any run a commit never lowers what a survey owes for the two years together, and leaves it the
   * same exactly when there was nothing to carry: the source demand keeps its outstanding.
   */
  lemma CommitKeepsDebtIff(
    stores: seq<Store>, steps: seq<Step>, i: nat, fromYear: string, toYear: string, surveys: seq<string>,
    surveyId: string)
    requires IsRun(stores, steps) && stores[0] == Empty && i < |stores|
    requires YearEnd.IsPreview(stores[i].demands, fromYear, surveys)
    requires fromYear != toYear && (fromYear, toYear) !in stores[i].runs
    ensures
      var owed, owes := DebtOver(stores[i].demands, surveyId, fromYear, toYear),
                        DebtAfter(stores[i], fromYear, toYear, surveys, surveyId);
      owed <= owes && (owed == owes <==> NothingToCarry(stores[i], fromYear, toYear, surveys, surveyId))
  {
    ArrearsNeverExceedRows(stores, steps, i);
    CommitOnStore(stores[i], fromYear, toYear, surveys, surveyId);
  }

  /** Where the target was not overpaid and its arrears are its rows, the debt grows by the whole carried amount. */
  lemma CommitDoublesDebt(
    s: Store, fromYear: string, toYear: string, surveys: seq<string>, surveyId: string)
    requires Inv(s) && YearEnd.IsPreview(s.demands, fromYear, surveys)
    requires fromYear != toYear && (fromYear, toYear) !in s.runs && surveyId in surveys
    requires !YearEnd.AlreadyCarried(s.demands, DemandKey(surveyId, toYear), fromYear)
    requires var key := DemandKey(surveyId, toYear);
             key in s.demands ==>
               && s.demands[key].arrears == SumMap(s.demands[key].rows)
               && s.demands[key].amountPaid <= s.demands[key].totalPayable
    ensures DebtAfter(s, fromYear, toYear, surveys, surveyId)
         == DebtOver(s.demands, surveyId, fromYear, toYear) + s.demands[DemandKey(surveyId, fromYear)].outstanding
  {
    var key := DemandKey(surveyId, toYear);
    SourceStaysOwed(s, fromYear, toYear, surveys, surveyId);
    TargetOwes(s, fromYear, toYear, surveys, surveyId);
    if key in s.demands {
      assert DemandOk(s.demands[key]);
    }
  }

  // ---- A run in which the same debt is collected twice ----

  lemma Extended(stores: seq<Store>, steps: seq<Step>, step: Step)
    requires IsRun(stores, steps) && Enabled(stores[|steps|], step)
    ensures IsRun(stores + [Next(stores[|steps|], step)], steps + [step])
  {
    var more, longer := stores + [Next(stores[|steps|], step)], steps + [step];
    forall i | 0 <= i < |longer| ensures Enabled(more[i], longer[i]) && more[i + 1] == Next(more[i], longer[i]) {
      if i < |steps| {
        RunStep(stores, steps, i);
      }
    }
  }

  /** Cash for everything a demand still owes. */
  function FullPayment(demands: Demands, key: DemandKey): Counter.OfflineRequest
    requires key in demands
  {
    Counter.OfflineRequest(demands[key].outstanding, Cash, None, key.surveyId, key.yearId, None, None)
  }

  predicate Unused(payments: Payments, reference: string) {
    reference !in payments && forall r :: r in payments ==> payments[r].receiptNumber != Some(reference)
  }

  function Admitted(demands: Demands, key: DemandKey): CounterRequest
    requires key in demands
  {
    CounterRequest(key, demands[key].outstanding, Cash, None, None)
  }

  /** One payment more, and one demand without anything outstanding. */
  function Settled(s: Store, key: DemandKey, reference: string): Store
    requires key in s.demands
  {
    var d := s.demands[key];
    s.(
    payments := s.payments[reference := Counter.NewCounterPayment(d, Admitted(s.demands, key), reference, 0)],
    demands := s.demands[key := Credited(d, d.outstanding)],
    counter := map[])
  }

  function PaidInFull(s: Store, clerk: string, key: DemandKey, reference: string): Store
    requires key in s.demands
  {
    Counter.Commit(Counter.Begin(s, clerk, FullPayment(s.demands, key)), clerk, reference, 0)
  }

  lemma FullPaymentAdmitted(s: Store, clerk: string, key: DemandKey)
    requires IsPublished(s.demands, key) && s.demands[key].outstanding > 0
    requires Trim(key.surveyId) != "" && s.counter == map[]
    ensures Counter.Begin(s, clerk, FullPayment(s.demands, key))
         == s.(counter := map[clerk := Admitted(s.demands, key)])
  {
    var request := FullPayment(s.demands, key);
    assert Trim("") == "";
    assert Counter.RequestError(request).None?;
    assert Counter.PreCheck(s.demands, request).None?;
    assert Counter.Cleaned(None) == None;
  }

  lemma AdmittedCommits(s: Store, clerk: string, key: DemandKey, reference: string)
    requires IsPublished(s.demands, key) && s.demands[key].outstanding > 0 && Unused(s.payments, reference)
    requires s.counter == map[clerk := Admitted(s.demands, key)]
    ensures Counter.Commits(s, Admitted(s.demands, key), reference)
    ensures Counter.Commit(s, clerk, reference, 0) == Settled(s, key, reference)
  {
    assert map[clerk := Admitted(s.demands, key)] - {clerk} == map[];
  }

  lemma PayInFull(s: Store, clerk: string, key: DemandKey, reference: string)
    requires IsPublished(s.demands, key) && s.demands[key].outstanding > 0
    requires Trim(key.surveyId) != "" && s.counter == map[] && Unused(s.payments, reference)
    ensures PaidInFull(s, clerk, key, reference) == Settled(s, key, reference)
  {
    FullPaymentAdmitted(s, clerk, key);
    AdmittedCommits(s.(counter := map[clerk := Admitted(s.demands, key)]), clerk, key, reference);
  }

  lemma FullPaymentRun(
    stores: seq<Store>, steps: seq<Step>, clerk: string, key: DemandKey, reference: string)
    returns (longer: seq<Store>, more: seq<Step>)
    requires IsRun(stores, steps) && key in stores[|steps|].demands
    ensures IsRun(longer, more) && longer[0] == stores[0] && |more| == |steps| + 2
    ensures longer[|more|] == PaidInFull(stores[|steps|], clerk, key, reference)
  {
    var begin := CounterBegin(clerk, FullPayment(stores[|steps|].demands, key));
    var commit := CounterCommit(clerk, reference, 0);
    Extended(stores, steps, begin);
    var begun := stores + [Next(stores[|steps|], begin)];
    Extended(begun, steps + [begin], commit);
    longer, more := begun + [Next(begun[|steps| + 1], commit)], steps + [begin] + [commit];
  }

  /** What a base tax alone amounts to, without rules. */
  function OwnDemand(base: A.TaxBase): int {
    A.Assess(base, [], 0, 0).currentDemand
  }

  /** The demand before its first payment. */
  predicate OwesAll(s: Store, key: DemandKey, currentDemand: int, due: int) {
    && IsPublished(s.demands, key) && s.demands[key].currentDemand == currentDemand
    && s.demands[key].amountPaid == 0 && s.demands[key].outstanding == s.demands[key].totalPayable == due
  }

  lemma NothingPaid(key: DemandKey)
    ensures PaidFor(map[], key) == 0
  {
    assert PaidColumn(map[], key) == map[];
  }

  lemma FirstPublished(key: DemandKey, base: A.TaxBase)
    ensures var s := Pub.Upsert(Empty, key, base, [], true);
            && s == Empty.(demands := s.demands) && s.demands.Keys == {key}
            && OwesAll(s, key, OwnDemand(base), OwnDemand(base))
  {
    NothingPaid(key);
  }

  /** Carried into the next year and published there with its arrears. */
  lemma CarriedAndPublished(
    s: Store, surveyId: string, fromYear: string, toYear: string, due: int, next: A.TaxBase)
    requires fromYear != toYear && s == Empty.(demands := s.demands) && due > 0
    requires s.demands.Keys == {DemandKey(surveyId, fromYear)} && OwesAll(s, DemandKey(surveyId, fromYear), due, due)
    ensures YearEnd.IsPreview(s.demands, fromYear, [surveyId])
    ensures
      var source, target := DemandKey(surveyId, fromYear), DemandKey(surveyId, toYear);
      var carried := YearEnd.Commit(s, fromYear, toYear, [surveyId]);
      var published := Pub.Upsert(carried, target, next, [], true);
      && published.payments == map[] && published.counter == map[]
      && OwesAll(published, source, due, due) && OwesAll(published, target, OwnDemand(next), OwnDemand(next) + due)
  {
    var source, target := DemandKey(surveyId, fromYear), DemandKey(surveyId, toYear);
    CarryLaws.OneUnpaid(s.demands, source);
    YearEndLaws.CommitEffect(s, fromYear, toYear, [surveyId], source);
    YearEndLaws.CarryAllRow(s.demands, s.demands, fromYear, toYear, [surveyId], target);
    NothingPaid(target);
  }

  lemma CarriedRun(surveyId: string, fromYear: string, toYear: string, base: A.TaxBase, next: A.TaxBase)
    returns (stores: seq<Store>, steps: seq<Step>)
    requires fromYear != toYear && OwnDemand(base) > 0
    ensures IsRun(stores, steps) && stores[0] == Empty && |steps| == 3
    ensures stores[3].payments == map[] && stores[3].counter == map[]
    ensures OwesAll(stores[3], DemandKey(surveyId, fromYear), OwnDemand(base), OwnDemand(base))
    ensures OwesAll(stores[3], DemandKey(surveyId, toYear), OwnDemand(next), OwnDemand(next) + OwnDemand(base))
  {
    var source, target := DemandKey(surveyId, fromYear), DemandKey(surveyId, toYear);
    steps := [
      Publish(source, base, [], true), CommitYearEnd(fromYear, toYear, [surveyId]), Publish(target, next, [], true)];
    FirstPublished(source, base);
    var first := Pub.Upsert(Empty, source, base, [], true);
    CarriedAndPublished(first, surveyId, fromYear, toYear, OwnDemand(base), next);
    var second := YearEnd.Commit(first, fromYear, toYear, [surveyId]);
    stores := [Empty, first, second, Pub.Upsert(second, target, next, [], true)];
    CarryLaws.ThreeSteps(stores, steps);
  }

  /** Everything was paid: `paid` for a year whose own demand is `currentDemand`. */
  predicate Collected(s: Store, key: DemandKey, currentDemand: int, paid: int) {
    && IsPublished(s.demands, key) && s.demands[key].currentDemand == currentDemand
    && s.demands[key].amountPaid == paid && s.demands[key].outstanding == 0
  }

  lemma BothPaid(s: Store, source: DemandKey, target: DemandKey, due: int, own: int, r1: string, r2: string)
    requires source != target && s.payments == map[] && r1 != r2 && due > 0 && own >= 0
    requires OwesAll(s, source, due, due) && OwesAll(s, target, own, own + due)
    ensures Unused(s.payments, r1)
    ensures
      var once := Settled(s, source, r1);
      && OwesAll(once, target, own, own + due) && Unused(once.payments, r2)
      && Collected(Settled(once, target, r2), source, due, due)
      && Collected(Settled(once, target, r2), target, own, own + due)
  {
  }

  /**
   * From the empty ledger: a year's demand is published, carried into the next year and published there with its
   * arrears, and both demands are then paid at the counter. The tax of the first year is collected twice.
   */
  lemma BothCopiesPaid(
    surveyId: string, fromYear: string, toYear: string, base: A.TaxBase, next: A.TaxBase, clerk: string, r1: string,
    r2: string)
    returns (stores: seq<Store>, steps: seq<Step>)
    requires fromYear != toYear && Trim(surveyId) != "" && r1 != r2 && OwnDemand(base) > 0
    ensures IsRun(stores, steps) && stores[0] == Empty && |steps| == 7
    ensures
      var source, target, last := DemandKey(surveyId, fromYear), DemandKey(surveyId, toYear), stores[7];
      var due, own := OwnDemand(base), OwnDemand(next);
      && PaidFor(last.payments, source) == due && PaidFor(last.payments, target) == own + due
      && Collected(last, source, due, due) && Collected(last, target, own, own + due)
  {
    var source, target := DemandKey(surveyId, fromYear), DemandKey(surveyId, toYear);
    stores, steps := CarriedRun(surveyId, fromYear, toYear, base, next);
    var s := stores[3];
    BothPaid(s, source, target, OwnDemand(base), OwnDemand(next), r1, r2);
    PayInFull(s, clerk, source, r1);
    stores, steps := FullPaymentRun(stores, steps, clerk, source, r1);
    PayInFull(Settled(s, source, r1), clerk, target, r2);
    stores, steps := FullPaymentRun(stores, steps, clerk, target, r2);
    LedgerAddsUp(stores, steps, 7, source);
    LedgerAddsUp(stores, steps, 7, target);
  }

  /** One rupee of tax in each year: one rupee is paid for 2024 and two for 2025. */
  lemma OneRupeePaidTwice() returns (stores: seq<Store>, steps: seq<Step>)
    ensures IsRun(stores, steps) && stores[0] == Empty && |steps| == 7
    ensures
      var source, target, last := DemandKey("S", "2024"), DemandKey("S", "2025"), stores[7];
      && PaidFor(last.payments, source) == 100 && PaidFor(last.payments, target) == 200
      && Collected(last, source, 100, 100) && Collected(last, target, 100, 200)
  {
    var rupee := A.TaxBase(100, 0, 0, 0);
    stores, steps := BothCopiesPaid("S", "2024", "2025", rupee, rupee, "clerk", "P-1", "P-2");
  }
}
