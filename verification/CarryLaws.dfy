/** Committed year-end runs and arrear rows over whole runs of the ledger. */
module CarryLaws {
  import opened Common
  import opened Decimals
  import opened Sums
  import opened LedgerModel
  import opened OnlinePayments
  import opened LedgerRuns
  import opened LedgerLaws
  import Counter = CounterPayments
  import Pub = Publication
  import YearEnd
  import YearEndLaws
  import A = Assessment

  // ---- Runs and rows are never rewritten ----

  ghost predicate RunsKept(a: Store, b: Store) {
    forall pair :: pair in a.runs ==> pair in b.runs && b.runs[pair] == a.runs[pair]
  }

  predicate RowsGrow(a: Demand, b: Demand) {
    forall y :: y in a.rows ==> y in b.rows && b.rows[y] == a.rows[y]
  }

  /** No demand disappears, and no arrear row of one is changed or removed. */
  ghost predicate RowsKept(a: Store, b: Store) {
    forall key :: key in a.demands ==> key in b.demands && RowsGrow(a.demands[key], b.demands[key])
  }

  lemma BalanceKeepsRows(a: Store, b: Store)
    requires SameButBalance(a.demands, b.demands)
    ensures RowsKept(a, b)
  {
    forall key | key in a.demands ensures RowsGrow(a.demands[key], b.demands[key]) {
      assert b.demands[key].rows == a.demands[key].rows;
    }
  }

  lemma GatewayKeepsRuns(s: Store, step: Step)
    requires step.Callback? || step.Requery?
    ensures Next(s, step).runs == s.runs
  {
  }

  lemma GatewayKeepsRows(s: Store, step: Step)
    requires step.Callback? || step.Requery?
    ensures RowsKept(s, Next(s, step))
  {
    match step
    case Callback(cb) =>
      if cb.merchTxnId.Some? {
        GatewayStepFrame(s, step, cb.merchTxnId.value);
        BalanceKeepsRows(s, Next(s, step));
      }
    case Requery(reference, _, _, _, _) =>
      GatewayStepFrame(s, step, reference);
      BalanceKeepsRows(s, Next(s, step));
  }

  lemma CounterKeepsRows(s: Store, clerk: string, reference: string, now: nat)
    ensures RowsKept(s, Counter.Commit(s, clerk, reference, now))
    ensures Counter.Commit(s, clerk, reference, now).runs == s.runs
  {
  }

  lemma PublishKeepsRows(s: Store, key: DemandKey, base: A.TaxBase, rules: seq<A.Rule>, preserveArrears: bool)
    ensures RowsKept(s, Pub.Upsert(s, key, base, rules, preserveArrears))
    ensures Pub.Upsert(s, key, base, rules, preserveArrears).runs == s.runs
  {
  }

  lemma YearEndKeepsRows(s: Store, fromYear: string, toYear: string, surveys: seq<string>)
    requires YearEnd.IsPreview(s.demands, fromYear, surveys)
    ensures RowsKept(s, YearEnd.Commit(s, fromYear, toYear, surveys))
    ensures RunsKept(s, YearEnd.Commit(s, fromYear, toYear, surveys))
  {
    var after := YearEnd.Commit(s, fromYear, toYear, surveys);
    if fromYear != toYear && (fromYear, toYear) !in s.runs {
      forall key | key in s.demands ensures key in after.demands && RowsGrow(s.demands[key], after.demands[key]) {
        YearEndLaws.CommitEffect(s, fromYear, toYear, surveys, key);
      }
    }
  }

  lemma StepKeepsCarries(s: Store, step: Step)
    requires Enabled(s, step)
    ensures RunsKept(s, Next(s, step)) && RowsKept(s, Next(s, step))
  {
    match step
    case Callback(_) =>
      GatewayKeepsRuns(s, step);
      GatewayKeepsRows(s, step);
    case Requery(_, _, _, _, _) =>
      GatewayKeepsRuns(s, step);
      GatewayKeepsRows(s, step);
    case CounterCommit(clerk, reference, now) => CounterKeepsRows(s, clerk, reference, now);
    case Publish(key, base, rules, preserveArrears) => PublishKeepsRows(s, key, base, rules, preserveArrears);
    case CommitYearEnd(fromYear, toYear, surveys) => YearEndKeepsRows(s, fromYear, toYear, surveys);
    case CreateOnline(_, _, _, _) =>
    case CounterBegin(_, _) =>
  }

  lemma RowsKeptTransitive(a: Store, b: Store, c: Store)
    requires RowsKept(a, b) && RowsKept(b, c)
    ensures RowsKept(a, c)
  {
    forall key | key in a.demands ensures key in c.demands && RowsGrow(a.demands[key], c.demands[key]) {
      assert RowsGrow(a.demands[key], b.demands[key]) && RowsGrow(b.demands[key], c.demands[key]);
    }
  }

  /** Between any two points of a run, committed pairs of years stay committed and arrear rows are write-once. */
  lemma {:induction false} CarriesKeptOverRuns(stores: seq<Store>, steps: seq<Step>, i: nat, j: nat)
    requires IsRun(stores, steps) && i <= j < |stores|
    ensures RunsKept(stores[i], stores[j]) && RowsKept(stores[i], stores[j])
    decreases j
  {
    if i < j {
      CarriesKeptOverRuns(stores, steps, i, j - 1);
      RunStep(stores, steps, j - 1);
      StepKeepsCarries(stores[j - 1], steps[j - 1]);
      RowsKeptTransitive(stores[i], stores[j - 1], stores[j]);
    }
  }

  /**
   * Once a pair of years was committed, committing it again at any later point of the run, whatever happened in
   * between and whatever its preview then shows, changes nothing.
   */
  lemma LaterCommitChangesNothing(
    stores: seq<Store>, steps: seq<Step>, i: nat, j: nat, fromYear: string, toYear: string, surveys: seq<string>)
    requires IsRun(stores, steps) && i < j < |stores|
    requires steps[i].CommitYearEnd? && steps[i].fromYear == fromYear && steps[i].toYear == toYear
    requires YearEnd.IsPreview(stores[j].demands, fromYear, surveys)
    ensures YearEnd.Commit(stores[j], fromYear, toYear, surveys) == stores[j]
    ensures RowsKept(stores[i + 1], stores[j])
  {
    RunStep(stores, steps, i);
    CarriesKeptOverRuns(stores, steps, i + 1, j);
    if fromYear != toYear {
      assert (fromYear, toYear) in stores[i + 1].runs;
    }
  }

  // ---- Single publication parts arrears from their rows ----

  /** Publishing a carried demand alone leaves its rows and loses its arrears. */
  lemma PublishAfterCarry(
    s: Store, fromYear: string, toYear: string, surveys: seq<string>, key: DemandKey, base: A.TaxBase,
    rules: seq<A.Rule>)
    requires Inv(s) && YearEnd.IsPreview(s.demands, fromYear, surveys)
    requires fromYear != toYear && (fromYear, toYear) !in s.runs && key.yearId == toYear && key.surveyId in surveys
    ensures
      var after := Pub.Upsert(YearEnd.Commit(s, fromYear, toYear, surveys), key, base, rules, false).demands;
      key in after && after[key].arrears == 0 && after[key].arrears != SumMap(after[key].rows)
  {
    var carried := YearEnd.Commit(s, fromYear, toYear, surveys);
    YearEndKeeps(s, fromYear, toYear, surveys);
    YearEndLaws.CommitEffect(s, fromYear, toYear, surveys, key);
    assert fromYear in carried.demands[key].rows;
    SinglePublishKeepsMatchIff(carried, key, base, rules);
  }

  lemma OneUnpaid(demands: Demands, key: DemandKey)
    requires demands.Keys == {key} && demands[key].status == Published && demands[key].outstanding > 0
    ensures YearEnd.IsPreview(demands, key.yearId, [key.surveyId])
  {
    assert YearEnd.IsUnpaid(demands, key.yearId, key.surveyId);
    assert YearEnd.UnpaidSurveys(demands, key.yearId) == {key.surveyId};
  }

  lemma PublishesDue(key: DemandKey, base: A.TaxBase)
    requires A.Assess(base, [], 0, 0).outstanding > 0
    ensures
      var s := Pub.Upsert(Empty, key, base, [], true);
      && Inv(s) && s.runs == map[] && s.demands.Keys == {key}
      && s.demands[key].status == Published && s.demands[key].outstanding > 0
  {
    EmptyInv();
    PublishKeeps(Empty, key, base, [], true);
    assert PaidColumn(map[], key) == map[];
    assert PaidFor(map[], key) == 0;
  }

  lemma ThreeSteps(stores: seq<Store>, steps: seq<Step>)
    requires |stores| == 4 && |steps| == 3
    requires Enabled(stores[0], steps[0]) && stores[1] == Next(stores[0], steps[0])
    requires Enabled(stores[1], steps[1]) && stores[2] == Next(stores[1], steps[1])
    requires Enabled(stores[2], steps[2]) && stores[3] == Next(stores[2], steps[2])
    ensures IsRun(stores, steps)
  {
  }

  /** From the empty ledger: publish a year with something due, carry it into the next, publish that year alone. */
  lemma PublishCarryPublish(surveyId: string, fromYear: string, toYear: string, base: A.TaxBase)
    returns (stores: seq<Store>, steps: seq<Step>)
    requires fromYear != toYear && A.Assess(base, [], 0, 0).outstanding > 0
    ensures IsRun(stores, steps) && stores[0] == Empty && |steps| == 3
    ensures
      var key, last := DemandKey(surveyId, toYear), stores[3].demands;
      key in last && last[key].arrears == 0 && last[key].arrears != SumMap(last[key].rows)
  {
    var key, next := DemandKey(surveyId, fromYear), DemandKey(surveyId, toYear);
    steps := [
      Publish(key, base, [], true), CommitYearEnd(fromYear, toYear, [surveyId]), Publish(next, base, [], false)];
    PublishesDue(key, base);
    var first := Pub.Upsert(Empty, key, base, [], true);
    OneUnpaid(first.demands, key);
    var second := YearEnd.Commit(first, fromYear, toYear, [surveyId]);
    PublishAfterCarry(first, fromYear, toYear, [surveyId], next, base, []);
    stores := [Empty, first, second, Pub.Upsert(second, next, base, [], false)];
    ThreeSteps(stores, steps);
  }

  /** One rupee of 2024, carried into 2025 and lost from the arrears there. */
  lemma ArrearsLostByPublication() returns (stores: seq<Store>, steps: seq<Step>)
    ensures IsRun(stores, steps) && stores[0] == Empty && |steps| == 3
    ensures
      var key, last := DemandKey("S", "2025"), stores[3].demands;
      key in last && last[key].arrears == 0 && last[key].arrears != SumMap(last[key].rows)
  {
    stores, steps := PublishCarryPublish("S", "2024", "2025", A.TaxBase(100, 0, 0, 0));
  }

  // ---- More unpaid demands than a preview lists ----

  /** The surveys named 0 to n - 1. */
  ghost function Numbered(n: nat): set<string> {
    set i | 0 <= i < n :: Decimal(i)
  }

  lemma {:induction false} NumberedAreMany(n: nat)
    ensures |Numbered(n)| == n
  {
    if n > 0 {
      NumberedAreMany(n - 1);
      forall i | 0 <= i < n - 1 ensures Decimal(i) != Decimal(n - 1) {
        ValueOfDecimal(i);
        ValueOfDecimal(n - 1);
      }
      assert Numbered(n) == Numbered(n - 1) + {Decimal(n - 1)};
      assert Decimal(n - 1) !in Numbered(n - 1);
    }
  }

  ghost function Keys(n: nat, yearId: string): set<DemandKey> {
    set surveyId | surveyId in Numbered(n) :: DemandKey(surveyId, yearId)
  }

  /** Each of them owes one rupee for the year. */
  ghost function Owing(n: nat, yearId: string): Demands {
    map key | key in Keys(n, yearId) :: Demand(Published, 100, 0, 0, 0, 0, 0, 100, 100, 0, 100, map[])
  }

  /** With 5001 unpaid demands no preview lists them all. */
  lemma PreviewMissesOne(yearId: string, surveys: seq<string>)
    requires YearEnd.IsPreview(Owing(5001, yearId), yearId, surveys)
    ensures exists i ::
              0 <= i < 5001 && Decimal(i) !in surveys && YearEnd.IsUnpaid(Owing(5001, yearId), yearId, Decimal(i))
  {
    var demands := Owing(5001, yearId);
    var unpaid := YearEnd.UnpaidSurveys(demands, yearId);
    NumberedAreMany(5001);
    UnpaidAreNumbered(5001, yearId);
    YearEndLaws.PreviewCompleteIff(demands, yearId, surveys);
    var x :| x in unpaid && x !in surveys;
    var i :| 0 <= i < 5001 && Decimal(i) == x;
    YearEndLaws.UnpaidMember(demands, yearId, x);
  }

  lemma UnpaidAreNumbered(n: nat, yearId: string)
    ensures YearEnd.UnpaidSurveys(Owing(n, yearId), yearId) == Numbered(n)
  {
    var demands := Owing(n, yearId);
    forall x ensures x in YearEnd.UnpaidSurveys(demands, yearId) <==> x in Numbered(n) {
      YearEndLaws.UnpaidMember(demands, yearId, x);
      assert DemandKey(x, yearId) in demands <==> x in Numbered(n);
    }
  }
}
