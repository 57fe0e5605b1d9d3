/** What year-end commits keep: exactly one row per source year, completeness, order independence. */
module YearEndLaws {
  import opened Common
  import opened Sums
  import opened LedgerModel
  import opened YearEnd

  function Row(demands: Demands, key: DemandKey): Option<Demand> {
    if key in demands then Some(demands[key]) else None
  }

  ghost predicate AllUnpaid(demands: Demands, yearId: string, surveys: seq<string>) {
    forall i :: 0 <= i < |surveys| ==> IsUnpaid(demands, yearId, surveys[i])
  }

  /** The row of `key` after the whole commit, from the rows before it alone. */
  ghost function RowAfter(
    before: Demands, demands: Demands, fromYear: string, toYear: string, surveys: seq<string>,
    key: DemandKey): Option<Demand>
    requires AllUnpaid(before, fromYear, surveys)
  {
    if key.yearId != toYear || key.surveyId !in surveys || AlreadyCarried(demands, key, fromYear) then Row(demands, key)
    else
      var amount := OutstandingOf(before, fromYear, key.surveyId);
      Some(WithArrear(Target(demands, key, amount), fromYear, amount))
  }

  lemma CarryOneRow(
    demands: Demands, fromYear: string, toYear: string, surveyId: string, amount: int, key: DemandKey)
    ensures Row(CarryOne(demands, fromYear, toYear, surveyId, amount), key)
         == if key == DemandKey(surveyId, toYear) && !AlreadyCarried(demands, key, fromYear) then
              Some(WithArrear(Target(demands, key, amount), fromYear, amount))
            else Row(demands, key)
  {
  }

  lemma SameRowSameCarry(a: Demands, b: Demands, key: DemandKey, fromYear: string, amount: int)
    requires Row(a, key) == Row(b, key)
    ensures AlreadyCarried(a, key, fromYear) == AlreadyCarried(b, key, fromYear)
    ensures Target(a, key, amount) == Target(b, key, amount)
  {
  }

  lemma {:induction false} CarryAllRow(
    before: Demands, demands: Demands, fromYear: string, toYear: string, surveys: seq<string>, key: DemandKey)
    requires AllUnpaid(before, fromYear, surveys) && Distinct(surveys)
    ensures Row(CarryAll(before, demands, fromYear, toYear, surveys), key)
            == RowAfter(before, demands, fromYear, toYear, surveys, key)
  {
    if surveys != [] {
      var front, last := surveys[..|surveys| - 1], surveys[|surveys| - 1];
      var carried, amount := CarryAll(before, demands, fromYear, toYear, front), OutstandingOf(before, fromYear, last);
      assert last !in front;
      assert surveys == front + [last];
      CarryAllRow(before, demands, fromYear, toYear, front, key);
      CarryOneRow(carried, fromYear, toYear, last, amount, key);
      if key == DemandKey(last, toYear) {
        SameRowSameCarry(carried, demands, key, fromYear, amount);
      }
    }
  }

  lemma SameRows(a: Demands, b: Demands)
    requires forall key :: Row(a, key) == Row(b, key)
    ensures a == b
  {
    forall key ensures key in a <==> key in b {
      assert Row(a, key) == Row(b, key);
    }
    forall key | key in a ensures a[key] == b[key] {
      assert Row(a, key) == Row(b, key);
    }
  }

  // ---- One commit ----

  /** A carried target's columns are those of its rows. */
  predicate Consistent(d: Demand) {
    d.totalPayable == d.currentDemand + d.arrears && d.outstanding == Max(0, d.totalPayable - d.amountPaid)
  }

  /**
   * One commit: rows already there stay as they are, every previewed demand ends up with its
   * one row for the source year, each newly carried target shows the sum of its rows, and
   * no demand of another year changes.
   */
  lemma CommitEffect(s: Store, fromYear: string, toYear: string, surveys: seq<string>, key: DemandKey)
    requires IsPreview(s.demands, fromYear, surveys)
    requires fromYear != toYear && (fromYear, toYear) !in s.runs
    ensures
      var after := Commit(s, fromYear, toYear, surveys).demands;
      && (key in s.demands ==>
            && key in after
            && (forall y :: y in s.demands[key].rows ==>
                              y in after[key].rows && after[key].rows[y] == s.demands[key].rows[y]))
      && (key.yearId != toYear || key.surveyId !in surveys ==> Row(after, key) == Row(s.demands, key))
      && (key.yearId == toYear && key.surveyId in surveys ==>
            && key in after && fromYear in after[key].rows
            && (!AlreadyCarried(s.demands, key, fromYear) ==>
                  && after[key].rows[fromYear] == s.demands[DemandKey(key.surveyId, fromYear)].outstanding
                  && after[key].arrears == SumMap(after[key].rows)
                  && Consistent(after[key])
                  && (key in s.demands ==> after[key].amountPaid == s.demands[key].amountPaid)
                  && (key in s.demands ==> after[key].currentDemand == s.demands[key].currentDemand)))
  {
    CarryAllRow(s.demands, s.demands, fromYear, toYear, surveys, key);
    if key.yearId == toYear && key.surveyId in surveys && !AlreadyCarried(s.demands, key, fromYear) {
      var amount := OutstandingOf(s.demands, fromYear, key.surveyId);
      SumMapUpdate(Target(s.demands, key, amount).rows, fromYear, amount);
    }
  }

  /** Even without the record of the first run, demands that have their row are skipped. */
  lemma {:induction false} CarriedRowsAreSkipped(
    before: Demands, demands: Demands, fromYear: string, toYear: string, surveys: seq<string>)
    requires AllUnpaid(before, fromYear, surveys)
    requires forall i :: 0 <= i < |surveys| ==> AlreadyCarried(demands, DemandKey(surveys[i], toYear), fromYear)
    ensures CarryAll(before, demands, fromYear, toYear, surveys) == demands
    ensures CarriedCount(demands, fromYear, toYear, surveys) == 0
  {
    if surveys != [] {
      CarriedRowsAreSkipped(before, demands, fromYear, toYear, surveys[..|surveys| - 1]);
      assert AlreadyCarried(demands, DemandKey(surveys[|surveys| - 1], toYear), fromYear);
    }
  }

  // ---- Completeness ----

  lemma {:induction false} DistinctSurveysCount(surveys: seq<string>)
    requires Distinct(surveys)
    ensures |Surveys(surveys)| == |surveys|
  {
    if surveys == [] {
      assert Surveys(surveys) == {};
    } else {
      var front, last := surveys[..|surveys| - 1], surveys[|surveys| - 1];
      DistinctSurveysCount(front);
      assert surveys == front + [last];
      assert Surveys(surveys) == Surveys(front) + {last};
      assert last !in front;
    }
  }

  ghost function Surveys(surveys: seq<string>): set<string> {
    set x | x in surveys
  }

  /** A published demand with something outstanding. */
  predicate Owes(demands: Demands, key: DemandKey) {
    key in demands && demands[key].status == Published && demands[key].outstanding > 0
  }

  lemma ListedIff(demands: Demands, yearId: string, surveys: seq<string>)
    ensures (forall key :: Owes(demands, key) && key.yearId == yearId ==> key.surveyId in surveys)
       <==> (forall x :: x in UnpaidSurveys(demands, yearId) ==> x in surveys)
  {
    if forall x :: x in UnpaidSurveys(demands, yearId) ==> x in surveys {
      forall key | Owes(demands, key) && key.yearId == yearId ensures key.surveyId in surveys {
        assert IsUnpaid(demands, yearId, key.surveyId);
        assert key.surveyId in UnpaidSurveys(demands, yearId);
      }
    }
    if forall key :: Owes(demands, key) && key.yearId == yearId ==> key.surveyId in surveys {
      forall x | x in UnpaidSurveys(demands, yearId) ensures x in surveys {
        assert Owes(demands, DemandKey(x, yearId));
      }
    }
  }

  /** The preview, and so the commit, reaches every unpaid demand exactly when there are at most 5000. */
  lemma PreviewCompleteIff(demands: Demands, yearId: string, surveys: seq<string>)
    requires IsPreview(demands, yearId, surveys)
    ensures forall x :: x in surveys ==> Owes(demands, DemandKey(x, yearId))
    ensures (forall key :: Owes(demands, key) && key.yearId == yearId ==> key.surveyId in surveys)
            <==> |UnpaidSurveys(demands, yearId)| <= 5000
  {
    ListedIff(demands, yearId, surveys);
    var eligible, listed := UnpaidSurveys(demands, yearId), Surveys(surveys);
    DistinctSurveysCount(surveys);
    forall x | x in listed ensures x in eligible {
      var i :| 0 <= i < |surveys| && surveys[i] == x;
      assert IsUnpaid(demands, yearId, x);
      assert DemandKey(x, yearId) in demands;
    }
    SizeOfSubset(eligible, listed);
    if |eligible| <= PREVIEW_LIMIT {
      SubsetOfSameSize(listed, eligible);
    }
  }

  lemma SizeOfSubset(a: set<string>, b: set<string>)
    ensures a <= b ==> |a| <= |b|
  {
    if a <= b {
      assert b == a + (b - a);
    }
  }

  lemma SubsetOfSameSize(a: set<string>, b: set<string>)
    requires a <= b && |a| == |b|
    ensures a == b
  {
    assert |b - a| == |b| - |a|;
  }

  /** After a commit every unpaid demand of the source year has its row, if there are at most 5000. */
  lemma CommitReachesAll(s: Store, fromYear: string, toYear: string, surveys: seq<string>, surveyId: string)
    requires IsPreview(s.demands, fromYear, surveys)
    requires fromYear != toYear && (fromYear, toYear) !in s.runs
    requires |UnpaidSurveys(s.demands, fromYear)| <= 5000 && Owes(s.demands, DemandKey(surveyId, fromYear))
    ensures AlreadyCarried(Commit(s, fromYear, toYear, surveys).demands, DemandKey(surveyId, toYear), fromYear)
  {
    PreviewCompleteIff(s.demands, fromYear, surveys);
    assert DemandKey(surveyId, fromYear) in s.demands;
    assert surveyId in UnpaidSurveys(s.demands, fromYear);
    CommitEffect(s, fromYear, toYear, surveys, DemandKey(surveyId, toYear));
  }

  // ---- Two commits into the same year ----

  /** Carrying another year leaves the demands of year `other`, and so its preview, alone. */
  lemma PreviewUnaffected(
    s: Store, fromYear: string, toYear: string, surveys: seq<string>, other: string, listed: seq<string>)
    requires IsPreview(s.demands, fromYear, surveys) && IsPreview(s.demands, other, listed) && other != toYear
    ensures IsPreview(Commit(s, fromYear, toYear, surveys).demands, other, listed)
    ensures forall x :: IsUnpaid(s.demands, other, x) ==>
                          var after := Commit(s, fromYear, toYear, surveys).demands;
                          IsUnpaid(after, other, x)
                          && OutstandingOf(after, other, x) == OutstandingOf(s.demands, other, x)
  {
    var after := Commit(s, fromYear, toYear, surveys).demands;
    forall x ensures Row(after, DemandKey(x, other)) == Row(s.demands, DemandKey(x, other)) {
      if fromYear != toYear && (fromYear, toYear) !in s.runs {
        CarryAllRow(s.demands, s.demands, fromYear, toYear, surveys, DemandKey(x, other));
      }
    }
    forall x ensures IsUnpaid(after, other, x) == IsUnpaid(s.demands, other, x)
      ensures IsUnpaid(s.demands, other, x) ==> OutstandingOf(after, other, x) == OutstandingOf(s.demands, other, x)
    {
      assert Row(after, DemandKey(x, other)) == Row(s.demands, DemandKey(x, other));
    }
    assert UnpaidSurveys(after, other) == UnpaidSurveys(s.demands, other) by {
      forall x ensures x in UnpaidSurveys(after, other) <==> x in UnpaidSurveys(s.demands, other) {
        UnpaidMember(after, other, x);
        UnpaidMember(s.demands, other, x);
      }
    }
  }

  lemma UnpaidMember(demands: Demands, yearId: string, x: string)
    ensures x in UnpaidSurveys(demands, yearId) <==> IsUnpaid(demands, yearId, x)
  {
    if IsUnpaid(demands, yearId, x) {
      assert DemandKey(x, yearId) in demands;
    }
  }

  /** The two rows of one demand can be added in either order. */
  lemma ArrearsCommute(target: Demand, other: Demand, a: string, amountA: int, b: string, amountB: int)
    requires a != b && a !in target.rows && b !in target.rows
    requires other == target.(arrears := other.arrears, totalPayable := other.totalPayable,
        outstanding := other.outstanding)
    ensures WithArrear(WithArrear(target, a, amountA), b, amountB)
        == WithArrear(WithArrear(other, b, amountB), a, amountA)
  {
    SumMapUpdate(target.rows, a, amountA);
    SumMapUpdate(target.rows, b, amountB);
    assert target.rows[a := amountA][b := amountB] == target.rows[b := amountB][a := amountA];
  }

  lemma CarriesCommuteAt(
    demands: Demands, a: string, listA: seq<string>, b: string, listB: seq<string>, toYear: string, key: DemandKey)
    requires a != b && a != toYear && b != toYear
    requires AllUnpaid(demands, a, listA) && Distinct(listA) && AllUnpaid(demands, b, listB) && Distinct(listB)
    ensures Row(CarryAll(demands, CarryAll(demands, demands, a, toYear, listA), b, toYear, listB), key)
            == Row(CarryAll(demands, CarryAll(demands, demands, b, toYear, listB), a, toYear, listA), key)
  {
    var afterA, afterB := CarryAll(demands, demands, a, toYear, listA), CarryAll(demands, demands, b, toYear, listB);
    CarryAllRow(demands, demands, a, toYear, listA, key);
    CarryAllRow(demands, demands, b, toYear, listB, key);
    CarryAllRow(demands, afterA, b, toYear, listB, key);
    CarryAllRow(demands, afterB, a, toYear, listA, key);
    if key.yearId == toYear && key.surveyId in listA && key.surveyId in listB
       && !AlreadyCarried(demands, key, a) && !AlreadyCarried(demands, key, b)
    {
      var amountA, amountB := OutstandingOf(demands, a, key.surveyId), OutstandingOf(demands, b, key.surveyId);
      ArrearsCommute(Target(demands, key, amountA), Target(demands, key, amountB), a, amountA, b, amountB);
    }
  }

  lemma CarriesCommute(
    demands: Demands, a: string, listA: seq<string>, b: string, listB: seq<string>, toYear: string)
    requires a != b && a != toYear && b != toYear
    requires AllUnpaid(demands, a, listA) && Distinct(listA) && AllUnpaid(demands, b, listB) && Distinct(listB)
    ensures CarryAll(demands, CarryAll(demands, demands, a, toYear, listA), b, toYear, listB)
            == CarryAll(demands, CarryAll(demands, demands, b, toYear, listB), a, toYear, listA)
  {
    var ab := CarryAll(demands, CarryAll(demands, demands, a, toYear, listA), b, toYear, listB);
    var ba := CarryAll(demands, CarryAll(demands, demands, b, toYear, listB), a, toYear, listA);
    forall key ensures Row(ab, key) == Row(ba, key) {
      CarriesCommuteAt(demands, a, listA, b, listB, toYear, key);
    }
    SameRows(ab, ba);
  }

  /** The amounts of a commit may be read from any demands that agree on the source year. */
  lemma {:induction false} CarryAllFrom(
    before: Demands, before': Demands, demands: Demands, fromYear: string, toYear: string, surveys: seq<string>)
    requires AllUnpaid(before, fromYear, surveys) && AllUnpaid(before', fromYear, surveys)
    requires forall i :: 0 <= i < |surveys| ==>
                           OutstandingOf(before, fromYear, surveys[i]) == OutstandingOf(before', fromYear, surveys[i])
    ensures CarryAll(before, demands, fromYear, toYear, surveys)
        == CarryAll(before', demands, fromYear, toYear, surveys)
    ensures PreviewTotal(before, fromYear, surveys) == PreviewTotal(before', fromYear, surveys)
  {
    if surveys != [] {
      CarryAllFrom(before, before', demands, fromYear, toYear, surveys[..|surveys| - 1]);
    }
  }

  /** Carrying year a does not change which rows of year b are there. */
  lemma {:induction false} CarriedCountUnaffected(
    demands: Demands, a: string, listA: seq<string>, b: string, listB: seq<string>, toYear: string)
    requires a != b && AllUnpaid(demands, a, listA) && Distinct(listA)
    ensures
      var after := CarryAll(demands, demands, a, toYear, listA);
      && CarriedCount(after, b, toYear, listB) == CarriedCount(demands, b, toYear, listB)
      && SkippedCount(after, b, toYear, listB) == SkippedCount(demands, b, toYear, listB)
  {
    if listB != [] {
      CarriedCountUnaffected(demands, a, listA, b, listB[..|listB| - 1], toYear);
      CarryAllRow(demands, demands, a, toYear, listA, DemandKey(listB[|listB| - 1], toYear));
    }
  }

  /** The ledger after both commits, amounts read before either. */
  ghost function AfterBoth(
    s: Store, a: string, listA: seq<string>, b: string, listB: seq<string>, toYear: string): Store
    requires AllUnpaid(s.demands, a, listA) && AllUnpaid(s.demands, b, listB)
  {
    s.(
    demands := CarryAll(s.demands, CarryAll(s.demands, s.demands, a, toYear, listA), b, toYear, listB),
    runs := s.runs[(a, toYear) := Summary(s.demands, a, toYear, listA)]
                  [(b, toYear) := Summary(s.demands, b, toYear, listB)])
  }

  lemma AfterBothCommutes(s: Store, a: string, listA: seq<string>, b: string, listB: seq<string>, toYear: string)
    requires a != b && a != toYear && b != toYear
    requires AllUnpaid(s.demands, a, listA) && Distinct(listA) && AllUnpaid(s.demands, b, listB) && Distinct(listB)
    ensures AfterBoth(s, a, listA, b, listB, toYear) == AfterBoth(s, b, listB, a, listA, toYear)
  {
    CarriesCommute(s.demands, a, listA, b, listB, toYear);
    RunsCommute(
      s.runs, (a, toYear), Summary(s.demands, a, toYear, listA), (b, toYear), Summary(s.demands, b, toYear, listB));
  }

  lemma RunsCommute<K, V>(runs: map<K, V>, a: K, runA: V, b: K, runB: V)
    requires a != b
    ensures runs[a := runA][b := runB] == runs[b := runB][a := runA]
  {
  }

  lemma SummaryUnaffected(
    demands: Demands, after: Demands, a: string, listA: seq<string>, b: string, listB: seq<string>, toYear: string)
    requires a != b && AllUnpaid(demands, a, listA) && Distinct(listA) && AllUnpaid(demands, b, listB)
    requires after == CarryAll(demands, demands, a, toYear, listA) && AllUnpaid(after, b, listB)
    requires forall i :: 0 <= i < |listB| ==> OutstandingOf(demands, b, listB[i]) == OutstandingOf(after, b, listB[i])
    ensures CarryAll(after, after, b, toYear, listB) == CarryAll(demands, after, b, toYear, listB)
    ensures Summary(after, b, toYear, listB) == Summary(demands, b, toYear, listB)
  {
    CarryAllFrom(demands, after, after, b, toYear, listB);
    CarriedCountUnaffected(demands, a, listA, b, listB, toYear);
  }

  lemma SecondOfTwo(s: Store, a: string, listA: seq<string>, b: string, listB: seq<string>, toYear: string)
    requires a != b && a != toYear && b != toYear
    requires (a, toYear) !in s.runs && (b, toYear) !in s.runs
    requires IsPreview(s.demands, a, listA) && IsPreview(s.demands, b, listB)
    ensures IsPreview(Commit(s, a, toYear, listA).demands, b, listB)
    ensures Commit(Commit(s, a, toYear, listA), b, toYear, listB) == AfterBoth(s, a, listA, b, listB, toYear)
  {
    var first := Commit(s, a, toYear, listA);
    PreviewUnaffected(s, a, toYear, listA, b, listB);
    SummaryUnaffected(s.demands, first.demands, a, listA, b, listB, toYear);
  }

  /** Committing years a and b into a third year gives the same ledger in either order. */
  lemma YearEndCommitsCommute(s: Store, a: string, listA: seq<string>, b: string, listB: seq<string>, toYear: string)
    requires a != b && a != toYear && b != toYear
    requires IsPreview(s.demands, a, listA) && IsPreview(s.demands, b, listB)
    ensures IsPreview(Commit(s, a, toYear, listA).demands, b, listB)
    ensures IsPreview(Commit(s, b, toYear, listB).demands, a, listA)
    ensures Commit(Commit(s, a, toYear, listA), b, toYear, listB)
            == Commit(Commit(s, b, toYear, listB), a, toYear, listA)
  {
    if (a, toYear) !in s.runs && (b, toYear) !in s.runs {
      SecondOfTwo(s, a, listA, b, listB, toYear);
      SecondOfTwo(s, b, listB, a, listA, toYear);
      AfterBothCommutes(s, a, listA, b, listB, toYear);
    } else {
      PreviewUnaffected(s, a, toYear, listA, b, listB);
      PreviewUnaffected(s, b, toYear, listB, a, listA);
    }
  }
}
