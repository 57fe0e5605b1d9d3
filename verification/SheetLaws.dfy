/** Which sheets give every row its own record, read off the sheet alone. */
module SheetLaws {
  import opened Common
  import opened ImportLaws
  import opened ImportModel
  import opened SurveyIds
  import opened SurveyRecords

  /** No record has the canonical id or the raw id of a row, nor its place. */
  ghost predicate Unknown(rows: Rows, item: Item)
    requires Imports(item)
  {
    && (forall id :: !Holds(rows, id, item.target.value.surveyId) && !Holds(rows, id, item.rawSurveyId))
    && (forall id :: !SamePlace(rows, id, item.target.value))
  }

  ghost predicate NewSheet(rows: Rows, items: seq<Item>) {
    forall i {:trigger items[i]} :: 0 <= i < |items| && Imports(items[i]) ==> Unknown(rows, items[i])
  }

  /** Records that no row touched are as they were before the import. */
  ghost predicate OthersAsBefore(before: Rows, p: Progress) {
    forall id :: id in p.rows && id !in p.tally.touched ==> id in before && p.rows[id] == before[id]
  }

  lemma StepKeepsOthers(job: Job, before: Rows, p: Progress, item: Item, q: Progress)
    requires job.strategy.Update? && Inv(job, p) && Next(job, p, item, q) && OthersAsBefore(before, p)
    ensures OthersAsBefore(before, q)
  {
    if Imports(item) {
      var _, id := ImportStep(job, p, item, q);
    } else {
      OtherStep(job, p, item, q);
    }
  }

  lemma {:induction false} RunKeepsOthers(job: Job, items: seq<Item>, states: seq<Progress>, n: nat)
    requires job.strategy.Update? && n <= |items|
    requires IsRun(job, items, states) && Stored(states[0].rows, states[0].nextId)
    ensures OthersAsBefore(states[0].rows, states[n])
    decreases n
  {
    if n > 0 {
      RunKeepsOthers(job, items, states, n - 1);
      RunKeeps(job, items, states, n - 1);
      RunStep(job, items, states, n - 1);
      StepKeepsOthers(job, states[0].rows, states[n - 1], items[n - 1], states[n]);
    }
  }

  /** What a row of a new sheet finds was put there, or changed, by an earlier row. */
  lemma FoundWasTouched(before: Rows, p: Progress, item: Item, found: nat)
    requires Imports(item) && Unknown(before, item) && OthersAsBefore(before, p)
    requires Holds(p.rows, found, item.target.value.surveyId) || Holds(p.rows, found, item.rawSurveyId)
             || SamePlace(p.rows, found, item.target.value)
    ensures found in p.tally.touched
  {
    assert !Holds(before, found, item.target.value.surveyId) && !Holds(before, found, item.rawSurveyId);
    assert !SamePlace(before, found, item.target.value);
  }

  /** A row that can be taken for an earlier one is: it finds a touched record. */
  lemma ConfusableFinds(before: Rows, p: Progress, item: Item, found: Option<nat>, earlier: Target)
    requires Imports(item) && Unknown(before, item) && OthersAsBefore(before, p) && UniqueIds(p.rows)
    requires Fits(p.rows, item, found) && HasRecord(p, earlier)
    requires Confusable(earlier, item.target.value, item.rawSurveyId)
    ensures FindsTouched(p, item, found)
  {
    var target := item.target.value;
    var id :| id in p.tally.touched && id in p.rows && Carries(p.rows[id], earlier);
    assert earlier.surveyId == target.surveyId ==> Holds(p.rows, id, target.surveyId);
    assert earlier.surveyId == item.rawSurveyId ==> Holds(p.rows, id, item.rawSurveyId);
    var canonical, raw := Holder(p.rows, target.surveyId), Holder(p.rows, item.rawSurveyId);
    if canonical.Some? {
      FoundWasTouched(before, p, item, canonical.value);
    } else if item.rawSurveyId != target.surveyId && raw.Some? {
      FoundWasTouched(before, p, item, raw.value);
    } else {
      assert SamePlace(p.rows, id, target);
      FoundWasTouched(before, p, item, found.value);
    }
  }

  lemma ConfusableIsTakenOver(
    job: Job, items: seq<Item>, states: seq<Progress>, i: nat, j: nat)
    requires job.strategy.Update? && i < j < |items| && IsRun(job, items, states)
    requires NewSheet(states[0].rows, items) && Stored(states[0].rows, states[0].nextId)
    requires Imports(items[i]) && Imports(items[j]) && OneEach(items, j, states[j])
    requires Confusable(items[i].target.value, items[j].target.value, items[j].rawSurveyId)
    ensures TakesOver(job, states[j], items[j], states[j + 1])
  {
    var p, q := states[j], states[j + 1];
    RunKeepsOthers(job, items, states, j);
    RunKeeps(job, items, states, j);
    RunStep(job, items, states, j);
    var found :| Fits(p.rows, items[j], found) && q == Handle(job, p, items[j], found);
    assert HasRecord(p, items[i].target.value);
    ConfusableFinds(states[0].rows, p, items[j], found, items[i].target.value);
  }

  lemma PrefixKeptApart(job: Job, items: seq<Item>, states: seq<Progress>, n: nat, j: nat)
    requires j <= n <= |items| < |states| && NoneTakenOver(job, items, states, n)
    ensures NoneTakenOver(job, items, states, j)
  {
  }

  /**
   * Importing, under UPDATE, a sheet of which the table knows no id and no place: every row ends with its own live
   * record exactly when no row can be taken for an earlier one.
   */
  lemma NewSheetIff(job: Job, items: seq<Item>, states: seq<Progress>)
    requires job.strategy.Update? && IsRun(job, items, states) && Stored(states[0].rows, states[0].nextId)
    requires NewSheet(states[0].rows, items)
    ensures OneEach(items, |items|, states[|items|]) <==> NoneConfusable(items)
  {
    if NoneConfusable(items) {
      EveryRowHasItsRecord(job, items, states, |items|);
    } else {
      var i, j :| 0 <= i < j < |items| && Imports(items[i]) && Imports(items[j])
                  && Confusable(items[i].target.value, items[j].target.value, items[j].rawSurveyId);
      OneRecordPerRowIff(job, items, states, |items|);
      if NoneTakenOver(job, items, states, |items|) {
        PrefixKeptApart(job, items, states, |items|, j);
        KeptApart(job, items, states, j);
        ConfusableIsTakenOver(job, items, states, i, j);
      }
    }
  }

  /** In particular into an empty table. */
  lemma EmptyTableIff(job: Job, items: seq<Item>, states: seq<Progress>)
    requires job.strategy.Update? && IsRun(job, items, states) && states[0].rows == map[]
    ensures OneEach(items, |items|, states[|items|]) <==> NoneConfusable(items)
  {
    NewSheetIff(job, items, states);
  }
}
