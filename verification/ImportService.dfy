/** `ImportsService`: the row loop of `processJob` over the survey table, step by step. */
module ImportService {
  import opened Common
  import opened ImportLaws
  import opened ImportModel
  import opened SurveyRecords

  class ImportsService {
    const surveys: SurveyTable

    constructor (surveys: SurveyTable)
      ensures this.surveys == surveys
    {
      this.surveys := surveys;
    }

    method FindImportDuplicate(target: Target, rawId: string) returns (found: Option<nat>)
      requires surveys.Valid()
      ensures IsDuplicate(surveys.rows, target, rawId, found)
    {
      found := surveys.FindUnique(target.surveyId);
      if found.Some? {
        return;
      }
      if rawId != target.surveyId {
        found := surveys.FindUnique(rawId);
        if found.Some? {
          return;
        }
      }
      if exists id :: id in surveys.rows && SamePlace(surveys.rows, id, target) {
        var id :| id in surveys.rows && SamePlace(surveys.rows, id, target);
        found := Some(id);
      }
    }

    /** The create call, and the update of the conflicting row when the survey id is taken. */
    method InsertOrRevive(target: Target, patch: Patch) returns (outcome: RowOutcome)
      requires surveys.Valid()
      modifies surveys
      ensures surveys.Valid()
      ensures (outcome, surveys.rows) == CreateOrRevive(old(surveys.rows), old(surveys.nextId), target, patch)
      ensures surveys.nextId == if outcome.Inserted? then old(surveys.nextId) + 1 else old(surveys.nextId)
    {
      var created := surveys.Create(Fresh(target, patch));
      if created.Some? {
        return Inserted(created.value, target.wardId);
      }
      var conflict := surveys.FindUnique(target.surveyId);
      var id := conflict.value;
      assert UniqueIds(surveys.rows) && Holds(surveys.rows, id, target.surveyId);
      var ok := surveys.Update(id, Overwrite(surveys.rows[id], target, patch));
      assert ok;
      outcome := Rewritten(id, target.wardId);
    }

    /** One identified row; the update of the found record never meets a taken survey id. */
    method ImportRow(job: Job, target: Target, rawId: string, patch: Patch)
      returns (outcome: RowOutcome, ghost found: Option<nat>)
      requires surveys.Valid()
      modifies surveys
      ensures surveys.Valid()
      ensures IsDuplicate(old(surveys.rows), target, rawId, found)
      ensures (outcome, surveys.rows)
           == ImportTarget(job, old(surveys.rows), old(surveys.nextId), target, patch, found)
      ensures surveys.nextId == if outcome.Inserted? then old(surveys.nextId) + 1 else old(surveys.nextId)
    {
      var duplicate := FindImportDuplicate(target, rawId);
      found := duplicate;
      if duplicate.Some? {
        var id := duplicate.value;
        var existing := surveys.rows[id];
        if job.strategy.Skip? && !existing.deleted {
          return Skipped(id, target.wardId), found;
        }
        if job.strategy.Update? || existing.deleted {
          if NoAuditedChange(job, existing, target, patch) && !existing.deleted {
            return Unchanged(id, target.wardId), found;
          }
          OnlyTheFoundHasTheId(surveys.rows, target, rawId, id);
          var ok := surveys.Update(id, Overwrite(existing, target, patch));
          assert ok;
          return Rewritten(id, target.wardId), found;
        }
      }
      outcome := InsertOrRevive(target, patch);
    }

    /** The body of the loop: one sheet row and the counters. */
    method HandleRow(job: Job, row: SheetRow, before: Tally) returns (after: Tally)
      requires surveys.Valid()
      modifies surveys
      ensures surveys.Valid()
      ensures Next(job, Progress(old(surveys.rows), old(surveys.nextId), before), ReadRow(job, row),
                   Progress(surveys.rows, surveys.nextId, after))
    {
      ghost var found := None;
      after := before;
      if row.rawSurveyId != "" {
        var target := Identify(job, row);
        if target.None? {
          after := Count(before, Failed);
        } else {
          var outcome;
          outcome, found := ImportRow(job, target.value, row.rawSurveyId, row.patch);
          after := Count(before, outcome);
        }
      }
      StepIsNext(job, Progress(old(surveys.rows), old(surveys.nextId), before), ReadRow(job, row), found,
                 Progress(surveys.rows, surveys.nextId, after));
    }

    /** The loop over the sheet; `states` records the progress before each row and at the end. */
    method ImportRows(job: Job, sheet: seq<SheetRow>) returns (t: Tally, ghost states: seq<Progress>)
      requires surveys.Valid()
      modifies surveys
      ensures surveys.Valid()
      ensures IsRun(job, ReadSheet(job, sheet), states)
      ensures states[0] == Progress(old(surveys.rows), old(surveys.nextId), Zero)
      ensures states[|sheet|] == Progress(surveys.rows, surveys.nextId, t)
    {
      ghost var items := ReadSheet(job, sheet);
      t := Zero;
      states := [Progress(surveys.rows, surveys.nextId, t)];
      for i := 0 to |sheet|
        invariant surveys.Valid()
        invariant |states| == i + 1 && states[0] == Progress(old(surveys.rows), old(surveys.nextId), Zero)
        invariant states[i] == Progress(surveys.rows, surveys.nextId, t)
        invariant forall k :: 0 <= k < i ==> Next(job, states[k], items[k], states[k + 1])
      {
        t := HandleRow(job, sheet[i], t);
        states := states + [Progress(surveys.rows, surveys.nextId, t)];
      }
    }

    method ReconcileWardOrphans(wardId: string, keep: set<nat>) returns (pruned: nat)
      requires surveys.Valid()
      modifies surveys
      ensures surveys.Valid() && surveys.nextId == old(surveys.nextId)
      ensures (surveys.rows, pruned) == Reconciled(old(surveys.rows), wardId, keep)
    {
      var orphans := Orphans(surveys.rows, wardId, keep);
      if |orphans| == 0 {
        return 0;
      }
      if !ShouldPrune(|orphans|, |keep|) {
        return 0;
      }
      surveys.rows := SoftDelete(surveys.rows, orphans);
      pruned := |orphans|;
    }

    method ProcessJob(job: Job, sheet: seq<SheetRow>, pruneMissing: bool)
      returns (report: Report, ghost states: seq<Progress>)
      requires surveys.Valid()
      modifies surveys
      ensures surveys.Valid()
      ensures IsRun(job, ReadSheet(job, sheet), states)
      ensures states[0] == Progress(old(surveys.rows), old(surveys.nextId), Zero)
      ensures (report, surveys.rows) == Finish(job, states[|sheet|].rows, states[|sheet|].tally, pruneMissing)
    {
      var t;
      t, states := ImportRows(job, sheet);
      var pruned := 0;
      var ward := WardToReconcile(job, t, pruneMissing);
      if ward.Some? {
        pruned := ReconcileWardOrphans(ward.value, t.touched);
      }
      var status := if t.failed == 0 then Completed else if t.success > 0 then Partial else AllFailed;
      report := Report(status, t, pruned);
    }
  }

  lemma OnlyTheFoundHasTheId(rows: Rows, target: Target, rawId: string, id: nat)
    requires UniqueIds(rows) && IsDuplicate(rows, target, rawId, Some(id))
    ensures forall k :: k in rows && k != id ==> rows[k].surveyId != target.surveyId
  {
    forall k | k in rows && k != id ensures rows[k].surveyId != target.surveyId {
      if Holds(rows, k, target.surveyId) {
        FoundOwnsTheId(rows, target, rawId, Some(id), k);
      }
    }
  }

  lemma StepIsNext(job: Job, p: Progress, item: Item, found: Option<nat>, q: Progress)
    requires Fits(p.rows, item, found) && q == Handle(job, p, item, found)
    ensures Next(job, p, item, q)
  {
  }
}
