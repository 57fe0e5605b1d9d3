/** What every import job keeps, and when the file and the records agree. */
module ImportLaws {
  import opened Common
  import opened ImportModel
  import opened SurveyAudit
  import opened SurveyIds
  import opened SurveyRecords

  // ---- One row ----

  /** The record carries the row's identity and is live. */
  predicate Carries(survey: Survey, target: Target) {
    && survey.surveyId == target.surveyId
    && survey.wardId == target.wardId
    && survey.parcelNo == Some(target.parcelNo)
    && survey.propertyNo == Some(target.propertyNo)
    && !survey.deleted && survey.status == Active
  }

  ghost predicate Stored(rows: Rows, nextId: nat) {
    UniqueIds(rows) && forall id :: id in rows ==> id < nextId
  }

  /** A record that already has the canonical id is the one that is found. */
  lemma FoundOwnsTheId(rows: Rows, target: Target, rawId: string, found: Option<nat>, other: nat)
    requires UniqueIds(rows) && IsDuplicate(rows, target, rawId, found)
    requires Holds(rows, other, target.surveyId)
    ensures found == Some(other)
  {
  }

  lemma ImportKeepsStored(
      job: Job, rows: Rows, nextId: nat, target: Target, patch: Patch, rawId: string, found: Option<nat>)
    requires Stored(rows, nextId) && IsDuplicate(rows, target, rawId, found)
    ensures var (outcome, after) := ImportTarget(job, rows, nextId, target, patch, found);
            Stored(after, if outcome.Inserted? then nextId + 1 else nextId)
  {
    var (outcome, after) := ImportTarget(job, rows, nextId, target, patch, found);
    if outcome.Inserted? {
      WriteKeepsUnique(rows, nextId, Fresh(target, patch));
    } else if outcome.Rewritten? {
      forall k | k != outcome.id ensures !Holds(rows, k, target.surveyId) {
        if Holds(rows, k, target.surveyId) {
          FoundOwnsTheId(rows, target, rawId, found, k);
        }
      }
      WriteKeepsUnique(rows, outcome.id, Overwrite(rows[outcome.id], target, patch));
    }
  }

  /** The branch for a taken survey id is reached exactly when CREATE meets a live record with the canonical id. */
  lemma CreateConflictIff(
      job: Job, rows: Rows, nextId: nat, target: Target, patch: Patch, rawId: string, found: Option<nat>)
    requires UniqueIds(rows) && IsDuplicate(rows, target, rawId, found)
    ensures
      var creates := found.None? || (!rows[found.value].deleted && job.strategy.Create?);
      var conflict := Holder(rows, target.surveyId).Some?;
      creates && conflict
      <==> job.strategy.Create? && conflict && !rows[Holder(rows, target.surveyId).value].deleted
  {
  }

  function Column(columns: map<string, Cell>, field: string): Option<Cell> {
    if field in columns then Some(columns[field]) else None
  }

  lemma SameCellIff(survey: Survey, patch: Patch, field: string)
    ensures SameCell(survey, patch, field) <==> Column(survey.columns, field) == Column(patch.values, field)
  {
    PlainEqualsIff(CellValue(survey.columns, field), CellValue(patch.values, field));
  }

  /** A stored and a proposed area compare equal exactly when there is neither. */
  lemma SameAreaIff(survey: Survey, patch: Patch, field: string)
    ensures SameArea(survey, patch, field) <==> field !in survey.areas && field !in patch.areas
  {
    if field in survey.areas {
      DecimalEqualsIff(survey.areas[field], ProposedArea(patch.areas, field));
    } else {
      PlainEqualsIff(Null, ProposedArea(patch.areas, field));
    }
  }

  predicate SameIdentity(survey: Survey, target: Target) {
    && survey.surveyId == target.surveyId
    && survey.wardId == target.wardId
    && survey.parcelNo == Some(target.parcelNo)
    && survey.propertyNo == Some(target.propertyNo)
    && survey.status == Active
  }

  predicate AuditedAgree(job: Job, survey: Survey, patch: Patch) {
    forall field :: field in job.audited ==> Column(survey.columns, field) == Column(patch.values, field)
  }

  /** The audit finds no change exactly when identity and audited columns agree and neither side has an area. */
  lemma NoAuditedChangeIff(job: Job, survey: Survey, target: Target, patch: Patch)
    ensures NoAuditedChange(job, survey, target, patch)
       <==> && SameIdentity(survey, target) && AuditedAgree(job, survey, patch)
            && survey.areas == map[] && patch.areas == map[]
  {
    forall field
      ensures SameCell(survey, patch, field) <==> Column(survey.columns, field) == Column(patch.values, field)
    {
      SameCellIff(survey, patch, field);
    }
    forall field ensures SameArea(survey, patch, field) <==> field !in survey.areas && field !in patch.areas {
      SameAreaIff(survey, patch, field);
    }
    if survey.areas != map[] {
      var field :| field in survey.areas;
      assert !SameArea(survey, patch, field);
    }
    if patch.areas != map[] {
      var field :| field in patch.areas;
      assert !SameArea(survey, patch, field);
    }
  }

  /** The audited columns and the areas hold the values of the sheet. */
  predicate HasAuditedValues(job: Job, survey: Survey, patch: Patch) {
    && (forall field :: field in job.audited && field in patch.values
          ==> Column(survey.columns, field) == Some(patch.values[field]))
    && (forall field :: field in patch.areas
          ==> field in survey.areas && survey.areas[field] == Units(patch.areas[field]))
  }

  /** Under UPDATE a row leaves a live record with its identity: inserted, rewritten or left as it was. */
  lemma UpdateLeavesRecord(
      job: Job, rows: Rows, nextId: nat, target: Target, patch: Patch, rawId: string, found: Option<nat>)
    requires job.strategy.Update? && UniqueIds(rows) && IsDuplicate(rows, target, rawId, found)
    ensures
      var (outcome, after) := ImportTarget(job, rows, nextId, target, patch, found);
      && (outcome.Inserted? || outcome.Rewritten? || outcome.Unchanged?)
      && outcome.wardId == target.wardId
      && outcome.id == found.GetOr(nextId)
      && outcome.id in after && Carries(after[outcome.id], target)
      && HasAuditedValues(job, after[outcome.id], patch)
      && (forall id :: id in rows && id != outcome.id ==> id in after && after[id] == rows[id])
      && after.Keys == rows.Keys + {outcome.id}
  {
    if found.Some? {
      NoAuditedChangeIff(job, rows[found.value], target, patch);
    }
  }

  // ---- What an unchanged row leaves behind ----

  /** The stored column is what the patch would write, or the patch leaves it alone. */
  predicate Written(columns: map<string, Cell>, patch: Patch, field: string) {
    if field in patch.values then Column(columns, field) == Some(patch.values[field])
    else field in patch.nulls ==> field !in columns
  }

  lemma PatchedIffWritten(columns: map<string, Cell>, patch: Patch)
    ensures columns == Patched(columns, patch) <==> forall field :: Written(columns, patch, field)
  {
    var patched := Patched(columns, patch);
    if columns == patched {
      forall field ensures Written(columns, patch, field) {
        assert Column(patched, field) == Column(columns, field);
      }
    }
    if forall field :: Written(columns, patch, field) {
      forall field ensures Column(patched, field) == Column(columns, field) {
        assert Written(columns, patch, field);
      }
      SameColumns(columns, patched);
    }
  }

  lemma SameColumns(a: map<string, Cell>, b: map<string, Cell>)
    requires forall field :: Column(b, field) == Column(a, field)
    ensures a == b
  {
    forall field ensures field in a <==> field in b {
      assert Column(b, field) == Column(a, field);
    }
    forall field | field in a ensures a[field] == b[field] {
      assert Column(b, field) == Column(a, field);
    }
  }

  ghost predicate UnauditedWritten(job: Job, columns: map<string, Cell>, patch: Patch) {
    forall field :: field !in job.audited && (field in patch.values || field in patch.nulls)
      ==> Written(columns, patch, field)
  }

  lemma AuditedWritten(job: Job, survey: Survey, patch: Patch)
    requires AuditedAgree(job, survey, patch)
    ensures UnauditedWritten(job, survey.columns, patch) <==> survey.columns == Patched(survey.columns, patch)
  {
    PatchedIffWritten(survey.columns, patch);
    forall field | field in job.audited ensures Written(survey.columns, patch, field) {
      assert Column(survey.columns, field) == Column(patch.values, field);
    }
    if UnauditedWritten(job, survey.columns, patch) {
      forall field ensures Written(survey.columns, patch, field) {
      }
    }
  }

  /**
   * Under UPDATE a live record that is found ends with the columns and areas the sheet asks for exactly when the audit
   * finds a change or no column outside the audit differs.
   */
  lemma SheetColumnsStoredIff(job: Job, rows: Rows, nextId: nat, target: Target, patch: Patch, id: nat)
    requires job.strategy.Update? && id in rows && !rows[id].deleted
    ensures
      var after := ImportTarget(job, rows, nextId, target, patch, Some(id)).1;
      && id in after
      && (after[id].columns == Patched(rows[id].columns, patch)
          && after[id].areas == rows[id].areas + StoredAreas(patch.areas)
          <==> !NoAuditedChange(job, rows[id], target, patch) || UnauditedWritten(job, rows[id].columns, patch))
  {
    NoAuditedChangeIff(job, rows[id], target, patch);
    if NoAuditedChange(job, rows[id], target, patch) {
      AuditedWritten(job, rows[id], patch);
      assert rows[id].areas + StoredAreas(patch.areas) == rows[id].areas;
    }
  }

  /** A live record found under UPDATE is left alone exactly when identity and audited columns agree, without areas. */
  lemma LeftAloneIff(job: Job, rows: Rows, nextId: nat, target: Target, patch: Patch, id: nat)
    requires job.strategy.Update? && id in rows && !rows[id].deleted
    ensures
      ImportTarget(job, rows, nextId, target, patch, Some(id)).0.Unchanged?
      <==> && SameIdentity(rows[id], target) && AuditedAgree(job, rows[id], patch)
           && rows[id].areas == map[] && patch.areas == map[]
  {
    NoAuditedChangeIff(job, rows[id], target, patch);
  }

  /** A record just inserted from a row is left alone by the same row exactly when the row has no area. */
  lemma ReimportLeavesAloneIff(job: Job, rows: Rows, nextId: nat, target: Target, patch: Patch, id: nat)
    requires job.strategy.Update? && id in rows && rows[id] == Fresh(target, patch)
    ensures ImportTarget(job, rows, nextId, target, patch, Some(id)).0.Unchanged? <==> patch.areas == map[]
  {
    LeftAloneIff(job, rows, nextId, target, patch, id);
    if patch.areas != map[] {
      var field :| field in patch.areas;
      assert field in StoredAreas(patch.areas);
    }
  }

  const SomeTarget := Target("249044-001-000001-001-R", "W", "000001", "001")

  function SomeSurvey(columns: map<string, Cell>, areas: map<string, int>): Survey {
    Survey(SomeTarget.surveyId, "W", Some("000001"), Some("001"), false, Active, columns, areas)
  }

  function SomeJob(audited: set<string>): Job {
    Job(map[1 := "W"], "249044", Update, audited)
  }

  /** A sheet that corrects only the electricity id, which the audit does not compare: the old one stays. */
  lemma UnauditedCorrectionIsLost()
    ensures
      var stored := SomeSurvey(map["ownerName" := TextCell("A"), "electricityId" := TextCell("E1")], map[]);
      var patch := Patch(map["ownerName" := TextCell("A"), "electricityId" := TextCell("E2")], {}, map[]);
      ImportTarget(SomeJob({"ownerName"}), map[0 := stored], 1, SomeTarget, patch, Some(0))
      == (Unchanged(0, "W"), map[0 := stored])
  {
    var stored := SomeSurvey(map["ownerName" := TextCell("A"), "electricityId" := TextCell("E1")], map[]);
    var patch := Patch(map["ownerName" := TextCell("A"), "electricityId" := TextCell("E2")], {}, map[]);
    assert Column(stored.columns, "ownerName") == Column(patch.values, "ownerName");
    LeftAloneIff(SomeJob({"ownerName"}), map[0 := stored], 1, SomeTarget, patch, 0);
  }

  /** Importing a plot of 1000 square feet that is already stored rewrites the record with what it held. */
  lemma EqualAreaIsRewritten()
    ensures
      var stored := SomeSurvey(map[], map["plotAreaSqFt" := 10000000]);
      var patch := Patch(map[], {}, map["plotAreaSqFt" := 1000.0]);
      ImportTarget(SomeJob({}), map[0 := stored], 1, SomeTarget, patch, Some(0))
      == (Rewritten(0, "W"), map[0 := stored])
  {
    var stored := SomeSurvey(map[], map["plotAreaSqFt" := 10000000]);
    var patch := Patch(map[], {}, map["plotAreaSqFt" := 1000.0]);
    assert "plotAreaSqFt" in patch.areas;
    LeftAloneIff(SomeJob({}), map[0 := stored], 1, SomeTarget, patch, 0);
    assert Units(1000.0) == 10000000;
    assert stored.areas + StoredAreas(patch.areas) == stored.areas;
    assert Patched(stored.columns, patch) == stored.columns;
    assert Overwrite(stored, SomeTarget, patch) == stored;
    var rows: Rows := map[0 := stored];
    assert rows[0 := stored] == rows;
  }

  // ---- Runs ----

  ghost predicate Inv(job: Job, p: Progress) {
    && Stored(p.rows, p.nextId)
    && p.tally.processed == p.tally.success + p.tally.failed
    && p.tally.skipped + p.tally.inserted + p.tally.updated <= p.tally.success
    && (job.strategy.Update? ==> p.tally.skipped == 0 && TouchedAreLive(p))
  }

  ghost predicate TouchedAreLive(p: Progress) {
    forall id :: id in p.tally.touched
      ==> id in p.rows && !p.rows[id].deleted && p.rows[id].status == Active && p.rows[id].wardId in p.tally.wards
  }

  lemma CountKeeps(job: Job, p: Progress, target: Target, outcome: RowOutcome, q: Progress)
    requires Inv(job, p) && Stored(q.rows, q.nextId) && !outcome.Failed? && q.tally == Count(p.tally, outcome)
    requires job.strategy.Update? ==>
      && !outcome.Skipped? && outcome.wardId == target.wardId
      && outcome.id in q.rows && Carries(q.rows[outcome.id], target)
      && forall id :: id in p.rows && id != outcome.id ==> id in q.rows && q.rows[id] == p.rows[id]
    ensures Inv(job, q) && p.tally.touched <= q.tally.touched
  {
  }

  lemma NextKeeps(job: Job, p: Progress, item: Item, q: Progress)
    requires Inv(job, p) && Next(job, p, item, q)
    ensures Inv(job, q) && p.tally.touched <= q.tally.touched
  {
    var found :| Fits(p.rows, item, found) && q == Handle(job, p, item, found);
    if Imports(item) {
      var target := item.target.value;
      ImportKeepsStored(job, p.rows, p.nextId, target, item.patch, item.rawSurveyId, found);
      if job.strategy.Update? {
        UpdateLeavesRecord(job, p.rows, p.nextId, target, item.patch, item.rawSurveyId, found);
      }
      CountKeeps(job, p, target, ImportTarget(job, p.rows, p.nextId, target, item.patch, found).0, q);
    }
  }

  /** Along every run ids stay unique, counters add up, and under UPDATE every touched record stays live. */
  lemma {:induction false} RunKeeps(job: Job, items: seq<Item>, states: seq<Progress>, n: nat)
    requires IsRun(job, items, states) && Stored(states[0].rows, states[0].nextId) && n <= |items|
    ensures Inv(job, states[n])
    decreases n
  {
    if n > 0 {
      RunKeeps(job, items, states, n - 1);
      NextKeeps(job, states[n - 1], items[n - 1], states[n]);
    }
  }

  /** A row that fails changes no record and touches none; it fails exactly when it has no identity. */
  lemma FailedRowChangesNothing(job: Job, p: Progress, item: Item, q: Progress)
    requires Next(job, p, item, q)
    ensures q.tally.failed > p.tally.failed <==> item.rawSurveyId != "" && item.target.None?
    ensures q.tally.failed > p.tally.failed ==> q.rows == p.rows && q.tally.touched == p.tally.touched
  {
    var found :| Fits(p.rows, item, found) && q == Handle(job, p, item, found);
  }

  /** Under UPDATE a row with an identity succeeds; the record found for it, or a new one, then carries its identity. */
  lemma ImportStep(job: Job, p: Progress, item: Item, q: Progress) returns (found: Option<nat>, id: nat)
    requires job.strategy.Update? && Inv(job, p) && Next(job, p, item, q) && Imports(item)
    ensures IsDuplicate(p.rows, item.target.value, item.rawSurveyId, found) && id == found.GetOr(p.nextId)
    ensures q.tally.success == p.tally.success + 1 && q.tally.touched == p.tally.touched + {id}
    ensures id in q.rows && Carries(q.rows[id], item.target.value) && HasAuditedValues(job, q.rows[id], item.patch)
    ensures q.rows.Keys == p.rows.Keys + {id} && forall k :: k in p.rows && k != id ==> q.rows[k] == p.rows[k]
    ensures found.None? ==> id !in p.rows
  {
    found :| Fits(p.rows, item, found) && q == Handle(job, p, item, found);
    id := found.GetOr(p.nextId);
    UpdateLeavesRecord(job, p.rows, p.nextId, item.target.value, item.patch, item.rawSurveyId, found);
  }

  /** Under UPDATE a row with an identity succeeds and has its live record among the touched ones. */
  lemma ImportedRowHasItsRecord(job: Job, p: Progress, item: Item, q: Progress)
    requires job.strategy.Update? && Inv(job, p) && Next(job, p, item, q) && Imports(item)
    ensures q.tally.success == p.tally.success + 1 && HasRecord(q, item.target.value)
  {
    var found, id := ImportStep(job, p, item, q);
    assert id in q.tally.touched;
  }

  lemma OtherStep(job: Job, p: Progress, item: Item, q: Progress)
    requires Next(job, p, item, q) && !Imports(item)
    ensures q.rows == p.rows && q.tally.touched == p.tally.touched && q.tally.success == p.tally.success
  {
  }

  ghost predicate HasRecord(p: Progress, target: Target) {
    exists id :: id in p.tally.touched && id in p.rows && Carries(p.rows[id], target)
  }

  // ---- One record per row ----

  /** A later row can be taken for an earlier one. */
  predicate Confusable(earlier: Target, later: Target, laterRawId: string) {
    || earlier.surveyId == later.surveyId
    || earlier.surveyId == laterRawId
    || (earlier.wardId == later.wardId && earlier.parcelNo == later.parcelNo && earlier.propertyNo == later.propertyNo)
  }

  predicate NoneConfusable(items: seq<Item>) {
    forall i, j {:trigger Confusable(items[i].target.value, items[j].target.value, items[j].rawSurveyId)} ::
      0 <= i < j < |items| && Imports(items[i]) && Imports(items[j])
      ==> !Confusable(items[i].target.value, items[j].target.value, items[j].rawSurveyId)
  }

  function ImportedBefore(items: seq<Item>, n: nat): nat
    requires n <= |items|
  {
    if n == 0 then 0 else ImportedBefore(items, n - 1) + (if Imports(items[n - 1]) then 1 else 0)
  }

  predicate OwnedBy(item: Item, p: Progress, id: nat) {
    Imports(item) && id in p.rows && Carries(p.rows[id], item.target.value)
  }

  ghost predicate Owned(items: seq<Item>, n: nat, p: Progress, id: nat)
    requires n <= |items|
  {
    exists i :: 0 <= i < n && OwnedBy(items[i], p, id)
  }

  ghost predicate RowsHaveRecords(items: seq<Item>, n: nat, p: Progress)
    requires n <= |items|
  {
    forall i :: 0 <= i < n && Imports(items[i]) ==> HasRecord(p, items[i].target.value)
  }

  ghost predicate TouchedAreOwned(items: seq<Item>, n: nat, p: Progress)
    requires n <= |items|
  {
    forall id {:trigger Owned(items, n, p, id)} :: id in p.tally.touched ==> Owned(items, n, p, id)
  }

  /** The touched records are those of the rows so far, one each. */
  ghost predicate OneEach(items: seq<Item>, n: nat, p: Progress)
    requires n <= |items|
  {
    && RowsHaveRecords(items, n, p)
    && TouchedAreOwned(items, n, p)
    && |p.tally.touched| == p.tally.success == ImportedBefore(items, n)
  }

  /** The record found for a row belongs to no earlier row. */
  lemma FoundIsUntouched(items: seq<Item>, n: nat, p: Progress, found: Option<nat>)
    requires n < |items| && NoneConfusable(items) && Imports(items[n])
    requires TouchedAreOwned(items, n, p)
    requires IsDuplicate(p.rows, items[n].target.value, items[n].rawSurveyId, found) && found.Some?
    ensures found.value !in p.tally.touched
  {
    forall id | id in p.tally.touched ensures id != found.value {
      assert Owned(items, n, p, id);
      var i :| 0 <= i < n && OwnedBy(items[i], p, id);
      var earlier, later := items[i].target.value, items[n].target.value;
      assert !Confusable(earlier, later, items[n].rawSurveyId);
    }
  }

  /** The step keeps the touched records as they are. */
  ghost predicate TouchedStay(p: Progress, q: Progress) {
    && p.tally.touched <= q.tally.touched
    && forall id :: id in p.tally.touched && id in p.rows ==> id in q.rows && q.rows[id] == p.rows[id]
  }

  lemma RecordsStay(items: seq<Item>, n: nat, p: Progress, q: Progress)
    requires n < |items| && RowsHaveRecords(items, n, p) && TouchedStay(p, q)
    ensures RowsHaveRecords(items, n, q)
  {
    forall i | 0 <= i < n && Imports(items[i]) ensures HasRecord(q, items[i].target.value) {
      assert HasRecord(p, items[i].target.value);
    }
  }

  lemma OwnerStays(items: seq<Item>, n: nat, p: Progress, q: Progress, id: nat)
    requires n < |items| && TouchedStay(p, q) && id in p.tally.touched && Owned(items, n, p, id)
    ensures Owned(items, n + 1, q, id)
  {
    var i :| 0 <= i < n && OwnedBy(items[i], p, id);
    assert OwnedBy(items[i], q, id);
  }

  lemma NoNewOwner(items: seq<Item>, n: nat, p: Progress, q: Progress)
    requires n < |items| && OneEach(items, n, p) && !Imports(items[n])
    requires q.rows == p.rows && q.tally.touched == p.tally.touched && q.tally.success == p.tally.success
    ensures OneEach(items, n + 1, q)
  {
    RecordsStay(items, n, p, q);
    forall id | id in q.tally.touched ensures Owned(items, n + 1, q, id) {
      assert Owned(items, n, p, id);
      OwnerStays(items, n, p, q, id);
    }
  }

  lemma RecordAdded(items: seq<Item>, n: nat, q: Progress)
    requires n < |items| && RowsHaveRecords(items, n, q)
    requires Imports(items[n]) ==> HasRecord(q, items[n].target.value)
    ensures RowsHaveRecords(items, n + 1, q)
  {
  }

  lemma OwnerAdded(items: seq<Item>, n: nat, p: Progress, q: Progress, id: nat)
    requires n < |items| && TouchedAreOwned(items, n, p) && TouchedStay(p, q)
    requires q.tally.touched == p.tally.touched + {id} && OwnedBy(items[n], q, id)
    ensures TouchedAreOwned(items, n + 1, q)
  {
    forall k | k in q.tally.touched ensures Owned(items, n + 1, q, k) {
      if k in p.tally.touched {
        assert Owned(items, n, p, k);
        OwnerStays(items, n, p, q, k);
      }
    }
  }

  lemma AddOwner(items: seq<Item>, n: nat, p: Progress, q: Progress, id: nat)
    requires n < |items| && OneEach(items, n, p) && Imports(items[n]) && id !in p.tally.touched
    requires q.tally.success == p.tally.success + 1 && q.tally.touched == p.tally.touched + {id}
    requires id in q.rows && Carries(q.rows[id], items[n].target.value)
    requires TouchedStay(p, q)
    ensures OneEach(items, n + 1, q)
  {
    RecordsStay(items, n, p, q);
    RecordAdded(items, n, q);
    OwnerAdded(items, n, p, q, id);
  }

  // ---- When a row takes over an earlier row's record ----

  /**
   * The record found for a row belongs to an earlier row: the holder of the canonical id, else the holder of the
   * sheet's id, else the live record of the same place.
   */
  ghost predicate FindsTouched(p: Progress, item: Item, found: Option<nat>)
    requires Imports(item)
  {
    var canonical, raw := Holder(p.rows, item.target.value.surveyId), Holder(p.rows, item.rawSurveyId);
    if canonical.Some? then canonical.value in p.tally.touched
    else if item.rawSurveyId != item.target.value.surveyId && raw.Some? then raw.value in p.tally.touched
    else found.Some? && found.value in p.tally.touched
  }

  ghost predicate TakesOver(job: Job, p: Progress, item: Item, q: Progress) {
    && Imports(item)
    && exists found :: Fits(p.rows, item, found) && q == Handle(job, p, item, found) && FindsTouched(p, item, found)
  }

  /** Under UPDATE a row adds a record of its own exactly when it finds none that an earlier row had touched. */
  lemma TakesOverIff(job: Job, p: Progress, item: Item, q: Progress)
    requires job.strategy.Update? && Inv(job, p) && Next(job, p, item, q) && Imports(item)
    ensures TakesOver(job, p, item, q) <==> q.tally.touched == p.tally.touched
    ensures !TakesOver(job, p, item, q) <==> |q.tally.touched| == |p.tally.touched| + 1
  {
    forall found | Fits(p.rows, item, found) && q == Handle(job, p, item, found)
      ensures FindsTouched(p, item, found) <==> q.tally.touched == p.tally.touched
    {
      FindsTouchedIff(job, p, item, q, found);
    }
    var found :| Fits(p.rows, item, found) && q == Handle(job, p, item, found);
    if TakesOver(job, p, item, q) {
      var other :| Fits(p.rows, item, other) && q == Handle(job, p, item, other) && FindsTouched(p, item, other);
    }
    var _, id := ImportStep(job, p, item, q);
    assert q.tally.touched == p.tally.touched + {id};
  }

  lemma FindsTouchedIff(job: Job, p: Progress, item: Item, q: Progress, found: Option<nat>)
    requires job.strategy.Update? && Inv(job, p) && Imports(item)
    requires Fits(p.rows, item, found) && q == Handle(job, p, item, found)
    ensures FindsTouched(p, item, found) <==> q.tally.touched == p.tally.touched
  {
    UpdateLeavesRecord(job, p.rows, p.nextId, item.target.value, item.patch, item.rawSurveyId, found);
    FoundDecides(p, item, found);
    assert q.tally.touched == p.tally.touched + {found.GetOr(p.nextId)};
    assert p.nextId !in p.tally.touched;
  }

  lemma FoundDecides(p: Progress, item: Item, found: Option<nat>)
    requires Imports(item) && Fits(p.rows, item, found)
    ensures FindsTouched(p, item, found) <==> found.Some? && found.value in p.tally.touched
  {
  }

  lemma NextKeepsOneEach(job: Job, items: seq<Item>, n: nat, p: Progress, q: Progress)
    requires n < |items| && job.strategy.Update? && !TakesOver(job, p, items[n], q)
    requires Inv(job, p) && OneEach(items, n, p) && Next(job, p, items[n], q)
    ensures OneEach(items, n + 1, q)
  {
    if Imports(items[n]) {
      TakesOverIff(job, p, items[n], q);
      var _, id := ImportStep(job, p, items[n], q);
      AddOwner(items, n, p, q, id);
    } else {
      OtherStep(job, p, items[n], q);
      NoNewOwner(items, n, p, q);
    }
  }

  ghost predicate NoneTakenOver(job: Job, items: seq<Item>, states: seq<Progress>, n: nat)
    requires n <= |items| < |states|
  {
    forall i {:trigger items[i]} :: 0 <= i < n ==> !TakesOver(job, states[i], items[i], states[i + 1])
  }

  lemma RunStep(job: Job, items: seq<Item>, states: seq<Progress>, i: nat)
    requires IsRun(job, items, states) && i < |items|
    ensures Next(job, states[i], items[i], states[i + 1])
  {
  }

  lemma NothingTouched(items: seq<Item>, p: Progress)
    requires p.tally == Zero
    ensures OneEach(items, 0, p)
  {
  }

  lemma KeptApartStep(job: Job, items: seq<Item>, states: seq<Progress>, n: nat)
    requires job.strategy.Update? && n < |items|
    requires IsRun(job, items, states) && Stored(states[0].rows, states[0].nextId)
    requires OneEach(items, n, states[n]) && !TakesOver(job, states[n], items[n], states[n + 1])
    ensures OneEach(items, n + 1, states[n + 1])
  {
    RunKeeps(job, items, states, n);
    RunStep(job, items, states, n);
    NextKeepsOneEach(job, items, n, states[n], states[n + 1]);
  }

  lemma {:induction false} KeptApart(job: Job, items: seq<Item>, states: seq<Progress>, n: nat)
    requires job.strategy.Update? && n <= |items|
    requires IsRun(job, items, states) && Stored(states[0].rows, states[0].nextId)
    requires NoneTakenOver(job, items, states, n)
    ensures OneEach(items, n, states[n])
    decreases n
  {
    if n == 0 {
      NothingTouched(items, states[0]);
    } else {
      NoneTakenOverStep(job, items, states, n - 1);
      KeptApart(job, items, states, n - 1);
      KeptApartStep(job, items, states, n - 1);
    }
  }

  /** No row touches more than one record, and the count stays behind for ever once a row takes one over. */
  lemma {:induction false} TouchedCount(job: Job, items: seq<Item>, states: seq<Progress>, n: nat)
    requires job.strategy.Update? && n <= |items|
    requires IsRun(job, items, states) && Stored(states[0].rows, states[0].nextId)
    ensures |states[n].tally.touched| <= states[n].tally.success
    ensures |states[n].tally.touched| == states[n].tally.success <==> NoneTakenOver(job, items, states, n)
    decreases n
  {
    if n > 0 {
      TouchedCount(job, items, states, n - 1);
      RunKeeps(job, items, states, n - 1);
      RunStep(job, items, states, n - 1);
      TouchedStep(job, states[n - 1], items[n - 1], states[n]);
      NoneTakenOverStep(job, items, states, n - 1);
    }
  }

  lemma NoneTakenOverStep(job: Job, items: seq<Item>, states: seq<Progress>, n: nat)
    requires n < |items| < |states|
    ensures NoneTakenOver(job, items, states, n + 1)
       <==> NoneTakenOver(job, items, states, n) && !TakesOver(job, states[n], items[n], states[n + 1])
  {
    if NoneTakenOver(job, items, states, n + 1) {
      assert !TakesOver(job, states[n], items[n], states[n + 1]);
    }
  }

  lemma TouchedStep(job: Job, p: Progress, item: Item, q: Progress)
    requires job.strategy.Update? && Inv(job, p) && Next(job, p, item, q)
    ensures |q.tally.touched| - |p.tally.touched| == q.tally.success - p.tally.success
                                                     - (if TakesOver(job, p, item, q) then 1 else 0)
  {
    if Imports(item) {
      TakesOverIff(job, p, item, q);
      var _, id := ImportStep(job, p, item, q);
    } else {
      OtherStep(job, p, item, q);
    }
  }

  /**
   * Every row of an UPDATE sheet ends with its own live record exactly when no row took over an earlier row's record.
   */
  lemma OneRecordPerRowIff(job: Job, items: seq<Item>, states: seq<Progress>, n: nat)
    requires job.strategy.Update? && n <= |items|
    requires IsRun(job, items, states) && Stored(states[0].rows, states[0].nextId)
    ensures OneEach(items, n, states[n]) <==> NoneTakenOver(job, items, states, n)
  {
    TouchedCount(job, items, states, n);
    if NoneTakenOver(job, items, states, n) {
      KeptApart(job, items, states, n);
    }
  }

  lemma NotConfusableNotTakenOver(job: Job, items: seq<Item>, n: nat, p: Progress, q: Progress)
    requires n < |items| && NoneConfusable(items) && TouchedAreOwned(items, n, p)
    ensures !TakesOver(job, p, items[n], q)
  {
    forall found | Imports(items[n]) && Fits(p.rows, items[n], found) ensures !FindsTouched(p, items[n], found) {
      FoundDecides(p, items[n], found);
      if found.Some? {
        FoundIsUntouched(items, n, p, found);
      }
    }
  }

  lemma DistinctStep(job: Job, items: seq<Item>, states: seq<Progress>, n: nat)
    requires job.strategy.Update? && NoneConfusable(items) && n < |items|
    requires IsRun(job, items, states) && Stored(states[0].rows, states[0].nextId)
    requires OneEach(items, n, states[n])
    ensures OneEach(items, n + 1, states[n + 1])
  {
    NotConfusableNotTakenOver(job, items, n, states[n], states[n + 1]);
    KeptApartStep(job, items, states, n);
  }

  /** In a sheet without confusable rows every row ends with its own live record, whatever the table held before. */
  lemma {:induction false} EveryRowHasItsRecord(job: Job, items: seq<Item>, states: seq<Progress>, n: nat)
    requires job.strategy.Update? && NoneConfusable(items) && n <= |items|
    requires IsRun(job, items, states) && Stored(states[0].rows, states[0].nextId)
    ensures OneEach(items, n, states[n])
    decreases n
  {
    if n == 0 {
      NothingTouched(items, states[0]);
    } else {
      EveryRowHasItsRecord(job, items, states, n - 1);
      DistinctStep(job, items, states, n - 1);
    }
  }

  /**
   * A row whose raw survey id is the canonical id of an earlier row, and whose own canonical id is new, takes over
   * that row's record although its parcel differs: the earlier identity is gone and no record is added.
   */
  lemma RepeatedRawIdCollapses(job: Job, p: Progress, item: Item, q: Progress, earlier: Target)
    requires job.strategy.Update? && Inv(job, p) && Next(job, p, item, q) && Imports(item)
    requires HasRecord(p, earlier)
    requires item.rawSurveyId == earlier.surveyId != item.target.value.surveyId
    requires Holder(p.rows, item.target.value.surveyId).None?
    ensures q.tally.success == p.tally.success + 1 && q.tally.touched == p.tally.touched
    ensures q.rows.Keys == p.rows.Keys && Holder(q.rows, earlier.surveyId).None?
  {
    var found, id := ImportStep(job, p, item, q);
    var k :| k in p.tally.touched && k in p.rows && Carries(p.rows[k], earlier);
    assert Holds(p.rows, k, earlier.surveyId);
    assert id == k;
    forall k ensures !Holds(q.rows, k, earlier.surveyId) {
      if k in p.rows && k != id {
        assert !Holds(p.rows, k, earlier.surveyId);
      }
    }
  }

  // ---- Reconciling ----

  predicate MayPrune(job: Job, p: Progress, pruneMissing: bool, id: nat)
    requires id in p.rows
  {
    && pruneMissing && job.strategy.Update? && p.tally.failed == 0
    && p.tally.wards == {p.rows[id].wardId}
    && id !in p.tally.touched && LiveInWard(p.rows, id, p.rows[id].wardId)
  }

  /** Pruning hides only untouched live records of the one ward the sheet named, and never more than the cap. */
  lemma PruneIsConfined(job: Job, p: Progress, pruneMissing: bool)
    requires Inv(job, p)
    ensures var (report, after) := Finish(job, p.rows, p.tally, pruneMissing);
            && after.Keys == p.rows.Keys && UniqueIds(after)
            && (forall id :: id in p.rows && after[id] != p.rows[id] ==> MayPrune(job, p, pruneMissing, id))
            && (forall id :: id in p.rows && after[id] != p.rows[id]
                  ==> after[id] == p.rows[id].(status := Deleted, deleted := true))
            && report.pruned == |set id | id in p.rows && after[id] != p.rows[id]|
            && (report.pruned <= 10 || 50 * (report.pruned - 1) < |p.tally.touched|)
  {
    var ward := WardToReconcile(job, p.tally, pruneMissing);
    var (report, after) := Finish(job, p.rows, p.tally, pruneMissing);
    var changed := set id | id in p.rows && after[id] != p.rows[id];
    if ward.Some? {
      var orphans := Orphans(p.rows, ward.value, p.tally.touched);
      if ShouldPrune(|orphans|, |p.tally.touched|) {
        assert changed == orphans;
      } else {
        assert changed == {};
      }
    } else {
      assert changed == {};
    }
  }

  lemma LiveAfterReconcile(rows: Rows, ward: string, keep: set<nat>)
    requires forall id :: id in keep ==> LiveInWard(rows, id, ward)
    ensures var after := Reconciled(rows, ward, keep).0;
            var orphans := Orphans(rows, ward, keep);
            (set id | id in after && LiveInWard(after, id, ward))
            == if ShouldPrune(|orphans|, |keep|) then keep else keep + orphans
  {
  }

  /**
   * The live records of the ward are afterwards exactly the touched ones, if and only if the orphans are within the
   * cap.
   */
  lemma ReconciledWardMatchesFile(job: Job, p: Progress, ward: string)
    requires Inv(job, p) && job.strategy.Update? && p.tally.failed == 0 && p.tally.touched != {}
    requires p.tally.wards == {ward}
    ensures var after := Finish(job, p.rows, p.tally, true).1;
            var orphans := set id | id in p.rows && LiveInWard(p.rows, id, ward) && id !in p.tally.touched;
            (set id | id in after && LiveInWard(after, id, ward)) == p.tally.touched
            <==> |orphans| <= 10 || 50 * (|orphans| - 1) < |p.tally.touched|
  {
    assert WardToReconcile(job, p.tally, true) == Some(ward);
    LiveAfterReconcile(p.rows, ward, p.tally.touched);
    KeepPlusOrphans(p.tally.touched, Orphans(p.rows, ward, p.tally.touched));
  }

  lemma KeepPlusOrphans(keep: set<nat>, orphans: set<nat>)
    requires keep !! orphans
    ensures keep + orphans == keep <==> |orphans| == 0
  {
    if |orphans| > 0 {
      var id :| id in orphans;
      assert id in keep + orphans;
    }
  }
}
