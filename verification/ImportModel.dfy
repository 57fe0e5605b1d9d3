/**
 * One import job over the survey rows: `processJob`, `findImportDuplicate` and `reconcileWardOrphans` of
 * `apps/api/src/imports/imports.service.ts`, with `apps/api/src/imports/import-reconcile.ts`.
 */
module ImportModel {
  import opened Common
  import opened SurveyAudit
  import opened SurveyIds
  import opened SurveyRecords

  datatype Strategy = Skip | Update | Create

  /**
   * The mapped cells besides the identity: those with a value, those that become null, and the areas the sheet gives
   * as numbers. All others are undefined; an area is never null in a patch.
   */
  datatype Patch = Patch(values: map<string, Cell>, nulls: set<string>, areas: map<string, real>)

  /** `wardInName` is the number the ward cell names, if any. */
  datatype SheetRow = SheetRow(
    rawSurveyId: string, wardInName: Option<nat>, parcelCell: string, propertyCell: string, patch: Patch)

  /** The wards by number, the ULB code, the duplicate strategy, and the audited columns other than the areas. */
  datatype Job = Job(wards: map<nat, string>, ulbCode: string, strategy: Strategy, audited: set<string>)

  datatype Target = Target(surveyId: string, wardId: string, parcelNo: string, propertyNo: string)

  // ---- Which record a sheet row is about ----

  /** `extractWardNumber`: the name decides when it holds a number, else the survey id. */
  function WardNumber(row: SheetRow): Option<nat> {
    if row.wardInName.Some? then row.wardInName else WardFromSurveyId(row.rawSurveyId)
  }

  /** The identity a row imports under, or `None` where the row fails. */
  function Identify(job: Job, row: SheetRow): Option<Target> {
    var number := WardNumber(row);
    if number.None? || number.value == 0 || number.value !in job.wards then None
    else
      var parcel := ParcelFromExcel(row.parcelCell, row.rawSurveyId);
      var property := PropertyFromExcel(row.propertyCell, row.rawSurveyId);
      if parcel.GetOr("") == "" || property.GetOr("") == "" then None
      else
        var surveyId := ResolveImport(row.rawSurveyId, number.value, parcel.value, property.value, job.ulbCode);
        if surveyId.None? then None
        else Some(Target(surveyId.value, job.wards[number.value], parcel.value, property.value))
  }

  /** A live record with the same ward, parcel and property number. */
  predicate SamePlace(rows: Rows, id: nat, target: Target) {
    && id in rows && !rows[id].deleted
    && rows[id].wardId == target.wardId
    && rows[id].parcelNo == Some(target.parcelNo)
    && rows[id].propertyNo == Some(target.propertyNo)
  }

  /** An answer of `findImportDuplicate`: by canonical id, by the id in the sheet, by place. */
  ghost predicate IsDuplicate(rows: Rows, target: Target, rawId: string, found: Option<nat>) {
    var canonical := Holder(rows, target.surveyId);
    var raw := Holder(rows, rawId);
    if canonical.Some? then found == canonical
    else if rawId != target.surveyId && raw.Some? then found == raw
    else if found.Some? then SamePlace(rows, found.value, target)
    else forall id :: !SamePlace(rows, id, target)
  }

  // ---- Writing a row ----

  /** `undefined` leaves a column alone, null empties it. */
  function Patched(columns: map<string, Cell>, patch: Patch): map<string, Cell> {
    (columns - patch.nulls) + patch.values
  }

  /** A decimal column keeps four decimals; halves are rounded away from zero. */
  function Units(area: real): int {
    if area < 0.0 then -((-area * 10000.0 + 0.5).Floor) else (area * 10000.0 + 0.5).Floor
  }

  function StoredAreas(areas: map<string, real>): map<string, int> {
    map field | field in areas :: Units(areas[field])
  }

  function Overwrite(survey: Survey, target: Target, patch: Patch): Survey {
    Survey(target.surveyId, target.wardId, Some(target.parcelNo), Some(target.propertyNo), false, Active,
           Patched(survey.columns, patch), survey.areas + StoredAreas(patch.areas))
  }

  function Fresh(target: Target, patch: Patch): Survey {
    Survey(target.surveyId, target.wardId, Some(target.parcelNo), Some(target.propertyNo), false, Active, patch.values,
           StoredAreas(patch.areas))
  }

  // ---- The audit diff ----

  function CellValue(columns: map<string, Cell>, field: string): Value {
    if field !in columns then Null
    else
      match columns[field]
      case TextCell(text) => Str(text)
      case FlagCell(flag) => Bool(flag)
      case CountCell(count) => Num(count as real)
  }

  /** The area the database gives back. */
  function StoredArea(areas: map<string, int>, field: string): Value {
    if field in areas then Dec(areas[field]) else Null
  }

  /** The area the sheet proposes; an undefined cell proposes null. */
  function ProposedArea(areas: map<string, real>, field: string): Value {
    if field in areas then Num(areas[field]) else Null
  }

  predicate SameCell(survey: Survey, patch: Patch, field: string) {
    ValuesEqual(CellValue(survey.columns, field), CellValue(patch.values, field))
  }

  predicate SameArea(survey: Survey, patch: Patch, field: string) {
    ValuesEqual(StoredArea(survey.areas, field), ProposedArea(patch.areas, field))
  }

  /** The audit diff between the stored record and the proposal is empty; the six areas are all audited. */
  predicate NoAuditedChange(job: Job, survey: Survey, target: Target, patch: Patch) {
    && survey.surveyId == target.surveyId
    && survey.wardId == target.wardId
    && survey.parcelNo == Some(target.parcelNo)
    && survey.propertyNo == Some(target.propertyNo)
    && survey.status == Active
    && (forall field :: field in job.audited ==> SameCell(survey, patch, field))
    && (forall field :: field in survey.areas ==> SameArea(survey, patch, field))
    && (forall field :: field in patch.areas ==> SameArea(survey, patch, field))
  }

  datatype RowOutcome =
    | Failed
    | Skipped(id: nat, wardId: string)
    | Unchanged(id: nat, wardId: string)
    | Inserted(id: nat, wardId: string)
    | Rewritten(id: nat, wardId: string)

  /** The creating branch; a taken survey id makes it rewrite the record that has it. */
  ghost function CreateOrRevive(rows: Rows, nextId: nat, target: Target, patch: Patch): (RowOutcome, Rows) {
    var conflict := Holder(rows, target.surveyId);
    if conflict.None? then (Inserted(nextId, target.wardId), rows[nextId := Fresh(target, patch)])
    else
      (Rewritten(conflict.value, target.wardId), rows[conflict.value := Overwrite(rows[conflict.value], target, patch)])
  }

  /** What one identified row does, given the record found for it. */
  ghost function ImportTarget(
      job: Job, rows: Rows, nextId: nat, target: Target, patch: Patch, found: Option<nat>): (RowOutcome, Rows)
    requires found.Some? ==> found.value in rows
  {
    if found.None? then CreateOrRevive(rows, nextId, target, patch)
    else
      var existing := rows[found.value];
      if job.strategy.Skip? && !existing.deleted then (Skipped(found.value, target.wardId), rows)
      else if job.strategy.Update? || existing.deleted then
        if NoAuditedChange(job, existing, target, patch) && !existing.deleted then
          (Unchanged(found.value, target.wardId), rows)
        else (Rewritten(found.value, target.wardId), rows[found.value := Overwrite(existing, target, patch)])
      else CreateOrRevive(rows, nextId, target, patch)
  }

  // ---- The loop's counters ----

  datatype Tally = Tally(
    processed: nat, success: nat, failed: nat, skipped: nat, inserted: nat, updated: nat, touched: set<nat>,
    wards: set<string>)

  const Zero := Tally(0, 0, 0, 0, 0, 0, {}, {})

  function Count(t: Tally, o: RowOutcome): Tally {
    match o
    case Failed => t.(processed := t.processed + 1, failed := t.failed + 1)
    case Skipped(id, ward) => Succeed(t, id, ward).(skipped := t.skipped + 1)
    case Unchanged(id, ward) => Succeed(t, id, ward)
    case Inserted(id, ward) => Succeed(t, id, ward).(inserted := t.inserted + 1)
    case Rewritten(id, ward) => Succeed(t, id, ward).(updated := t.updated + 1)
  }

  function Succeed(t: Tally, id: nat, ward: string): Tally {
    t.(processed := t.processed + 1, success := t.success + 1, touched := t.touched + {id}, wards := t.wards + {ward})
  }

  datatype Progress = Progress(rows: Rows, nextId: nat, tally: Tally)

  /** What the loop takes from a sheet row; without a target the row fails. */
  datatype Item = Item(rawSurveyId: string, target: Option<Target>, patch: Patch)

  function ReadRow(job: Job, row: SheetRow): Item {
    Item(row.rawSurveyId, Identify(job, row), row.patch)
  }

  function ReadSheet(job: Job, sheet: seq<SheetRow>): seq<Item> {
    seq(|sheet|, i requires 0 <= i < |sheet| => ReadRow(job, sheet[i]))
  }

  /** A blank survey id ends the row before it is counted. */
  predicate Imports(item: Item) {
    item.rawSurveyId != "" && item.target.Some?
  }

  ghost predicate Fits(rows: Rows, item: Item, found: Option<nat>) {
    if Imports(item) then IsDuplicate(rows, item.target.value, item.rawSurveyId, found) else found == None
  }

  ghost function Handle(job: Job, p: Progress, item: Item, found: Option<nat>): Progress
    requires Fits(p.rows, item, found)
  {
    if item.rawSurveyId == "" then p
    else if item.target.None? then p.(tally := Count(p.tally, Failed))
    else
      var (outcome, rows) := ImportTarget(job, p.rows, p.nextId, item.target.value, item.patch, found);
      Progress(rows, if outcome.Inserted? then p.nextId + 1 else p.nextId, Count(p.tally, outcome))
  }

  ghost predicate Next(job: Job, p: Progress, item: Item, q: Progress) {
    exists found: Option<nat> :: Fits(p.rows, item, found) && q == Handle(job, p, item, found)
  }

  /** The states before the first row, between rows and after the last one. */
  ghost predicate IsRun(job: Job, items: seq<Item>, states: seq<Progress>) {
    && |states| == |items| + 1
    && states[0].tally == Zero
    && forall i {:trigger items[i]} :: 0 <= i < |items| ==> Next(job, states[i], items[i], states[i + 1])
  }

  // ---- Reconciling the ward ----

  function WardToReconcile(job: Job, t: Tally, pruneMissing: bool): Option<string> {
    if pruneMissing && job.strategy.Update? && t.failed == 0 && t.touched != {} && |t.wards| == 1 then
      Some(OnlyMember(t.wards))
    else None
  }

  function OnlyMember(s: set<string>): (x: string)
    requires |s| == 1
    ensures s == {x}
  {
    Singleton(s);
    var x :| x in s;
    x
  }

  lemma Singleton(s: set<string>)
    requires |s| == 1
    ensures exists x :: x in s
    ensures forall x, y :: x in s && y in s ==> x == y
    ensures forall x :: x in s ==> s == {x}
  {
    var x :| x in s;
    assert |s - {x}| == 0;
    assert s == {x};
  }

  /** `ceil(kept * 0.02)`, and ten at least. */
  function MaxOrphans(kept: nat): nat {
    Max(10, (kept + 49) / 50)
  }

  predicate ShouldPrune(orphans: nat, kept: nat) {
    0 < orphans <= MaxOrphans(kept)
  }

  predicate LiveInWard(rows: Rows, id: nat, wardId: string) {
    id in rows && rows[id].wardId == wardId && !rows[id].deleted && rows[id].status != Deleted
  }

  function Orphans(rows: Rows, wardId: string, keep: set<nat>): set<nat> {
    set id | id in rows && LiveInWard(rows, id, wardId) && id !in keep
  }

  function SoftDelete(rows: Rows, ids: set<nat>): Rows {
    map id | id in rows :: if id in ids then rows[id].(status := Deleted, deleted := true) else rows[id]
  }

  function Reconciled(rows: Rows, wardId: string, keep: set<nat>): (Rows, nat) {
    var orphans := Orphans(rows, wardId, keep);
    if ShouldPrune(|orphans|, |keep|) then (SoftDelete(rows, orphans), |orphans|) else (rows, 0)
  }

  datatype JobStatus = Completed | Partial | AllFailed

  datatype Report = Report(status: JobStatus, tally: Tally, pruned: nat)

  /** What the job reports and the rows it leaves, once the loop has ended. */
  function Finish(job: Job, rows: Rows, t: Tally, pruneMissing: bool): (Report, Rows) {
    var ward := WardToReconcile(job, t, pruneMissing);
    var (after, pruned) := if ward.Some? then Reconciled(rows, ward.value, t.touched) else (rows, 0);
    var status := if t.failed == 0 then Completed else if t.success > 0 then Partial else AllFailed;
    (Report(status, t, pruned), after)
  }
}
