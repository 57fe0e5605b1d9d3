/** Which row of a sheet does what, what it writes, whom it is about, and what the job counts. */
module ImportOutcomes {
  import opened Common
  import opened Decimals
  import opened ImportLaws
  import opened ImportModel
  import opened Sums
  import opened SurveyIdLaws
  import opened SurveyIds
  import opened SurveyRecords
  import opened Text

  // ---- Which outcome ----

  /** A record that is not soft-deleted. */
  predicate Live(rows: Rows, found: Option<nat>) {
    found.Some? && found.value in rows && !rows[found.value].deleted
  }

  predicate IdIsTaken(rows: Rows, surveyId: string) {
    exists k :: k in rows && rows[k].surveyId == surveyId
  }

  /**
   * SKIP leaves a live record alone, UPDATE one without an audited change; a row about no record, and under CREATE one
   * about a live record, inserts a new one unless the survey id is taken; everything else rewrites a record.
   */
  lemma OutcomeIff(
    job: Job, rows: Rows, nextId: nat, target: Target, patch: Patch, rawId: string, found: Option<nat>)
    requires UniqueIds(rows) && IsDuplicate(rows, target, rawId, found)
    ensures
      var outcome := ImportTarget(job, rows, nextId, target, patch, found).0;
      && !outcome.Failed?
      && (outcome.Skipped? <==> job.strategy.Skip? && Live(rows, found))
      && (outcome.Unchanged? <==>
            job.strategy.Update? && Live(rows, found) && NoAuditedChange(job, rows[found.value], target, patch))
      && (outcome.Inserted? <==>
            (found.None? || (job.strategy.Create? && Live(rows, found))) && !IdIsTaken(rows, target.surveyId))
  {
    if IdIsTaken(rows, target.surveyId) {
      var k :| k in rows && rows[k].surveyId == target.surveyId;
      assert Holds(rows, k, target.surveyId);
    }
  }

  // ---- What is written ----

  /** The sheet's value where it has one, nothing where it is blank, and else what was there. */
  ghost predicate ColumnsFollow(row: Survey, before: map<string, Cell>, patch: Patch) {
    forall field ::
      Column(row.columns, field)
      == if field in patch.values then Some(patch.values[field])
         else if field in patch.nulls then None
         else Column(before, field)
  }

  ghost predicate AreasFollow(row: Survey, before: map<string, int>, patch: Patch) {
    && row.areas.Keys == before.Keys + patch.areas.Keys
    && forall field :: field in row.areas ==>
         row.areas[field] == if field in patch.areas then Units(patch.areas[field]) else before[field]
  }

  /** A stored area is the nearest ten-thousandth. */
  lemma UnitsAreNearest(area: real)
    ensures -0.5 <= Units(area) as real - area * 10000.0 <= 0.5
  {
  }

  lemma OverwriteFollows(survey: Survey, target: Target, patch: Patch)
    ensures var row := Overwrite(survey, target, patch);
            && Carries(row, target)
            && ColumnsFollow(row, survey.columns, patch) && AreasFollow(row, survey.areas, patch)
  {
  }

  lemma FreshFollows(target: Target, patch: Patch)
    ensures var row := Fresh(target, patch);
            && Carries(row, target) && row.columns == patch.values && AreasFollow(row, map[], patch)
  {
  }

  /** The record a row writes carries its identity, is live, and holds what the sheet says; no other record changes. */
  lemma RowWrites(
    job: Job, rows: Rows, nextId: nat, target: Target, patch: Patch, rawId: string, found: Option<nat>)
    requires UniqueIds(rows) && IsDuplicate(rows, target, rawId, found)
    ensures
      var (outcome, after) := ImportTarget(job, rows, nextId, target, patch, found);
      match outcome
      case Failed => false
      case Skipped(id, ward) => after == rows && Some(id) == found && ward == target.wardId
      case Unchanged(id, ward) => after == rows && Some(id) == found && ward == target.wardId
      case Inserted(id, ward) =>
        && id == nextId && ward == target.wardId && id in after && after == rows[id := after[id]]
        && Carries(after[id], target) && after[id].columns == patch.values && AreasFollow(after[id], map[], patch)
      case Rewritten(id, ward) =>
        && ward == target.wardId && id in rows && id in after && after == rows[id := after[id]]
        && (Some(id) == found || rows[id].surveyId == target.surveyId)
        && Carries(after[id], target) && ColumnsFollow(after[id], rows[id].columns, patch)
        && AreasFollow(after[id], rows[id].areas, patch)
  {
    FreshFollows(target, patch);
    if found.Some? {
      OverwriteFollows(rows[found.value], target, patch);
    }
    var conflict := Holder(rows, target.surveyId);
    if conflict.Some? {
      OverwriteFollows(rows[conflict.value], target, patch);
    }
  }

  // ---- Whom a row is about ----

  /** The number in the ward cell, else the one in the survey id. */
  function WardNamed(row: SheetRow): Option<nat> {
    if row.wardInName.Some? then row.wardInName
    else if Parse(row.rawSurveyId).Some? then Some(DecimalValue(Parse(row.rawSurveyId).value.wardNo))
    else None
  }

  predicate NamesWard(job: Job, row: SheetRow) {
    WardNamed(row).Some? && WardNamed(row).value > 0 && WardNamed(row).value in job.wards
  }

  lemma NamesWardIff(job: Job, row: SheetRow)
    ensures NamesWard(job, row)
       <==> WardNumber(row).Some? && WardNumber(row).value != 0 && WardNumber(row).value in job.wards
    ensures NamesWard(job, row) ==> WardNumber(row) == WardNamed(row)
  {
  }

  /** The cell padded to the width, a cell without digits as it is, and for a blank cell the part of the survey id. */
  predicate FromCell(cell: string, width: nat, fromId: Option<string>, value: string) {
    if Trim(cell) == "" then fromId == Some(value)
    else if OnlyDigits(Trim(cell)) == "" then value == Trim(cell)
    else value == PadStart(OnlyDigits(Trim(cell)), width)
  }

  /** Ward, parcel and property of an identified row come from its own cells first, and its id from them. */
  lemma IdentityFromCells(job: Job, row: SheetRow)
    requires Identify(job, row).Some?
    ensures
      var t, id := Identify(job, row).value, Parse(row.rawSurveyId);
      && NamesWard(job, row) && t.wardId == job.wards[WardNamed(row).value]
      && ResolveImport(row.rawSurveyId, WardNamed(row).value, t.parcelNo, t.propertyNo, job.ulbCode)
         == Some(t.surveyId)
      && FromCell(row.parcelCell, 6, if id.Some? then Some(id.value.parcelNo) else None, t.parcelNo)
      && FromCell(row.propertyCell, 3, if id.Some? then Some(id.value.propertyNo) else None, t.propertyNo)
  {
    NamesWardIff(job, row);
  }

  /** The letter of the raw id, R where that does not parse. */
  function LetterOf(rawId: string): string {
    if Parse(rawId).Some? then Parse(rawId).value.gisUseCode else "R"
  }

  lemma LetterOfIsNormal(rawId: string)
    ensures NormalizeGisUseCode(LetterOf(rawId)) == Some(LetterOf(rawId))
  {
    NormalUse(LetterOf(rawId));
  }

  /** The canonical id names the ULB, the ward's number, parcel and property, and the letter of the raw id or R. */
  lemma CanonicalId(rawId: string, ward: nat, parcelNo: string, propertyNo: string, ulbCode: string)
    requires ResolveImport(rawId, ward, parcelNo, propertyNo, ulbCode).Some? && Digits(Trim(ulbCode)) && ward < 1000
    ensures
      var parsed := Parse(ResolveImport(rawId, ward, parcelNo, propertyNo, ulbCode).value);
      && parsed.Some? && parsed.value.ulbCode == Trim(ulbCode)
      && AllDigits(parsed.value.wardNo) && DecimalValue(parsed.value.wardNo) == ward
      && parsed.value.parcelNo == PadStart(OnlyDigits(parcelNo), 6)
      && parsed.value.propertyNo == PadStart(OnlyDigits(propertyNo), 3)
      && parsed.value.gisUseCode == (if Parse(rawId).Some? then Parse(rawId).value.gisUseCode else "R")
  {
    LetterOfIsNormal(rawId);
    BuiltIdNames(rawId, ward, Some(parcelNo), Some(propertyNo), Some(LetterOf(rawId)), ulbCode);
  }

  predicate HasNumber(cell: string, rawId: string) {
    if Trim(cell) == "" then Parse(rawId).Some? else OnlyDigits(Trim(cell)) != ""
  }

  lemma Resolves(rawId: string, ward: nat, parcelNo: string, propertyNo: string, ulbCode: string)
    ensures ResolveImport(rawId, ward, parcelNo, propertyNo, ulbCode).Some?
       <==> OnlyDigits(parcelNo) != "" && OnlyDigits(propertyNo) != ""
  {
    LetterOfIsNormal(rawId);
    OnlyDigitsOfDigits(Decimal(ward));
    if OnlyDigits(parcelNo) != "" && OnlyDigits(propertyNo) != "" {
      PaddedIsNormal(parcelNo, 6);
      PaddedIsNormal(propertyNo, 3);
    }
  }

  lemma CellHasNumber(cell: string, rawId: string, width: nat, fromId: Option<string>)
    requires width > 0 && (fromId.Some? <==> Parse(rawId).Some?) && (fromId.Some? ==> Digits(fromId.value))
    ensures var value := FromExcel(cell, width, fromId);
            HasNumber(cell, rawId) <==> value.GetOr("") != "" && OnlyDigits(value.GetOr("")) != ""
  {
    if Trim(cell) == "" {
      if fromId.Some? {
        OnlyDigitsOfDigits(fromId.value);
      }
    } else if OnlyDigits(Trim(cell)) != "" {
      OnlyDigitsOfDigits(PadStart(OnlyDigits(Trim(cell)), width));
    }
  }

  /** A row has an identity exactly when it names a known ward, a parcel number and a property number. */
  lemma IdentifiedIff(job: Job, row: SheetRow)
    ensures Identify(job, row).Some?
       <==> && NamesWard(job, row)
            && HasNumber(row.parcelCell, row.rawSurveyId) && HasNumber(row.propertyCell, row.rawSurveyId)
  {
    var id := Parse(row.rawSurveyId);
    CellHasNumber(row.parcelCell, row.rawSurveyId, 6, if id.Some? then Some(id.value.parcelNo) else None);
    CellHasNumber(row.propertyCell, row.rawSurveyId, 3, if id.Some? then Some(id.value.propertyNo) else None);
    NamesWardIff(job, row);
    if NamesWard(job, row) {
      Resolves(
        row.rawSurveyId, WardNumber(row).value, ParcelFromExcel(row.parcelCell, row.rawSurveyId).GetOr(""),
        PropertyFromExcel(row.propertyCell, row.rawSurveyId).GetOr(""), job.ulbCode);
    }
  }

  // ---- Counters ----

  function Nonblank(): Item -> int {
    (item: Item) => if item.rawSurveyId != "" then 1 else 0
  }

  function Unidentified(): Item -> int {
    (item: Item) => if item.rawSurveyId != "" && item.target.None? then 1 else 0
  }

  lemma StepCounts(job: Job, p: Progress, item: Item, q: Progress)
    requires Inv(job, p) && Next(job, p, item, q)
    ensures q.tally.processed == p.tally.processed + Nonblank()(item)
    ensures q.tally.failed == p.tally.failed + Unidentified()(item)
    ensures |q.rows| - |p.rows| == q.tally.inserted - p.tally.inserted
  {
    var found :| Fits(p.rows, item, found) && q == Handle(job, p, item, found);
    if Imports(item) {
      RowWrites(job, p.rows, p.nextId, item.target.value, item.patch, item.rawSurveyId, found);
      assert p.nextId !in p.rows;
    }
  }

  /**
   * Along every import: rows with a survey id are processed, those of them without an identity fail, and the table
   * grows by one record for each that is counted as inserted.
   */
  lemma {:induction false} CountersAdd(job: Job, items: seq<Item>, states: seq<Progress>, n: nat)
    requires IsRun(job, items, states) && Stored(states[0].rows, states[0].nextId) && n <= |items|
    ensures states[n].tally.processed == SumBy(items[..n], Nonblank())
    ensures states[n].tally.failed == SumBy(items[..n], Unidentified())
    ensures |states[n].rows| == |states[0].rows| + states[n].tally.inserted
    decreases n
  {
    if n > 0 {
      CountersAdd(job, items, states, n - 1);
      RunKeeps(job, items, states, n - 1);
      RunStep(job, items, states, n - 1);
      StepCounts(job, states[n - 1], items[n - 1], states[n]);
      SumByTakeNext(items, n - 1, Nonblank());
      SumByTakeNext(items, n - 1, Unidentified());
    }
  }

  /** A job without failures is completed, one with failures and successes partial, one with failures alone failed. */
  lemma StatusIs(job: Job, rows: Rows, t: Tally, pruneMissing: bool)
    ensures var report := Finish(job, rows, t, pruneMissing).0;
            && report.tally == t
            && (report.status.Completed? <==> t.failed == 0)
            && (report.status.AllFailed? <==> t.failed > 0 && t.success == 0)
  {
  }
}
