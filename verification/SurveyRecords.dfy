/** Survey rows and the repair of their ids: `apps/api/src/surveys/survey-id.util.ts`. */
module SurveyRecords {
  import opened Common
  import opened Decimals
  import opened SurveyIdLaws
  import opened SurveyIds
  import opened Text

  datatype Status = Draft | Active | Archived | Deleted

  /** A column that is not a decimal. */
  datatype Cell = TextCell(text: string) | FlagCell(flag: bool) | CountCell(count: int)

  /**
   * `deleted` says that `deletedAt` is set; `columns` and `areas` hold the other columns without those that are null,
   * the areas in ten-thousandths as their decimal columns keep them.
   */
  datatype Survey = Survey(
    surveyId: string, wardId: string, parcelNo: Option<string>, propertyNo: Option<string>, deleted: bool,
    status: Status, columns: map<string, Cell>, areas: map<string, int>)

  type Rows = map<nat, Survey>

  /** The unique index on the survey id. */
  ghost predicate UniqueIds(rows: Rows) {
    forall a, b :: a in rows && b in rows && rows[a].surveyId == rows[b].surveyId ==> a == b
  }

  predicate Holds(rows: Rows, id: nat, surveyId: string) {
    id in rows && rows[id].surveyId == surveyId
  }

  /** `findUnique` by survey id. */
  ghost function Holder(rows: Rows, surveyId: string): (id: Option<nat>)
    ensures id.Some? ==> Holds(rows, id.value, surveyId)
    ensures id.None? ==> forall k :: !Holds(rows, k, surveyId)
  {
    if exists k :: Holds(rows, k, surveyId) then
      var k :| Holds(rows, k, surveyId);
      Some(k)
    else None
  }

  // ---- The id a record should carry ----

  function Expected(survey: Survey, ward: int, ulbCode: string): Option<string> {
    var parsed := Parse(survey.surveyId);
    BuildFromRecord(Some(survey.surveyId), ward, survey.parcelNo, survey.propertyNo,
                    if parsed.Some? then Some(parsed.value.gisUseCode) else None, Some(ulbCode))
  }

  predicate Differs(survey: Survey, expected: Option<string>) {
    expected.Some? && survey.surveyId != expected.value
  }

  /** An error while building the id counts as no need. */
  predicate NeedsRepair(survey: Survey, ward: int, ulbCode: string) {
    Differs(survey, Expected(survey, ward, ulbCode))
  }

  function Repaired(survey: Survey, expected: string): Survey {
    var parsed := Parse(expected);
    if parsed.None? then survey.(surveyId := expected)
    else
      survey.(
      surveyId := expected, parcelNo := Some(parsed.value.parcelNo), propertyNo := Some(parsed.value.propertyNo))
  }

  // ---- The repair ----

  datatype RepairOutcome = Kept(surveyId: string) | Updated(surveyId: string) | UniqueViolation

  /** What the repair returns and the rows it leaves, for the id the record should carry. */
  ghost function RepairTo(rows: Rows, id: nat, expected: Option<string>): (RepairOutcome, Rows)
    requires id in rows
  {
    if !Differs(rows[id], expected) then (Kept(rows[id].surveyId), rows)
    else
      var clash := Holder(rows, expected.value);
      if clash.Some? && clash.value != id then
        (if rows[clash.value].deleted then UniqueViolation else Kept(rows[id].surveyId), rows)
      else (Updated(expected.value), rows[id := Repaired(rows[id], expected.value)])
  }

  ghost function Repair(rows: Rows, id: nat, ward: int, ulbCode: string): (RepairOutcome, Rows)
    requires id in rows
  {
    RepairTo(rows, id, Expected(rows[id], ward, ulbCode))
  }

  class SurveyTable {
    var rows: Rows
    var nextId: nat

    ghost predicate Valid()
      reads this
    {
      UniqueIds(rows) && forall id :: id in rows ==> id < nextId
    }

    constructor ()
      ensures Valid() && rows == map[]
    {
      rows, nextId := map[], 0;
    }

    /** A second row with the same survey id is refused. */
    method Create(survey: Survey) returns (id: Option<nat>)
      requires Valid()
      modifies this
      ensures Valid()
      ensures id == if Holder(old(rows), survey.surveyId).None? then Some(old(nextId)) else None
      ensures rows == if id.Some? then old(rows)[id.value := survey] else old(rows)
      ensures nextId == if id.Some? then old(nextId) + 1 else old(nextId)
    {
      var taken := FindUnique(survey.surveyId);
      if taken.Some? {
        return None;
      }
      forall k | k in rows ensures rows[k].surveyId != survey.surveyId {
        assert !Holds(rows, k, survey.surveyId);
      }
      id := Some(nextId);
      rows, nextId := rows[nextId := survey], nextId + 1;
    }

    method FindUnique(surveyId: string) returns (id: Option<nat>)
      requires Valid()
      ensures id == Holder(rows, surveyId)
    {
      if exists k :: k in rows && rows[k].surveyId == surveyId {
        var k :| k in rows && rows[k].surveyId == surveyId;
        assert Holds(rows, k, surveyId);
        return Some(k);
      }
      return None;
    }

    /** An update that gives a second row the same survey id is refused and changes nothing. */
    method Update(id: nat, survey: Survey) returns (ok: bool)
      requires Valid() && id in rows
      modifies this
      ensures Valid()
      ensures ok <==> forall k :: k in old(rows) && k != id ==> old(rows)[k].surveyId != survey.surveyId
      ensures rows == if ok then old(rows)[id := survey] else old(rows)
      ensures nextId == old(nextId)
    {
      ok := forall k :: k in rows && k != id ==> rows[k].surveyId != survey.surveyId;
      if ok {
        rows := rows[id := survey];
      }
    }

    method RepairSurveyIdIfNeeded(id: nat, ward: int, ulbCode: string) returns (outcome: RepairOutcome)
      requires Valid() && id in rows
      modifies this
      ensures Valid()
      ensures (outcome, rows) == Repair(old(rows), id, ward, ulbCode)
    {
      var wanted := Expected(rows[id], ward, ulbCode);
      outcome := WriteExpected(id, wanted);
    }

    /** The clash check and the update that follow the comparison with the expected id. */
    method WriteExpected(id: nat, wanted: Option<string>) returns (outcome: RepairOutcome)
      requires Valid() && id in rows
      modifies this
      ensures Valid()
      ensures (outcome, rows) == RepairTo(old(rows), id, wanted)
    {
      var survey := rows[id];
      if !Differs(survey, wanted) {
        return Kept(survey.surveyId);
      }
      var expected := wanted.value;
      var clash := FindUnique(expected);
      if clash.Some? && clash.value != id && !rows[clash.value].deleted {
        return Kept(survey.surveyId);
      }
      assert clash.None? || clash.value == id
        <==> forall k :: k in rows && k != id ==> rows[k].surveyId != expected by {
        assert forall k :: k in rows && rows[k].surveyId == expected ==> Holds(rows, k, expected);
      }
      var ok := Update(id, Repaired(survey, expected));
      outcome := if ok then Updated(expected) else UniqueViolation;
    }
  }

  // ---- What the repair achieves ----

  /** A record the repair has written never needs repair again, whatever it held before. */
  lemma RepairedNeedsNoRepair(survey: Survey, ward: int, ulbCode: string)
    requires NeedsRepair(survey, ward, ulbCode)
    ensures !NeedsRepair(Repaired(survey, Expected(survey, ward, ulbCode).value), ward, ulbCode)
  {
    var expected := Expected(survey, ward, ulbCode).value;
    var input := ExpectedInput(survey, ward, ulbCode);
    ParseAfterGenerate(input);
    if Parse(expected).Some? {
      var normal := Parse(expected).value;
      NormalizeIsNormal(input);
      NormalizeOfNormal(normal);
    }
  }

  /** The parts from which the expected id is printed. */
  lemma ExpectedInput(survey: Survey, ward: int, ulbCode: string) returns (input: Parts)
    requires Expected(survey, ward, ulbCode).Some?
    ensures Generate(input) == Expected(survey, ward, ulbCode)
    ensures input.ulbCode == ulbCode && input.wardNo == IntText(ward)
  {
    var parsed := Parse(survey.surveyId);
    input := Parts(
      ulbCode, IntText(ward),
      NormalizeParcelNo(survey.parcelNo.GetOr(if parsed.Some? then parsed.value.parcelNo else "")).value,
      NormalizePropertyNo(survey.propertyNo.GetOr(if parsed.Some? then parsed.value.propertyNo else "")).value,
      NormalizeGisUseCode(if parsed.Some? then parsed.value.gisUseCode else "").value);
  }

  /** After the repair the record still needs it exactly when another row holds the id it should carry. */
  lemma NeedsRepairAfterIff(rows: Rows, id: nat, ward: int, ulbCode: string)
    requires id in rows && UniqueIds(rows)
    ensures var after := Repair(rows, id, ward, ulbCode).1;
            NeedsRepair(after[id], ward, ulbCode)
            <==> NeedsRepair(rows[id], ward, ulbCode)
                 && exists other :: other != id && Holds(rows, other, Expected(rows[id], ward, ulbCode).value)
  {
    var expected := Expected(rows[id], ward, ulbCode);
    RepairToIff(rows, id, expected);
    if Differs(rows[id], expected) {
      RepairedNeedsNoRepair(rows[id], ward, ulbCode);
    }
  }

  lemma RepairToIff(rows: Rows, id: nat, expected: Option<string>)
    requires id in rows && UniqueIds(rows)
    ensures var after := RepairTo(rows, id, expected).1;
            if Differs(rows[id], expected) && !exists other :: other != id && Holds(rows, other, expected.value)
            then after == rows[id := Repaired(rows[id], expected.value)] && RepairTo(rows, id, expected).0.Updated?
            else after == rows && !RepairTo(rows, id, expected).0.Updated?
  {
  }

  /** A needed repair whose id another record has keeps the old id, or fails if that record is deleted. */
  lemma ClashingRepairIs(rows: Rows, id: nat, ward: int, ulbCode: string, other: nat)
    requires id in rows && UniqueIds(rows) && NeedsRepair(rows[id], ward, ulbCode)
    requires other != id && Holds(rows, other, Expected(rows[id], ward, ulbCode).value)
    ensures Repair(rows, id, ward, ulbCode)
         == (if rows[other].deleted then UniqueViolation else Kept(rows[id].surveyId), rows)
  {
  }

  lemma WriteKeepsUnique(rows: Rows, id: nat, survey: Survey)
    requires UniqueIds(rows) && forall k :: k != id ==> !Holds(rows, k, survey.surveyId)
    ensures UniqueIds(rows[id := survey])
  {
    forall k | k in rows && k != id ensures rows[k].surveyId != survey.surveyId {
      assert !Holds(rows, k, survey.surveyId);
    }
  }

  /** Every column but the id, the parcel and the property number. */
  predicate SameOtherwise(a: Survey, b: Survey) {
    a.wardId == b.wardId && a.deleted == b.deleted && a.status == b.status && a.columns == b.columns
    && a.areas == b.areas
  }

  lemma RepairedOnlyRenumbers(survey: Survey, expected: string)
    ensures SameOtherwise(Repaired(survey, expected), survey) && Repaired(survey, expected).surveyId == expected
  {
  }

  /** Survey ids stay unique; other records, and the other columns of this one, stay as they were. */
  lemma RepairKeeps(rows: Rows, id: nat, ward: int, ulbCode: string)
    requires id in rows && UniqueIds(rows)
    ensures var after := Repair(rows, id, ward, ulbCode).1;
            && UniqueIds(after) && after.Keys == rows.Keys
            && (forall k :: k in rows && k != id ==> after[k] == rows[k])
            && SameOtherwise(after[id], rows[id])
  {
    var expected := Expected(rows[id], ward, ulbCode);
    RepairToIff(rows, id, expected);
    if Differs(rows[id], expected) {
      RepairedOnlyRenumbers(rows[id], expected.value);
      if !exists other :: other != id && Holds(rows, other, expected.value) {
        WriteKeepsUnique(rows, id, Repaired(rows[id], expected.value));
      }
    }
  }

  /** The id's parts are the ULB, the ward's number, and the record's own numbers before those of its old id. */
  predicate NamesRecord(id: string, survey: Survey, ward: nat, ulbCode: string) {
    && Parse(survey.surveyId).Some? && Parse(id).Some?
    && var parts := Parse(id).value;
    && parts.ulbCode == Trim(ulbCode)
    && AllDigits(parts.wardNo) && DecimalValue(parts.wardNo) == ward
    && parts.parcelNo == PadStart(OnlyDigits(ParcelGiven(survey.surveyId, survey.parcelNo)), 6)
    && parts.propertyNo == PadStart(OnlyDigits(PropertyGiven(survey.surveyId, survey.propertyNo)), 3)
    && parts.gisUseCode == Parse(survey.surveyId).value.gisUseCode
  }

  lemma NoLetter()
    ensures NormalizeGisUseCode("") == None
  {
    assert Trim("") == "";
    assert OnlyLetters("") == "";
  }

  lemma ParsedLetter(id: string)
    requires Parse(id).Some?
    ensures NormalizeGisUseCode(Parse(id).value.gisUseCode) == Some(Parse(id).value.gisUseCode)
  {
    NormalUse(Parse(id).value.gisUseCode);
  }

  function OldLetter(surveyId: string): Option<string> {
    if Parse(surveyId).Some? then Some(Parse(surveyId).value.gisUseCode) else None
  }

  lemma OldIdParses(survey: Survey, ward: int, ulbCode: string)
    requires Expected(survey, ward, ulbCode).Some?
    ensures Parse(survey.surveyId).Some?
  {
    NoLetter();
    BuiltAs(survey.surveyId, ward, survey.parcelNo, survey.propertyNo, OldLetter(survey.surveyId), ulbCode);
  }

  lemma ExpectedNamesRecord(survey: Survey, ward: nat, ulbCode: string)
    requires Expected(survey, ward, ulbCode).Some? && Digits(Trim(ulbCode)) && ward < 1000
    ensures NamesRecord(Expected(survey, ward, ulbCode).value, survey, ward, ulbCode)
  {
    OldIdParses(survey, ward, ulbCode);
    ParsedLetter(survey.surveyId);
    BuiltIdNames(survey.surveyId, ward, survey.parcelNo, survey.propertyNo, OldLetter(survey.surveyId), ulbCode);
  }

  /** A repaired record carries an id that names it, and the columns of that id. */
  lemma RepairedIdNames(rows: Rows, id: nat, ward: nat, ulbCode: string)
    requires id in rows && UniqueIds(rows) && Repair(rows, id, ward, ulbCode).0.Updated?
    requires Digits(Trim(ulbCode)) && ward < 1000
    ensures
      var after := Repair(rows, id, ward, ulbCode).1;
      && id in after && NamesRecord(after[id].surveyId, rows[id], ward, ulbCode)
      && after[id].parcelNo == Some(Parse(after[id].surveyId).value.parcelNo)
      && after[id].propertyNo == Some(Parse(after[id].surveyId).value.propertyNo)
  {
    var expected := Expected(rows[id], ward, ulbCode);
    RepairToIff(rows, id, expected);
    ExpectedNamesRecord(rows[id], ward, ulbCode);
  }

  /** A second repair finds nothing more to do. */
  lemma RepairIsIdempotent(rows: Rows, id: nat, ward: int, ulbCode: string)
    requires id in rows && UniqueIds(rows)
    ensures var after := Repair(rows, id, ward, ulbCode).1;
            Repair(after, id, ward, ulbCode).1 == after
  {
    var expected := Expected(rows[id], ward, ulbCode);
    RepairToIff(rows, id, expected);
    if RepairTo(rows, id, expected).0.Updated? {
      RepairedNeedsNoRepair(rows[id], ward, ulbCode);
    }
  }
}
