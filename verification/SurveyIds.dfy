/**
 * The GIS survey id, `{ulb}-{ward}-{parcel}-{property}-{use}`: printer, parser and normalizers of
 * `packages/types/src/survey-id.ts`. A thrown error of the source is `None`.
 */
module SurveyIds {
  import opened Common
  import opened Decimals
  import opened Splitting
  import opened Text

  const CHHATA_ULB_CODE := "249044"

  datatype Parts = Parts(ulbCode: string, wardNo: string, parcelNo: string, propertyNo: string, gisUseCode: string)

  // ---- Reading an id ----

  /** The fields between dashes. */
  function Fields(s: string): seq<string> {
    SplitOn(s, '-')
  }

  predicate Digits(s: string) {
    s != "" && AllDigits(s)
  }

  predicate Letter(s: string) {
    |s| == 1 && IsLetter(s[0])
  }

  /** The capture groups of the pattern, before the letter is upper-cased. */
  predicate Matches(fields: seq<string>) {
    && |fields| == 5
    && Digits(fields[0])
    && Digits(fields[1]) && |fields[1]| == 3
    && Digits(fields[2])
    && Digits(fields[3])
    && Letter(fields[4])
  }

  function Parse(surveyId: string): Option<Parts> {
    var fields := Fields(Trim(surveyId));
    if Matches(fields) then Some(Parts(fields[0], fields[1], fields[2], fields[3], [Upper(fields[4][0])])) else None
  }

  function ParseNullable(surveyId: Option<string>): Option<Parts> {
    if surveyId.Some? then Parse(surveyId.value) else None
  }

  // ---- Writing an id ----

  /** `replace(/\D/g, "")`. */
  function OnlyDigits(s: string): (r: string)
    ensures AllDigits(r) && |r| <= |s|
  {
    if s == "" then "" else (if IsDigit(s[0]) then [s[0]] else "") + OnlyDigits(s[1..])
  }

  /** `replace(/[^A-Za-z]/g, "")`. */
  function OnlyLetters(s: string): (r: string)
    ensures |r| <= |s| && forall i :: 0 <= i < |r| ==> IsLetter(r[i])
  {
    if s == "" then "" else (if IsLetter(s[0]) then [s[0]] else "") + OnlyLetters(s[1..])
  }

  /** `padStart(width, "0")`. */
  function PadStart(s: string, width: nat): (r: string)
    ensures |r| == Max(|s|, width)
    ensures AllDigits(s) ==> AllDigits(r)
    decreases width - |s|
  {
    if |s| >= width then s else PadStart("0" + s, width)
  }

  function NormalizeNumber(value: string, width: nat): Option<string> {
    var digits := OnlyDigits(value);
    if digits == "" then None else Some(PadStart(digits, width))
  }

  function NormalizeWardCode(ward: string): Option<string> {
    NormalizeNumber(ward, 3)
  }

  function NormalizeParcelNo(value: string): Option<string> {
    NormalizeNumber(value, 6)
  }

  function NormalizePropertyNo(value: string): Option<string> {
    NormalizeNumber(value, 3)
  }

  function NormalizeGisUseCode(value: string): Option<string> {
    var letters := OnlyLetters(Trim(value));
    if letters == "" then None else Some([Upper(letters[0])])
  }

  function Render(p: Parts): string {
    p.ulbCode + "-" + p.wardNo + "-" + p.parcelNo + "-" + p.propertyNo + "-" + p.gisUseCode
  }

  /** The parts `generateSurveyId` prints, or `None` where a normalizer throws. */
  function Normalize(p: Parts): Option<Parts> {
    var ward := NormalizeWardCode(p.wardNo);
    var parcel := NormalizeParcelNo(p.parcelNo);
    var property := NormalizePropertyNo(p.propertyNo);
    var use := NormalizeGisUseCode(p.gisUseCode);
    if ward.Some? && parcel.Some? && property.Some? && use.Some? then
      Some(Parts(Trim(p.ulbCode), ward.value, parcel.value, property.value, use.value))
    else None
  }

  function Generate(p: Parts): Option<string> {
    var normal := Normalize(p);
    if normal.Some? then Some(Render(normal.value)) else None
  }

  function IntText(n: int): string {
    if n < 0 then "-" + Decimal(-n) else Decimal(n)
  }

  /** `buildSurveyIdFromRecord`; the absent columns are `None`. */
  function BuildFromRecord(
      surveyId: Option<string>, ward: int, parcelNo: Option<string>, propertyNo: Option<string>, use: Option<string>,
      ulbCode: Option<string>): Option<string>
  {
    var parsed := ParseNullable(surveyId);
    var ulb := if ulbCode.Some? then ulbCode.value else if parsed.Some? then parsed.value.ulbCode else CHHATA_ULB_CODE;
    var parcel := NormalizeParcelNo(parcelNo.GetOr(if parsed.Some? then parsed.value.parcelNo else ""));
    var property := NormalizePropertyNo(propertyNo.GetOr(if parsed.Some? then parsed.value.propertyNo else ""));
    var letter := NormalizeGisUseCode(use.GetOr(if parsed.Some? then parsed.value.gisUseCode else ""));
    if parcel.Some? && property.Some? && letter.Some? then
      Generate(Parts(ulb, IntText(ward), parcel.value, property.value, letter.value))
    else None
  }

  /** `wardNumberFromSurveyId`: the ward segment, unless it is the placeholder 000. */
  function WardFromSurveyId(surveyId: string): Option<nat> {
    var parsed := Parse(surveyId);
    if parsed.None? then None
    else
      var n := DecimalValue(parsed.value.wardNo);
      if n == 0 then None else Some(n)
  }

  /** `resolveImportSurveyId`: an id that does not parse still gets the letter R. */
  function ResolveImport(
    rawId: string, ward: int, parcelNo: string, propertyNo: string, ulbCode: string): Option<string> {
    var parsed := Parse(rawId);
    BuildFromRecord(Some(rawId), ward, Some(parcelNo), Some(propertyNo),
                    Some(if parsed.Some? then parsed.value.gisUseCode else "R"), Some(ulbCode))
  }

  /** `normalizeParcelNoFromExcel` and `normalizePropertyNoFromExcel`; the column decides unless it is blank. */
  function FromExcel(cell: string, width: nat, fromId: Option<string>): Option<string> {
    var trimmed := Trim(cell);
    if trimmed == "" then fromId
    else if OnlyDigits(trimmed) == "" then Some(trimmed)
    else Some(PadStart(OnlyDigits(trimmed), width))
  }

  function ParcelFromExcel(cell: string, rawId: string): Option<string> {
    var parsed := Parse(rawId);
    FromExcel(cell, 6, if parsed.Some? then Some(parsed.value.parcelNo) else None)
  }

  function PropertyFromExcel(cell: string, rawId: string): Option<string> {
    var parsed := Parse(rawId);
    FromExcel(cell, 3, if parsed.Some? then Some(parsed.value.propertyNo) else None)
  }

  // ---- The parser reads exactly the documented format ----

  /** A text in the documented format, before the letter is upper-cased. */
  predicate InFormat(p: Parts) {
    Digits(p.ulbCode) && Digits(p.wardNo) && |p.wardNo| == 3 && Digits(p.parcelNo) && Digits(p.propertyNo)
    && Letter(p.gisUseCode)
  }

  predicate DashFree(s: string) {
    '-' !in s
  }

  lemma AppendField(head: string, field: string)
    requires DashFree(field)
    ensures Fields(head + "-" + field) == Fields(head) + [field]
  {
    SplitConcat(head, '-', field);
    SplitWithout(field, '-');
  }

  lemma FieldsOfRender(p: Parts)
    requires DashFree(p.wardNo) && DashFree(p.parcelNo) && DashFree(p.propertyNo) && DashFree(p.gisUseCode)
    ensures Fields(Render(p)) == Fields(p.ulbCode) + [p.wardNo, p.parcelNo, p.propertyNo, p.gisUseCode]
  {
    var head := p.ulbCode + "-" + p.wardNo;
    AppendField(p.ulbCode, p.wardNo);
    AppendField(head, p.parcelNo);
    AppendField(head + "-" + p.parcelNo, p.propertyNo);
    AppendField(head + "-" + p.parcelNo + "-" + p.propertyNo, p.gisUseCode);
  }
}
