/** What printing, parsing and normalizing a survey id keep. */
module SurveyIdLaws {
  import opened Common
  import opened Decimals
  import opened Splitting
  import opened SurveyIds
  import opened Text

  // ---- The parser accepts exactly the documented format ----

  function UpperUse(p: Parts): Parts
    requires |p.gisUseCode| == 1
  {
    p.(gisUseCode := [Upper(p.gisUseCode[0])])
  }

  lemma FormatIsDashFree(p: Parts)
    requires InFormat(p)
    ensures DashFree(p.ulbCode) && DashFree(p.wardNo) && DashFree(p.parcelNo) && DashFree(p.propertyNo)
    ensures DashFree(p.gisUseCode)
  {
  }

  lemma FieldsOfFormat(p: Parts)
    requires InFormat(p)
    ensures Fields(Render(p)) == [p.ulbCode, p.wardNo, p.parcelNo, p.propertyNo, p.gisUseCode]
  {
    FormatIsDashFree(p);
    FieldsOfRender(p);
    SplitWithout(p.ulbCode, '-');
  }

  lemma ParseOfFormat(s: string, p: Parts)
    requires InFormat(p) && Trim(s) == Render(p)
    ensures Parse(s) == Some(UpperUse(p))
  {
    FieldsOfFormat(p);
  }

  /** The fields with dashes between them again. */
  function Rejoined(fields: seq<string>): string
    requires fields != []
  {
    if |fields| == 1 then fields[0] else fields[0] + "-" + Rejoined(fields[1..])
  }

  lemma {:induction false} FieldsRejoin(text: string)
    ensures Fields(text) != [] && Rejoined(Fields(text)) == text
    decreases |Fields(text)|
  {
    if |Fields(text)| == 1 {
      OneFieldIsWhole(text, '-');
    } else {
      var rest := DetachField(text, '-');
      FieldsRejoin(rest);
    }
  }

  lemma RejoinedMore(field: string, fields: seq<string>)
    requires fields != []
    ensures Rejoined([field] + fields) == field + "-" + Rejoined(fields)
  {
    assert ([field] + fields)[1..] == fields;
  }

  lemma RejoinedFive(a: string, b: string, c: string, d: string, e: string)
    ensures Rejoined([a, b, c, d, e]) == Render(Parts(a, b, c, d, e))
  {
    RejoinedMore(d, [e]);
    RejoinedMore(c, [d, e]);
    RejoinedMore(b, [c, d, e]);
    RejoinedMore(a, [b, c, d, e]);
    Regroup(a, b, c, d, e);
  }

  lemma FiveFields(text: string)
    requires |Fields(text)| == 5
    ensures var f := Fields(text); text == Render(Parts(f[0], f[1], f[2], f[3], f[4]))
  {
    var f := Fields(text);
    FieldsRejoin(text);
    RejoinedFive(f[0], f[1], f[2], f[3], f[4]);
    assert f == [f[0], f[1], f[2], f[3], f[4]];
  }

  lemma Regroup(a: string, b: string, c: string, d: string, e: string)
    ensures a + "-" + (b + "-" + (c + "-" + (d + "-" + e))) == a + "-" + b + "-" + c + "-" + d + "-" + e
  {
  }

  lemma ParsedIsInFormat(s: string) returns (p: Parts)
    requires Parse(s).Some?
    ensures InFormat(p) && Trim(s) == Render(p) && Parse(s) == Some(UpperUse(p))
  {
    FiveFields(Trim(s));
    var f := Fields(Trim(s));
    p := Parts(f[0], f[1], f[2], f[3], f[4]);
  }

  lemma ParsesIff(s: string)
    ensures Parse(s).Some? <==> exists p: Parts :: InFormat(p) && Trim(s) == Render(p)
  {
    if Parse(s).Some? {
      var p := ParsedIsInFormat(s);
    }
    if p: Parts :| InFormat(p) && Trim(s) == Render(p) {
      ParseOfFormat(s, p);
    }
  }

  // ---- Normalized parts ----

  lemma {:induction false} OnlyDigitsOfDigits(s: string)
    requires AllDigits(s)
    ensures OnlyDigits(s) == s
    decreases |s|
  {
    if s != "" {
      OnlyDigitsOfDigits(s[1..]);
    }
  }

  predicate Normal(p: Parts) {
    && Trimmed(p.ulbCode)
    && Digits(p.wardNo) && |p.wardNo| >= 3
    && Digits(p.parcelNo) && |p.parcelNo| >= 6
    && Digits(p.propertyNo) && |p.propertyNo| >= 3
    && |p.gisUseCode| == 1 && 'A' <= p.gisUseCode[0] <= 'Z'
  }

  lemma NormalizeIsNormal(p: Parts)
    requires Normalize(p).Some?
    ensures Normal(Normalize(p).value)
  {
  }

  lemma NormalNumber(s: string, width: nat)
    requires Digits(s) && |s| >= width
    ensures NormalizeNumber(s, width) == Some(s)
  {
    OnlyDigitsOfDigits(s);
  }

  lemma NormalUse(s: string)
    requires |s| == 1 && 'A' <= s[0] <= 'Z'
    ensures NormalizeGisUseCode(s) == Some(s)
  {
    TrimOfTrimmed(s);
    assert s == [s[0]] && s[1..] == "";
    assert OnlyLetters(s) == [s[0]] + OnlyLetters(s[1..]);
  }

  lemma NormalizeOfNormal(p: Parts)
    requires Normal(p)
    ensures Normalize(p) == Some(p)
  {
    TrimOfTrimmed(p.ulbCode);
    NormalNumber(p.wardNo, 3);
    NormalNumber(p.parcelNo, 6);
    NormalNumber(p.propertyNo, 3);
    NormalUse(p.gisUseCode);
  }

  lemma TrimOfRender(p: Parts)
    requires Normal(p)
    ensures Trim(Render(p)) == Render(p)
  {
    var id := Render(p);
    assert id[|id| - 1] == p.gisUseCode[0];
    assert id[0] == (if p.ulbCode == "" then '-' else p.ulbCode[0]);
    TrimOfTrimmed(id);
  }

  lemma NormalDashes(p: Parts)
    requires Normal(p)
    ensures Fields(Render(p)) == Fields(p.ulbCode) + [p.wardNo, p.parcelNo, p.propertyNo, p.gisUseCode]
  {
    FieldsOfRender(p);
  }

  /** A printed normal form parses exactly when its ULB code is numeric and its ward code has three digits. */
  lemma ParseOfNormal(p: Parts)
    requires Normal(p)
    ensures Parse(Render(p)) == if Digits(p.ulbCode) && |p.wardNo| == 3 then Some(p) else None
  {
    TrimOfRender(p);
    if Digits(p.ulbCode) && |p.wardNo| == 3 {
      ParseOfFormat(Render(p), p);
      assert UpperUse(p).gisUseCode == p.gisUseCode;
    } else {
      NormalDashes(p);
      if |Fields(p.ulbCode)| == 1 {
        OneFieldIsWhole(p.ulbCode, '-');
      }
    }
  }

  // ---- Round trips ----

  /**
   * Parsing a generated id gives the normalized parts, exactly for a numeric ULB code and at most three ward digits.
   */
  lemma ParseAfterGenerate(input: Parts)
    requires Generate(input).Some?
    ensures Parse(Generate(input).value)
         == if Digits(Trim(input.ulbCode)) && |OnlyDigits(input.wardNo)| <= 3 then Normalize(input) else None
  {
    NormalizeIsNormal(input);
    ParseOfNormal(Normalize(input).value);
  }

  predicate UpperLetter(c: char) {
    'A' <= c <= 'Z'
  }

  /** The ids `generateSurveyId` can print and the parser can read. */
  predicate Canonical(id: string) {
    && Parse(id).Some?
    && Trim(id) == id
    && UpperLetter(id[|id| - 1])
    && |Parse(id).value.parcelNo| >= 6
    && |Parse(id).value.propertyNo| >= 3
  }

  lemma LastOfRender(p: Parts)
    requires |p.gisUseCode| == 1
    ensures Render(p) != "" && Render(p)[|Render(p)| - 1] == p.gisUseCode[0]
  {
  }

  /** Printing the parts of an id gives the id back exactly when the id is canonical. */
  lemma GenerateAfterParseIff(id: string)
    requires Parse(id).Some?
    ensures Generate(Parse(id).value) == Some(id) <==> Canonical(id)
  {
    var raw := ParsedIsInFormat(id);
    var p := Parse(id).value;
    LastOfRender(raw);
    if Canonical(id) {
      assert Upper(raw.gisUseCode[0]) == raw.gisUseCode[0];
      assert p == raw;
      DigitsAreTrimmed(p.ulbCode);
      NormalizeOfNormal(p);
    }
    if Generate(p) == Some(id) {
      NormalizeIsNormal(p);
      var normal := Normalize(p).value;
      TrimOfRender(normal);
      LastOfRender(normal);
      ParseOfNormal(normal);
    }
  }

  lemma DigitsAreTrimmed(s: string)
    requires AllDigits(s)
    ensures Trimmed(s) && Trim(s) == s
  {
    TrimOfTrimmed(s);
  }

  /** Every id the generator prints and the parser accepts is canonical. */
  lemma GeneratedIsCanonical(input: Parts)
    requires Generate(input).Some? && Parse(Generate(input).value).Some?
    ensures Canonical(Generate(input).value)
  {
    var id := Generate(input).value;
    ParseAfterGenerate(input);
    NormalizeIsNormal(input);
    var normal := Normalize(input).value;
    NormalizeOfNormal(normal);
    GenerateAfterParseIff(id);
  }

  /** Two generated ids are the same text only for the same normalized parts, when they parse. */
  lemma GenerateIsInjective(a: Parts, b: Parts)
    requires Generate(a).Some? && Generate(a) == Generate(b)
    requires Digits(Trim(a.ulbCode)) && |OnlyDigits(a.wardNo)| <= 3
    ensures Normalize(a) == Normalize(b)
  {
    ParseAfterGenerate(a);
    ParseAfterGenerate(b);
  }

  // ---- The ward number inside an id ----

  lemma DecimalStep(n: nat)
    ensures |Decimal(n)| == if n < 10 then 1 else |Decimal(n / 10)| + 1
  {
  }

  lemma DecimalLength(n: nat)
    ensures |Decimal(n)| <= 3 <==> n < 1000
  {
    var tens := n / 10;
    var hundreds := tens / 10;
    DecimalStep(n);
    DecimalStep(tens);
    DecimalStep(hundreds);
  }

  lemma {:induction false} NumberOfZeroPrefixed(s: string)
    requires AllDigits(s)
    ensures DecimalValue("0" + s) == DecimalValue(s)
    decreases |s|
  {
    var t := "0" + s;
    if s == "" {
      assert t[..|t| - 1] == "";
    } else {
      assert t[..|t| - 1] == "0" + s[..|s| - 1];
      NumberOfZeroPrefixed(s[..|s| - 1]);
    }
  }

  lemma {:induction false} NumberOfPadded(s: string, width: nat)
    requires AllDigits(s)
    ensures DecimalValue(PadStart(s, width)) == DecimalValue(s)
    decreases width - |s|
  {
    if |s| < width {
      NumberOfZeroPrefixed(s);
      NumberOfPadded("0" + s, width);
    }
  }

  /**
   * For a numeric ULB code, an id generated for a ward parses exactly for the numbers below 1000, and gives it back.
   */
  lemma WardSurvivesIff(ward: nat, input: Parts)
    requires input.wardNo == IntText(ward) && Digits(Trim(input.ulbCode)) && Generate(input).Some?
    ensures Parse(Generate(input).value).Some? <==> ward < 1000
    ensures 0 < ward < 1000 ==> WardFromSurveyId(Generate(input).value) == Some(ward)
  {
    OnlyDigitsOfDigits(Decimal(ward));
    DecimalLength(ward);
    ParseAfterGenerate(input);
    ValueOfDecimal(ward);
    NumberOfPadded(Decimal(ward), 3);
  }

  // ---- Ids built from records ----

  function Padded(value: string, width: nat): string {
    PadStart(OnlyDigits(value), width)
  }

  lemma PaddedIsNormal(value: string, width: nat)
    requires OnlyDigits(value) != "" && width > 0
    ensures NormalizeNumber(value, width) == Some(Padded(value, width))
    ensures NormalizeNumber(Padded(value, width), width) == Some(Padded(value, width))
  {
    NormalNumber(Padded(value, width), width);
  }

  lemma WardIsNormal(ward: nat)
    requires ward < 1000
    ensures OnlyDigits(IntText(ward)) == Decimal(ward) && |Decimal(ward)| <= 3
    ensures NormalizeWardCode(IntText(ward)) == Some(PadStart(Decimal(ward), 3))
    ensures DecimalValue(PadStart(Decimal(ward), 3)) == ward
  {
    OnlyDigitsOfDigits(Decimal(ward));
    DecimalLength(ward);
    ValueOfDecimal(ward);
    NumberOfPadded(Decimal(ward), 3);
  }

  /** The record's own column, else the part of the id it has. */
  function Given(column: Option<string>, fromId: Option<string>): string {
    if column.Some? then column.value else if fromId.Some? then fromId.value else ""
  }

  function ParcelGiven(surveyId: string, parcelNo: Option<string>): string {
    Given(parcelNo, if Parse(surveyId).Some? then Some(Parse(surveyId).value.parcelNo) else None)
  }

  function PropertyGiven(surveyId: string, propertyNo: Option<string>): string {
    Given(propertyNo, if Parse(surveyId).Some? then Some(Parse(surveyId).value.propertyNo) else None)
  }

  function UseGiven(surveyId: string, use: Option<string>): string {
    Given(use, if Parse(surveyId).Some? then Some(Parse(surveyId).value.gisUseCode) else None)
  }

  lemma LetterIsNormal(value: string)
    requires NormalizeGisUseCode(value).Some?
    ensures NormalizeGisUseCode(NormalizeGisUseCode(value).value) == NormalizeGisUseCode(value)
  {
    NormalUse(NormalizeGisUseCode(value).value);
  }

  lemma BuiltAs(
    surveyId: string, ward: int, parcelNo: Option<string>, propertyNo: Option<string>, use: Option<string>,
    ulbCode: string)
    requires BuildFromRecord(Some(surveyId), ward, parcelNo, propertyNo, use, Some(ulbCode)).Some?
    ensures
      var parcel, property := ParcelGiven(surveyId, parcelNo), PropertyGiven(surveyId, propertyNo);
      var letter := NormalizeGisUseCode(UseGiven(surveyId, use));
      && OnlyDigits(parcel) != "" && OnlyDigits(property) != "" && letter.Some?
      && BuildFromRecord(Some(surveyId), ward, parcelNo, propertyNo, use, Some(ulbCode))
         == Generate(Parts(ulbCode, IntText(ward), Padded(parcel, 6), Padded(property, 3), letter.value))
  {
  }

  /**
   * An id built from a record names the ULB, the ward's number, and the record's own parcel, property and use, each
   * taken from the old id only where the record has none.
   */
  lemma BuiltIdNames(
    surveyId: string, ward: nat, parcelNo: Option<string>, propertyNo: Option<string>, use: Option<string>,
    ulbCode: string)
    requires BuildFromRecord(Some(surveyId), ward, parcelNo, propertyNo, use, Some(ulbCode)).Some?
    requires Digits(Trim(ulbCode)) && ward < 1000
    ensures
      var parsed := Parse(BuildFromRecord(Some(surveyId), ward, parcelNo, propertyNo, use, Some(ulbCode)).value);
      && parsed.Some? && parsed.value.ulbCode == Trim(ulbCode)
      && AllDigits(parsed.value.wardNo) && DecimalValue(parsed.value.wardNo) == ward
      && parsed.value.parcelNo == PadStart(OnlyDigits(ParcelGiven(surveyId, parcelNo)), 6)
      && parsed.value.propertyNo == PadStart(OnlyDigits(PropertyGiven(surveyId, propertyNo)), 3)
      && Some(parsed.value.gisUseCode) == NormalizeGisUseCode(UseGiven(surveyId, use))
  {
    var parcel, property := ParcelGiven(surveyId, parcelNo), PropertyGiven(surveyId, propertyNo);
    BuiltAs(surveyId, ward, parcelNo, propertyNo, use, ulbCode);
    PaddedIsNormal(parcel, 6);
    PaddedIsNormal(property, 3);
    WardIsNormal(ward);
    LetterIsNormal(UseGiven(surveyId, use));
    var letter := NormalizeGisUseCode(UseGiven(surveyId, use)).value;
    ParseAfterGenerate(Parts(ulbCode, IntText(ward), Padded(parcel, 6), Padded(property, 3), letter));
  }
}
