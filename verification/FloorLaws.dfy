/** Parsing a printed floor list gives the floors back. */
module FloorLaws {
  import opened Common
  import opened Decimals
  import opened FloorText
  import opened Floors
  import opened Splitting
  import opened Text

  // ---- Numbers ----

  lemma NatTextIsNumber(h: nat)
    ensures NatText(h) != "" && NumberChars(NatText(h))
  {
  }

  lemma {:induction false} NumberOfParts(whole: string, decimals: string)
    requires AllDigits(whole) && AllDigits(decimals) && whole != ""
    ensures NumberOf(whole + "." + decimals)
         == Measured(DecimalValue(whole) as real + DecimalValue(decimals) as real / Power10(|decimals|))
  {
    var text := whole + "." + decimals;
    assert text[|whole|] == '.' && forall j :: 0 <= j < |whole| ==> text[j] == whole[j];
    assert FirstFrom(text, '.', 0) == |whole|;
    assert text[..|whole|] == whole && text[|whole| + 1..] == decimals;
  }

  lemma NumberOfWhole(whole: string)
    requires AllDigits(whole) && whole != ""
    ensures NumberOf(whole) == Measured(DecimalValue(whole) as real)
  {
    assert FirstFrom(whole, '.', 0) == |whole|;
    assert whole[..|whole|] == whole;
  }

  lemma OneDigit(d: nat)
    requires d < 10
    ensures DecimalValue([Digit(d)]) == d
  {
    var s := [Digit(d)];
    assert s[..0] == "";
  }

  lemma TwoDigits(d: nat, e: nat)
    requires d < 10 && e < 10
    ensures DecimalValue([Digit(d), Digit(e)]) == 10 * d + e
  {
    var s := [Digit(d), Digit(e)];
    assert s[..1] == [Digit(d)];
    OneDigit(d);
  }

  lemma OneDecimal(w: nat, d: nat)
    requires d < 10
    ensures NumberOf(Decimal(w) + "." + [Digit(d)]) == Measured(w as real + d as real / 10.0)
  {
    ValueOfDecimal(w);
    OneDigit(d);
    assert Power10(1) == 10.0 * Power10(0);
    NumberOfParts(Decimal(w), [Digit(d)]);
  }

  lemma BothDecimals(w: nat, d: nat, e: nat)
    requires d < 10 && e < 10
    ensures NumberOf(Decimal(w) + "." + [Digit(d), Digit(e)]) == Measured(w as real + (10 * d + e) as real / 100.0)
  {
    ValueOfDecimal(w);
    TwoDigits(d, e);
    assert Power10(2) == 10.0 * Power10(1) && Power10(1) == 10.0 * Power10(0);
    NumberOfParts(Decimal(w), [Digit(d), Digit(e)]);
  }

  lemma SplitHundredths(h: nat)
    ensures h as real / 100.0 == (h / 100) as real + (h % 100) as real / 100.0
    ensures h % 100 % 10 == 0 ==> (h % 100) as real / 100.0 == (h % 100 / 10) as real / 10.0
    ensures h % 100 == 10 * (h % 100 / 10) + h % 100 % 10
  {
    assert h == 100 * (h / 100) + h % 100;
  }

  /** The printed number reads back as its hundredths. */
  lemma NumberOfNatText(h: nat)
    ensures NumberOf(NatText(h)) == Measured(h as real / 100.0)
  {
    SplitHundredths(h);
    var w, rest := h / 100, h % 100;
    if rest == 0 {
      ValueOfDecimal(w);
      NumberOfWhole(Decimal(w));
    } else if rest % 10 == 0 {
      OneDecimal(w, rest / 10);
    } else {
      BothDecimals(w, rest / 10, rest % 10);
    }
  }

  predicate TwoDecimals(x: real) {
    (x * 100.0).Floor as real == x * 100.0
  }

  lemma HundredthsExactIff(x: real)
    ensures Hundredths(x) as real / 100.0 == x <==> TwoDecimals(x)
  {
  }

  // ---- Splitting what was joined ----

  predicate NoBars(s: string) {
    forall k :: 0 <= k < |s| ==> !BarsAt(s, k)
  }

  predicate CleanPart(s: string) {
    Solid(s) && NoBars(s) && ',' !in s
  }

  lemma PaddedHasNoBars(lead: string, p: string)
    requires NoBars(p) && lead in {"", " "}
    ensures NoBars(lead + p)
  {
    var s := lead + p;
    forall k | 0 <= k < |s| ensures !BarsAt(s, k) {
      assert k >= |lead| ==> (BarsAt(s, k) <==> BarsAt(p, k - |lead|));
    }
  }

  lemma FirstBars(a: string, rest: string)
    requires NoBars(a)
    ensures var s := a + " " + ("||" + rest);
            BarsFrom(s, 0) == |a| + 1 && s[..|a| + 1] == a + " " && s[|a| + 1 + 2..] == rest
  {
    var s := a + " " + ("||" + rest);
    assert BarsAt(s, |a| + 1);
    forall k | 0 <= k < |a| + 1 ensures !BarsAt(s, k) {
      assert k < |a| - 1 ==> (BarsAt(s, k) <==> BarsAt(a, k));
      assert k == |a| - 1 ==> s[k + 1] == ' ';
    }
  }

  lemma PartsOfOne(lead: string, p: string)
    requires CleanPart(p) && lead in {"", " "}
    ensures PartsOf(lead + p) == [p]
  {
    PaddedHasNoBars(lead, p);
    TrimPadded(lead, p, "");
    assert lead + p + "" == lead + p;
  }

  lemma BarJoin(lead: string, p: string, rest: string)
    ensures lead + (p + " || " + rest) == (lead + p) + " " + ("||" + (" " + rest))
  {
  }

  lemma PartsOfMore(lead: string, p: string, rest: string)
    requires CleanPart(p) && lead in {"", " "}
    ensures PartsOf(lead + (p + " || " + rest)) == [p] + PartsOf(" " + rest)
  {
    BarJoin(lead, p, rest);
    PaddedHasNoBars(lead, p);
    FirstBars(lead + p, " " + rest);
    TrimPadded(lead, p, " ");
  }

  lemma {:induction false} PartsOfJoined(lead: string, parts: seq<string>)
    requires parts != [] && lead in {"", " "} && forall i :: 0 <= i < |parts| ==> CleanPart(parts[i])
    ensures PartsOf(lead + JoinWith(parts, " || ")) == parts
    decreases |parts|
  {
    if |parts| == 1 {
      PartsOfOne(lead, parts[0]);
    } else {
      PartsOfMore(lead, parts[0], JoinWith(parts[1..], " || "));
      PartsOfJoined(" ", parts[1..]);
    }
  }

  predicate CleanSegment(s: string) {
    Solid(s) && ',' !in s
  }

  lemma SegmentFirst(lead: string, segment: string, rest: seq<string>)
    requires CleanSegment(segment) && lead in {"", " "}
    ensures SplitOn(lead + segment, ',') == [lead + segment]
    ensures NonEmpty([lead + segment] + rest) == [segment] + NonEmpty(rest)
  {
    var first := lead + segment;
    TrimPadded(lead, segment, "");
    assert first + "" == first;
    SplitWithout(first, ',');
    assert ([first] + rest)[1..] == rest;
  }

  lemma CommaJoin(lead: string, segment: string, rest: string)
    ensures lead + (segment + ", " + rest) == (lead + segment) + [','] + (" " + rest)
  {
  }

  lemma {:induction false} SegmentsOfJoined(lead: string, segments: seq<string>)
    requires segments != [] && lead in {"", " "} && forall i :: 0 <= i < |segments| ==> CleanSegment(segments[i])
    ensures Segments(lead + JoinWith(segments, ", ")) == segments
    decreases |segments|
  {
    var first := lead + segments[0];
    if |segments| == 1 {
      SegmentFirst(lead, segments[0], []);
      assert [first] + [] == [first];
    } else {
      var rest := JoinWith(segments[1..], ", ");
      CommaJoin(lead, segments[0], rest);
      SplitConcat(first, ',', " " + rest);
      SegmentFirst(lead, segments[0], SplitOn(" " + rest, ','));
      SegmentsOfJoined(" ", segments[1..]);
    }
  }

  lemma {:induction false} JoinedIsClean(parts: seq<string>)
    requires parts != [] && forall i :: 0 <= i < |parts| ==> CleanSegment(parts[i])
    ensures CleanSegment(JoinWith(parts, " || "))
    decreases |parts|
  {
    if |parts| > 1 {
      JoinedIsClean(parts[1..]);
    }
  }

  // ---- The floors the printer is meant for ----

  predicate PrintableValue(text: Option<string>) {
    text.Some? ==> GoodValue(text.value) && NoBars(text.value) && ',' !in text.value
  }

  /** Trimmed non-empty text on one line without commas, `||` or embedded fields; areas that do not print a minus. */
  predicate Printable(floor: Floor) {
    && GoodLabel(floor.floorLabel) && NoBars(floor.floorLabel) && ',' !in floor.floorLabel
    && PrintableValue(floor.usageType) && PrintableValue(floor.usageFactor) && PrintableValue(floor.buildingType)
    && Hundredths(floor.sqFt.GetOr(0.0)) >= 0 && Hundredths(SqMeters(floor)) >= 0
  }

  lemma AppendKeepsClean(a: string, b: string)
    requires CleanPart(a) && b != "" && !IsSpace(b[|b| - 1]) && '|' !in b && ',' !in b
    ensures CleanPart(a + b)
  {
    var s := a + b;
    forall k | 0 <= k < |s| ensures !BarsAt(s, k) {
      assert k < |a| - 1 ==> (BarsAt(s, k) <==> BarsAt(a, k));
      assert k >= |a| - 1 && k < |s| - 1 ==> s[k + 1] == b[k + 1 - |a|];
    }
  }

  lemma PrependKeepsClean(a: string, b: string)
    requires CleanPart(b) && a != "" && !IsSpace(a[0]) && '|' !in a && ',' !in a
    ensures CleanPart(a + b)
  {
    var s := a + b;
    forall k | 0 <= k < |s| ensures !BarsAt(s, k) {
      assert k < |a| ==> s[k] == a[k];
      assert k >= |a| ==> (BarsAt(s, k) <==> BarsAt(b, k - |a|));
    }
  }

  lemma HeadIsClean(text: string, sqFt: string, sqMeter: string)
    requires CleanPart(text) && NumberChars(sqFt) && NumberChars(sqMeter)
    ensures CleanPart(Head(text, sqFt, sqMeter))
  {
    var tail := HeadTail(sqFt, sqMeter);
    var last := " SqFt - " + (sqMeter + " SqMt");
    assert tail[|tail| - 1] == 't';
    assert '|' !in last && ',' !in last;
    AppendKeepsClean(text, tail);
  }

  lemma LabelledIsClean(prefix: string, text: Option<string>)
    requires prefix in {USAGE_TYPE, USAGE_FACTOR} && PrintableValue(text)
    ensures forall i :: 0 <= i < |Labelled(prefix, text)| ==> CleanPart(Labelled(prefix, text)[i])
    ensures Labelled(prefix, text) == if text.Some? then [prefix + text.value] else []
  {
    if text.Some? {
      TrimOfTrimmed(text.value);
      PrependKeepsClean(prefix, text.value);
    }
  }

  lemma PartsAreClean(floor: Floor)
    requires Printable(floor)
    ensures forall i :: 0 <= i < |FloorParts(floor)| ==> CleanPart(FloorParts(floor)[i])
  {
    TrimOfTrimmed(floor.floorLabel);
    NatTextIsNumber(Hundredths(floor.sqFt.GetOr(0.0)));
    NatTextIsNumber(Hundredths(SqMeters(floor)));
    HeadIsClean(Label(floor), NumberText(floor.sqFt.GetOr(0.0)), NumberText(SqMeters(floor)));
    LabelledIsClean(USAGE_TYPE, floor.usageType);
    LabelledIsClean(USAGE_FACTOR, floor.usageFactor);
    LabelledIsClean(USAGE_TYPE, floor.buildingType);
  }

  // ---- The fields read back ----

  function Given(text: Option<string>): seq<string> {
    if text.Some? then [text.value] else []
  }

  lemma ReadUsageType(parts: seq<string>, text: Option<string>)
    requires PrintableValue(text)
    ensures UsageTypes(parts + Labelled(USAGE_TYPE, text)) == UsageTypes(parts) + Given(text)
    ensures UsageFactor(parts + Labelled(USAGE_TYPE, text)) == UsageFactor(parts)
  {
    LabelledIsClean(USAGE_TYPE, text);
    if text.Some? {
      OwnUsageType(text.value);
      NoFactorInType(text.value);
      assert (parts + [USAGE_TYPE + text.value])[..|parts|] == parts;
    } else {
      assert parts + [] == parts;
    }
  }

  lemma ReadUsageFactor(parts: seq<string>, text: Option<string>)
    requires PrintableValue(text)
    ensures UsageTypes(parts + Labelled(USAGE_FACTOR, text)) == UsageTypes(parts)
    ensures UsageFactor(parts + Labelled(USAGE_FACTOR, text)) == if text.Some? then text else UsageFactor(parts)
  {
    LabelledIsClean(USAGE_FACTOR, text);
    if text.Some? {
      OwnUsageFactor(text.value);
      NoTypeInFactor(text.value);
      assert (parts + [USAGE_FACTOR + text.value])[..|parts|] == parts;
    } else {
      assert parts + [] == parts;
    }
  }

  lemma FirstUsageType(text: Option<string>)
    requires PrintableValue(text)
    ensures UsageTypes(Labelled(USAGE_TYPE, text)) == Given(text)
    ensures UsageFactor(Labelled(USAGE_TYPE, text)) == None
  {
    ReadUsageType([], text);
    assert [] + Labelled(USAGE_TYPE, text) == Labelled(USAGE_TYPE, text);
  }

  lemma FieldsReadBack(usageType: Option<string>, factor: Option<string>, building: Option<string>)
    requires PrintableValue(usageType) && PrintableValue(factor) && PrintableValue(building)
    ensures var parts :=
              Labelled(USAGE_TYPE, usageType) + Labelled(USAGE_FACTOR, factor) + Labelled(USAGE_TYPE, building);
            UsageTypes(parts) == Given(usageType) + Given(building) && UsageFactor(parts) == factor
  {
    var u, f := Labelled(USAGE_TYPE, usageType), Labelled(USAGE_FACTOR, factor);
    FirstUsageType(usageType);
    ReadUsageFactor(u, factor);
    ReadUsageType(u + f, building);
  }

  lemma PartsAfterHead(floor: Floor)
    ensures FloorParts(floor)[1..]
         == Labelled(USAGE_TYPE, floor.usageType) + Labelled(USAGE_FACTOR, floor.usageFactor)
            + Labelled(USAGE_TYPE, floor.buildingType)
  {
  }

  // ---- The round trip ----

  /** A parsed floor with the label and the areas, in hundredths, of a given one. */
  function Shown(floor: Floor, usage: seq<string>, factor: Option<string>, index: nat, segment: string): ParsedFloor {
    ParsedFloor(
      floor.floorLabel,
      Measured(Hundredths(floor.sqFt.GetOr(0.0)) as real / 100.0),
      Measured(Hundredths(SqMeters(floor)) as real / 100.0),
      At(usage, 0), factor, At(usage, 1), index, segment)
  }

  /** What the parser makes of a printed floor: the usage texts in order of appearance. */
  function ReadBack(floor: Floor, index: nat): ParsedFloor {
    Shown(floor, Given(floor.usageType) + Given(floor.buildingType), floor.usageFactor, index, SerializeFloor(floor))
  }

  function FloorHead(floor: Floor): string {
    Head(Label(floor), NumberText(floor.sqFt.GetOr(0.0)), NumberText(SqMeters(floor)))
  }

  lemma HeadReadsBack(floor: Floor, index: nat, segment: string, usage: seq<string>, factor: Option<string>)
    requires Printable(floor)
    ensures Assemble(segment, index, FloorHead(floor), usage, factor)
         == Shown(floor, usage, factor, index, segment)
  {
    var sqFt, sqMeter := Hundredths(floor.sqFt.GetOr(0.0)), Hundredths(SqMeters(floor));
    TrimOfTrimmed(floor.floorLabel);
    NatTextIsNumber(sqFt);
    NatTextIsNumber(sqMeter);
    LabelOfHead(floor.floorLabel, NatText(sqFt), NatText(sqMeter));
    SqMeterOfHead(floor.floorLabel, NatText(sqFt), NatText(sqMeter));
    NumberOfNatText(sqFt);
    NumberOfNatText(sqMeter);
  }

  lemma ParseJoinedParts(parts: seq<string>, index: nat)
    requires parts != [] && forall i :: 0 <= i < |parts| ==> CleanPart(parts[i])
    ensures var segment := JoinWith(parts, " || ");
            ParseSegment(segment, index)
            == Assemble(segment, index, parts[0], UsageTypes(parts[1..]), UsageFactor(parts[1..]))
  {
    PartsOfJoined("", parts);
    assert "" + JoinWith(parts, " || ") == JoinWith(parts, " || ");
  }

  lemma UsageReadsBack(floor: Floor)
    requires Printable(floor)
    ensures UsageTypes(FloorParts(floor)[1..]) == Given(floor.usageType) + Given(floor.buildingType)
    ensures UsageFactor(FloorParts(floor)[1..]) == floor.usageFactor
  {
    PartsAfterHead(floor);
    FieldsReadBack(floor.usageType, floor.usageFactor, floor.buildingType);
  }

  lemma SegmentIsAssembled(floor: Floor, index: nat)
    requires Printable(floor)
    ensures ParseSegment(SerializeFloor(floor), index)
         == Assemble(SerializeFloor(floor), index, FloorHead(floor), Given(floor.usageType) + Given(floor.buildingType),
                     floor.usageFactor)
  {
    PartsAreClean(floor);
    ParseJoinedParts(FloorParts(floor), index);
    UsageReadsBack(floor);
  }

  lemma SegmentReadsBack(floor: Floor, index: nat)
    requires Printable(floor)
    ensures ParseSegment(SerializeFloor(floor), index) == ReadBack(floor, index)
  {
    SegmentIsAssembled(floor, index);
    HeadReadsBack(
      floor, index, SerializeFloor(floor), Given(floor.usageType) + Given(floor.buildingType), floor.usageFactor);
  }

  lemma ParseJoinedSegments(segments: seq<string>)
    requires forall i :: 0 <= i < |segments| ==> CleanSegment(segments[i])
    ensures ParseFloorsRaw(JoinWith(segments, ", "))
         == seq(|segments|, i requires 0 <= i < |segments| => ParseSegment(segments[i], i))
  {
    if segments == [] {
      SplitWithout("", ',');
      assert Segments("") == [];
    } else {
      SegmentsOfJoined("", segments);
      assert "" + JoinWith(segments, ", ") == JoinWith(segments, ", ");
    }
  }

  lemma SegmentIsClean(floor: Floor)
    requires Printable(floor)
    ensures CleanSegment(SerializeFloor(floor))
  {
    PartsAreClean(floor);
    JoinedIsClean(FloorParts(floor));
  }

  predicate AllPrintable(floors: seq<Floor>) {
    forall i :: 0 <= i < |floors| ==> Printable(floors[i])
  }

  function ReadAllBack(floors: seq<Floor>): seq<ParsedFloor> {
    seq(|floors|, i requires 0 <= i < |floors| => ReadBack(floors[i], i))
  }

  /** Parsing a printed list gives the floors back, in order, with areas rounded to two decimals. */
  lemma ParseAfterSerialize(floors: seq<Floor>)
    requires AllPrintable(floors)
    ensures ParseFloorsRaw(SerializeFloorsRaw(floors)) == ReadAllBack(floors)
  {
    var segments := SerializeAll(floors);
    forall i | 0 <= i < |floors|
      ensures CleanSegment(segments[i]) && ParseSegment(segments[i], i) == ReadBack(floors[i], i)
    {
      SegmentIsClean(floors[i]);
      SegmentReadsBack(floors[i], i);
    }
    ParseJoinedSegments(segments);
  }

  predicate SameFloor(parsed: ParsedFloor, floor: Floor) {
    && parsed.floorLabel == floor.floorLabel
    && floor.sqFt.Some? && parsed.sqFt == Measured(floor.sqFt.value)
    && floor.sqMeter.Some? && parsed.sqMeter == Measured(floor.sqMeter.value)
    && parsed.usageType == floor.usageType
    && parsed.usageFactor == floor.usageFactor
    && parsed.buildingType == floor.buildingType
  }

  /** Both areas given with at most two decimals, and no building type without a usage type. */
  predicate Lossless(floor: Floor) {
    && floor.sqFt.Some? && TwoDecimals(floor.sqFt.value)
    && floor.sqMeter.Some? && TwoDecimals(floor.sqMeter.value)
    && (floor.buildingType.Some? ==> floor.usageType.Some?)
  }

  lemma ReadBackSameIff(floor: Floor, index: nat)
    ensures SameFloor(ReadBack(floor, index), floor) <==> Lossless(floor)
  {
    if floor.sqFt.Some? {
      HundredthsExactIff(floor.sqFt.value);
    }
    if floor.sqMeter.Some? {
      HundredthsExactIff(floor.sqMeter.value);
    }
  }

  /** For printable text each floor survives exactly when it is lossless; the order always survives. */
  lemma RoundTripIff(floors: seq<Floor>, i: nat)
    requires i < |floors| && AllPrintable(floors)
    ensures var parsed := ParseFloorsRaw(SerializeFloorsRaw(floors));
            && |parsed| == |floors| && parsed[i].sortOrder == i
            && (SameFloor(parsed[i], floors[i]) <==> Lossless(floors[i]))
  {
    ParseAfterSerialize(floors);
    ReadBackSameIff(floors[i], i);
  }

  lemma {:induction false} ShortHoldsNoField(s: string, name: string)
    requires |s| < |name|
    ensures FieldIn(s, name) == None
    decreases |s|
  {
    if s != "" {
      ShortHoldsNoField(s[1..], name);
    }
  }

  lemma OneLetterIsPrintable(c: char)
    requires IsLetter(c)
    ensures GoodLabel([c]) && PrintableValue(Some([c])) && NoBars([c]) && ',' !in [c]
  {
    assert [c][1..] == "";
    assert SqMeterIn([c]) == None;
    assert LabelFrom([c], 1) == None;
    ShortHoldsNoField([c], "usage type");
    ShortHoldsNoField([c], "usage factor");
  }

  /** A floor G of one square foot and metre, built R, without a usage type: R comes back as its usage type. */
  lemma BuildingAloneIsReadAsUsage()
    ensures
      var parsed := ParseFloorsRaw(SerializeFloorsRaw([Floor("G", Some(1.0), Some(1.0), None, None, Some("R"))]));
      |parsed| == 1 && parsed[0].usageType == Some("R") && parsed[0].buildingType == None
  {
    var floor := Floor("G", Some(1.0), Some(1.0), None, None, Some("R"));
    OneLetterIsPrintable('G');
    OneLetterIsPrintable('R');
    assert "G" == ['G'] && "R" == ['R'];
    assert Printable(floor);
    ParseAfterSerialize([floor]);
  }
}
