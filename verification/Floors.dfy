/** The floor blob of the survey sheets: printer and parser of `apps/api/src/surveys/floors.util.ts`. */
module Floors {
  import opened Common
  import opened Decimals
  import opened Splitting
  import opened Text

  /** A floor as the caller gives it; `None` is `undefined`. */
  datatype Floor = Floor(
    floorLabel: string, sqFt: Option<real>, sqMeter: Option<real>, usageType: Option<string>,
    usageFactor: Option<string>, buildingType: Option<string>)

  datatype Area = Absent | NotANumber | Measured(value: real)

  datatype ParsedFloor = ParsedFloor(
    floorLabel: string, sqFt: Area, sqMeter: Area, usageType: Option<string>, usageFactor: Option<string>,
    buildingType: Option<string>, sortOrder: nat, rawSegment: string)

  // ---- Printing ----

  const SQ_FT_TO_SQ_M := 0.092903

  /** `Math.round(value * 100)`. */
  function Hundredths(value: real): int {
    (value * 100.0 + 0.5).Floor
  }

  /** `String(h / 100)`: no trailing zeros. */
  function NatText(h: nat): string {
    var whole, rest := Decimal(h / 100), h % 100;
    if rest == 0 then whole
    else if rest % 10 == 0 then whole + "." + [Digit(rest / 10)]
    else whole + "." + [Digit(rest / 10), Digit(rest % 10)]
  }

  function Digit(d: nat): (c: char)
    requires d < 10
    ensures IsDigit(c)
  {
    d as char + '0'
  }

  function NumberText(value: real): string {
    var h := Hundredths(value);
    if h < 0 then "-" + NatText(-h) else NatText(h)
  }

  function SqMeters(floor: Floor): real {
    if floor.sqMeter.Some? then floor.sqMeter.value
    else Hundredths(floor.sqFt.GetOr(0.0) * SQ_FT_TO_SQ_M) as real / 100.0
  }

  function Label(floor: Floor): string {
    if Trim(floor.floorLabel) == "" then "Floor" else Trim(floor.floorLabel)
  }

  function Head(name: string, sqFt: string, sqMeter: string): string {
    name + (" - " + (sqFt + (" SqFt - " + (sqMeter + " SqMt"))))
  }

  /** A field of the blob, left out when its text is blank. */
  function Labelled(prefix: string, text: Option<string>): seq<string> {
    if text.Some? && Trim(text.value) != "" then [prefix + Trim(text.value)] else []
  }

  const USAGE_TYPE := "Usage Type - "
  const USAGE_FACTOR := "Usage Factor - "

  function FloorParts(floor: Floor): seq<string> {
    [Head(Label(floor), NumberText(floor.sqFt.GetOr(0.0)), NumberText(SqMeters(floor)))]
    + Labelled(USAGE_TYPE, floor.usageType)
    + Labelled(USAGE_FACTOR, floor.usageFactor)
    + Labelled(USAGE_TYPE, floor.buildingType)
  }

  /** `parts.join(sep)`. */
  function JoinWith(parts: seq<string>, sep: string): string {
    if parts == [] then "" else if |parts| == 1 then parts[0] else parts[0] + sep + JoinWith(parts[1..], sep)
  }

  function SerializeFloor(floor: Floor): string {
    JoinWith(FloorParts(floor), " || ")
  }

  function SerializeAll(floors: seq<Floor>): seq<string> {
    seq(|floors|, i requires 0 <= i < |floors| => SerializeFloor(floors[i]))
  }

  function SerializeFloorsRaw(floors: seq<Floor>): string {
    JoinWith(SerializeAll(floors), ", ")
  }

  /** The callback of the map: the parts pushed one after another. */
  method WriteFloor(floor: Floor) returns (blob: string)
    ensures blob == SerializeFloor(floor)
  {
    var name := Trim(floor.floorLabel);
    if name == "" {
      name := "Floor";
    }
    var sqFt := floor.sqFt.GetOr(0.0);
    var parts := [Head(name, NumberText(sqFt), NumberText(SqMeters(floor)))];
    ghost var head := parts;
    if floor.usageType.Some? && Trim(floor.usageType.value) != "" {
      parts := parts + [USAGE_TYPE + Trim(floor.usageType.value)];
    }
    assert parts == head + Labelled(USAGE_TYPE, floor.usageType);
    if floor.usageFactor.Some? && Trim(floor.usageFactor.value) != "" {
      parts := parts + [USAGE_FACTOR + Trim(floor.usageFactor.value)];
    }
    assert parts == head + Labelled(USAGE_TYPE, floor.usageType) + Labelled(USAGE_FACTOR, floor.usageFactor);
    if floor.buildingType.Some? && Trim(floor.buildingType.value) != "" {
      parts := parts + [USAGE_TYPE + Trim(floor.buildingType.value)];
    }
    assert parts == FloorParts(floor);
    blob := JoinWith(parts, " || ");
  }

  // ---- The patterns of the parser ----

  predicate IsLineEnd(c: char) {
    c == '\n' || c == '\r' || c == '\U{2028}' || c == '\U{2029}'
  }

  predicate OneLine(s: string) {
    forall i :: 0 <= i < |s| ==> !IsLineEnd(s[i])
  }

  /** The class `[\d.]`. */
  predicate IsNumberChar(c: char) {
    IsDigit(c) || c == '.'
  }

  /** Case-insensitive prefix; `w` is in lower case. */
  predicate StartsWith(s: string, w: string) {
    |s| >= |w| && forall j :: 0 <= j < |w| ==> Lower(s[j]) == w[j]
  }

  function NumberRun(s: string): (n: nat)
    ensures n <= |s| && forall j :: 0 <= j < n ==> IsNumberChar(s[j])
    ensures n < |s| ==> !IsNumberChar(s[n])
  {
    if s == "" || !IsNumberChar(s[0]) then 0 else 1 + NumberRun(s[1..])
  }

  /** `([\d.]+)\s*unit` at the start. */
  function NumberThen(s: string, unit: string): Option<string> {
    var n := NumberRun(s);
    if n > 0 && StartsWith(TrimStart(s[n..]), unit) then Some(s[..n]) else None
  }

  /** `\s*-\s*` at the start; what follows it. */
  function AfterDash(s: string): Option<string> {
    var t := TrimStart(s);
    if t != "" && t[0] == '-' then Some(TrimStart(t[1..])) else None
  }

  /** `\s*-\s*([\d.]+)\s*SqFt` at the start. */
  function AreaAt(s: string): Option<string> {
    var rest := AfterDash(s);
    if rest.Some? then NumberThen(rest.value, "sqft") else None
  }

  /** The shortest label of at least `k` characters that an area follows, with that area. */
  function LabelFrom(head: string, k: nat): Option<(string, string)>
    requires k >= 1
    decreases |head| - k
  {
    if k > |head| || IsLineEnd(head[k - 1]) then None
    else
      var area := AreaAt(head[k..]);
      if area.Some? then Some((head[..k], area.value)) else LabelFrom(head, k + 1)
  }

  /** The leftmost number before `SqMt`. */
  function SqMeterIn(s: string): Option<string> {
    if s == "" then None
    else
      var number := NumberThen(s, "sqmt");
      if number.Some? then number else SqMeterIn(s[1..])
  }

  /** `\s*-\s*(.+)$` at the start of a trimmed text. */
  function ValueAt(s: string): Option<string> {
    var rest := AfterDash(s);
    if rest.Some? && rest.value != "" && OneLine(rest.value) then Some(Trim(rest.value)) else None
  }

  /** The leftmost `name - value` in a part; the value runs to the end of the part. */
  function FieldIn(s: string, name: string): Option<string>
    decreases |s|
  {
    if s == "" then None
    else if StartsWith(s, name) && ValueAt(s[|name|..]).Some? then ValueAt(s[|name|..])
    else FieldIn(s[1..], name)
  }

  /** `Number(text)` on a text of digits and dots. */
  function NumberOf(text: string): Area {
    var i := FirstFrom(text, '.', 0);
    var whole := text[..i];
    var decimals := if i < |text| then text[i + 1..] else "";
    if !AllDigits(whole) || !AllDigits(decimals) || |whole| + |decimals| == 0 then NotANumber
    else Measured(DecimalValue(whole) as real + DecimalValue(decimals) as real / Power10(|decimals|))
  }

  function Power10(n: nat): (p: real)
    ensures p > 0.0
  {
    if n == 0 then 1.0 else 10.0 * Power10(n - 1)
  }

  // ---- Splitting ----

  predicate BarsAt(s: string, k: int) {
    0 <= k < |s| - 1 && s[k] == '|' && s[k + 1] == '|'
  }

  function BarsFrom(s: string, from: nat): (i: nat)
    requires from <= |s|
    ensures from <= i <= |s|
    ensures i < |s| ==> BarsAt(s, i)
    ensures forall j :: from <= j < i ==> !BarsAt(s, j)
    decreases |s| - from
  {
    if from == |s| || BarsAt(s, from) then from else BarsFrom(s, from + 1)
  }

  /** `s.split("||")`, each piece trimmed. */
  function PartsOf(s: string): (parts: seq<string>)
    ensures |parts| >= 1
    decreases |s|
  {
    var i := BarsFrom(s, 0);
    if i + 2 > |s| then [Trim(s)] else [Trim(s[..i])] + PartsOf(s[i + 2..])
  }

  function NonEmpty(fields: seq<string>): seq<string> {
    if fields == [] then []
    else (if Trim(fields[0]) == "" then [] else [Trim(fields[0])]) + NonEmpty(fields[1..])
  }

  function Segments(blob: string): seq<string> {
    NonEmpty(SplitOn(blob, ','))
  }

  // ---- Parsing ----

  /** The usage values of the parts after the head. */
  function UsageTypes(parts: seq<string>): seq<string> {
    if parts == [] then []
    else
      var value := FieldIn(parts[|parts| - 1], "usage type");
      UsageTypes(parts[..|parts| - 1]) + (if value.Some? then [value.value] else [])
  }

  /** The last usage factor among them. */
  function UsageFactor(parts: seq<string>): Option<string> {
    if parts == [] then None
    else
      var value := FieldIn(parts[|parts| - 1], "usage factor");
      if value.Some? then value else UsageFactor(parts[..|parts| - 1])
  }

  method ReadFields(parts: seq<string>) returns (usageTypes: seq<string>, usageFactor: Option<string>)
    ensures usageTypes == UsageTypes(parts) && usageFactor == UsageFactor(parts)
  {
    usageTypes, usageFactor := [], None;
    for i := 0 to |parts|
      invariant usageTypes == UsageTypes(parts[..i]) && usageFactor == UsageFactor(parts[..i])
    {
      assert parts[..i + 1][..i] == parts[..i];
      var usage := FieldIn(parts[i], "usage type");
      if usage.Some? {
        usageTypes := usageTypes + [usage.value];
      }
      var factor := FieldIn(parts[i], "usage factor");
      if factor.Some? {
        usageFactor := factor;
      }
    }
    assert parts[..|parts|] == parts;
  }

  function At(values: seq<string>, i: nat): Option<string> {
    if i < |values| then Some(values[i]) else None
  }

  function ParseSegment(segment: string, index: nat): ParsedFloor {
    var parts := PartsOf(segment);
    var fields := parts[1..];
    Assemble(segment, index, parts[0], UsageTypes(fields), UsageFactor(fields))
  }

  function Assemble(
    segment: string, index: nat, head: string, usageTypes: seq<string>, factor: Option<string>): ParsedFloor {
    var name := LabelFrom(head, 1);
    var sqMeter := SqMeterIn(head);
    ParsedFloor(
      if name.Some? && Trim(name.value.0) != "" then Trim(name.value.0) else "Floor " + Decimal(index + 1),
      if name.Some? then NumberOf(name.value.1) else Absent,
      if sqMeter.Some? then NumberOf(sqMeter.value) else Absent,
      At(usageTypes, 0), factor, At(usageTypes, 1), index, segment)
  }

  function ParseFloorsRaw(blob: string): seq<ParsedFloor> {
    var segments := Segments(blob);
    seq(|segments|, i requires 0 <= i < |segments| => ParseSegment(segments[i], i))
  }
}
