/** How the patterns of the floor parser read concatenated text. */
module FloorText {
  import opened Common
  import opened Floors
  import opened Text

  /** Text that neither begins nor ends with white space and is not empty. */
  predicate Solid(s: string) {
    s != "" && Trimmed(s)
  }

  predicate EndsSolid(s: string) {
    s != "" && !IsSpace(s[|s| - 1])
  }

  lemma {:induction false} TrimStartConcat(s: string, t: string)
    requires EndsSolid(s)
    ensures TrimStart(s) != "" && EndsSolid(TrimStart(s)) && TrimStart(s + t) == TrimStart(s) + t
    decreases |s|
  {
    if IsSpace(s[0]) {
      assert (s + t)[1..] == s[1..] + t;
      TrimStartConcat(s[1..], t);
    }
  }

  lemma TrimStartOfSpaced(s: string)
    requires s == "" || !IsSpace(s[0])
    ensures TrimStart(" " + s) == s
  {
    assert (" " + s)[1..] == s;
  }

  lemma TrimPadded(lead: string, p: string, trail: string)
    requires Solid(p) && lead in {"", " "} && trail in {"", " "}
    ensures Trim(lead + p + trail) == p
  {
    var s := lead + p + trail;
    if lead == " " {
      assert s[1..] == p + trail;
    } else {
      assert s == p + trail;
    }
    assert TrimStart(s) == p + trail;
    if trail == " " {
      assert (p + trail)[..|p + trail| - 1] == p;
      assert TrimEnd(p + trail) == TrimEnd(p) == p;
    } else {
      assert p + trail == p;
    }
  }

  // ---- Numbers ----

  predicate NumberChars(s: string) {
    forall i :: 0 <= i < |s| ==> IsNumberChar(s[i])
  }

  lemma {:induction false} RunOfNumber(number: string, rest: string)
    requires NumberChars(number) && (rest == "" || !IsNumberChar(rest[0]))
    ensures NumberRun(number + rest) == |number|
    decreases |number|
  {
    if number == "" {
      assert number + rest == rest;
    } else {
      assert (number + rest)[1..] == number[1..] + rest;
      RunOfNumber(number[1..], rest);
    }
  }

  lemma {:induction false} RunConcat(s: string, t: string)
    requires NumberRun(s) < |s|
    ensures NumberRun(s + t) == NumberRun(s)
    decreases |s|
  {
    if IsNumberChar(s[0]) {
      assert (s + t)[1..] == s[1..] + t;
      RunConcat(s[1..], t);
    }
  }

  lemma RunOfWhole(s: string)
    requires NumberRun(s) == |s|
    ensures NumberChars(s)
  {
  }

  predicate IsUnit(unit: string) {
    unit == "sqft" || unit == "sqmt"
  }

  lemma PrefixConcat(s: string, t: string, w: string)
    requires |t| > 0 && t[0] == ' ' && forall i :: 0 <= i < |w| ==> w[i] != ' '
    ensures StartsWith(s + t, w) <==> StartsWith(s, w)
  {
    assert |s| < |w| ==> Lower((s + t)[|s|]) != w[|s|];
  }

  /** What follows a dash in the head of a floor. */
  predicate DashTail(t: string) {
    |t| >= 2 && t[0] == ' ' && t[1] == '-'
  }

  lemma TrimDashTail(t: string)
    requires DashTail(t)
    ensures TrimStart(t) == t[1..]
  {
    assert TrimStart(t) == TrimStart(t[1..]);
  }

  /** Nothing changes for a number pattern when a further dashed field follows. */
  lemma NumberThenConcat(s: string, t: string, unit: string)
    requires EndsSolid(s) && DashTail(t) && IsUnit(unit)
    ensures NumberThen(s + t, unit) == NumberThen(s, unit)
  {
    var n := NumberRun(s);
    if n < |s| {
      RunConcat(s, t);
      assert (s + t)[n..] == s[n..] + t && (s + t)[..n] == s[..n];
      TrimStartConcat(s[n..], t);
      PrefixConcat(TrimStart(s[n..]), t, unit);
    } else {
      RunOfWhole(s);
      RunOfNumber(s, t);
      assert (s + t)[n..] == t && s[n..] == "";
      TrimDashTail(t);
    }
  }

  lemma AreaConcat(s: string, t: string)
    requires EndsSolid(s) && DashTail(t)
    ensures AreaAt(s + t) == AreaAt(s)
  {
    TrimStartConcat(s, t);
    var a := TrimStart(s);
    assert (a + t)[1..] == a[1..] + t;
    if a[0] == '-' {
      if a[1..] == "" {
        assert a[1..] + t == t;
        TrimDashTail(t);
        assert NumberRun(t[1..]) == 0;
      } else {
        TrimStartConcat(a[1..], t);
        NumberThenConcat(TrimStart(a[1..]), t, "sqft");
      }
    }
  }

  lemma NumberBefore(number: string, rest: string, unit: string)
    requires number != "" && NumberChars(number) && IsUnit(unit) && |rest| > 0 && rest[0] == ' '
    requires |rest| > 1 && !IsSpace(rest[1])
    ensures NumberThen(number + rest, unit) == if StartsWith(rest[1..], unit) then Some(number) else None
  {
    RunOfNumber(number, rest);
    assert (number + rest)[|number|..] == rest && (number + rest)[..|number|] == number;
    assert rest == " " + rest[1..];
    TrimStartOfSpaced(rest[1..]);
  }

  // ---- The head of a floor ----

  predicate GoodLabel(text: string) {
    && Solid(text) && OneLine(text)
    && LabelFrom(text, 1).None? && SqMeterIn(text).None?
  }

  lemma {:induction false} LabelConcat(text: string, t: string, k: nat)
    requires 1 <= k <= |text| && EndsSolid(text) && OneLine(text) && DashTail(t)
    requires LabelFrom(text, k).None?
    ensures LabelFrom(text + t, k) == LabelFrom(text + t, |text|)
    decreases |text| - k
  {
    if k < |text| {
      assert (text + t)[k..] == text[k..] + t;
      AreaConcat(text[k..], t);
      LabelConcat(text, t, k + 1);
    }
  }

  function HeadTail(sqFt: string, sqMeter: string): string {
    " - " + (sqFt + (" SqFt - " + (sqMeter + " SqMt")))
  }

  lemma DashThen(x: string)
    requires x == "" || !IsSpace(x[0])
    ensures AfterDash(" - " + x) == Some(x)
  {
    var t := " - " + x;
    assert t[1..] == "- " + x;
    TrimDashTail(t);
    assert t[1..][1..] == " " + x;
    TrimStartOfSpaced(x);
  }

  lemma SqFtFollows(sqFt: string, rest: string)
    requires sqFt != "" && NumberChars(sqFt)
    ensures NumberThen(sqFt + (" SqFt" + rest), "sqft") == Some(sqFt)
  {
    var after := " SqFt" + rest;
    assert after[1..] == "SqFt" + rest;
    NumberBefore(sqFt, after, "sqft");
  }

  lemma AreaOfTail(sqFt: string, rest: string)
    requires sqFt != "" && NumberChars(sqFt)
    ensures AreaAt(" - " + (sqFt + (" SqFt" + rest))) == Some(sqFt)
  {
    DashThen(sqFt + (" SqFt" + rest));
    SqFtFollows(sqFt, rest);
  }

  lemma LabelOfHead(text: string, sqFt: string, sqMeter: string)
    requires GoodLabel(text) && sqFt != "" && NumberChars(sqFt)
    ensures LabelFrom(Head(text, sqFt, sqMeter), 1) == Some((text, sqFt))
  {
    var t := HeadTail(sqFt, sqMeter);
    var rest := " - " + (sqMeter + " SqMt");
    assert " SqFt - " + (sqMeter + " SqMt") == " SqFt" + rest;
    LabelConcat(text, t, 1);
    assert (text + t)[|text|..] == t && (text + t)[..|text|] == text;
    AreaOfTail(sqFt, rest);
  }

  lemma SkipChar(c: char, s: string)
    requires !IsNumberChar(c)
    ensures SqMeterIn([c] + s) == SqMeterIn(s)
  {
    assert ([c] + s)[1..] == s;
  }

  lemma {:induction false} SkipText(p: string, s: string)
    requires forall i :: 0 <= i < |p| ==> !IsNumberChar(p[i])
    ensures SqMeterIn(p + s) == SqMeterIn(s)
    decreases |p|
  {
    if p == "" {
      assert p + s == s;
    } else {
      assert p + s == [p[0]] + (p[1..] + s);
      SkipChar(p[0], p[1..] + s);
      SkipText(p[1..], s);
    }
  }

  lemma {:induction false} SkipFeet(number: string, rest: string)
    requires NumberChars(number) && |rest| > 1 && rest[0] == ' ' && !IsSpace(rest[1]) && !StartsWith(rest[1..], "sqmt")
    ensures SqMeterIn(number + rest) == SqMeterIn(rest)
    decreases |number|
  {
    if number == "" {
      assert number + rest == rest;
    } else {
      NumberBefore(number, rest, "sqmt");
      assert (number + rest)[1..] == number[1..] + rest;
      SkipFeet(number[1..], rest);
    }
  }

  lemma {:induction false} SkipLabel(text: string, t: string)
    requires (text == "" || EndsSolid(text)) && DashTail(t) && SqMeterIn(text).None?
    ensures SqMeterIn(text + t) == SqMeterIn(t)
    decreases |text|
  {
    if text == "" {
      assert text + t == t;
    } else {
      NumberThenConcat(text, t, "sqmt");
      assert (text + t)[1..] == text[1..] + t;
      SkipLabel(text[1..], t);
    }
  }

  lemma SqFtSkipped(sqFt: string, last: string)
    requires NumberChars(sqFt)
    ensures SqMeterIn(sqFt + (" SqFt - " + last)) == SqMeterIn(last)
  {
    var rest := " SqFt - " + last;
    assert rest[1..] == "SqFt - " + last;
    assert Lower(rest[1..][2]) != "sqmt"[2];
    SkipFeet(sqFt, rest);
    SkipText(" SqFt - ", last);
  }

  lemma SqMeterAtEnd(sqMeter: string)
    requires sqMeter != "" && NumberChars(sqMeter)
    ensures SqMeterIn(sqMeter + " SqMt") == Some(sqMeter)
  {
    NumberBefore(sqMeter, " SqMt", "sqmt");
  }

  lemma SqMeterOfTail(sqFt: string, sqMeter: string)
    requires NumberChars(sqFt) && sqMeter != "" && NumberChars(sqMeter)
    ensures SqMeterIn(HeadTail(sqFt, sqMeter)) == Some(sqMeter)
  {
    var last := sqMeter + " SqMt";
    SkipText(" - ", sqFt + (" SqFt - " + last));
    SqFtSkipped(sqFt, last);
    SqMeterAtEnd(sqMeter);
  }

  lemma SqMeterOfHead(text: string, sqFt: string, sqMeter: string)
    requires GoodLabel(text) && sqFt != "" && NumberChars(sqFt) && sqMeter != "" && NumberChars(sqMeter)
    ensures SqMeterIn(Head(text, sqFt, sqMeter)) == Some(sqMeter)
  {
    SkipLabel(text, HeadTail(sqFt, sqMeter));
    SqMeterOfTail(sqFt, sqMeter);
  }

  // ---- Labelled fields ----

  /** A value that holds no field of its own. */
  predicate GoodValue(v: string) {
    Solid(v) && OneLine(v) && FieldIn(v, "usage type").None? && FieldIn(v, "usage factor").None?
  }

  lemma ValueOfField(v: string)
    requires Solid(v) && OneLine(v)
    ensures ValueAt(" - " + v) == Some(v)
  {
    DashThen(v);
    TrimOfTrimmed(v);
  }

  lemma {:induction false} SkipPrefix(p: string, v: string, name: string)
    requires name != "" && forall i :: 0 <= i < |p| ==> Lower(p[i]) != name[0]
    ensures FieldIn(p + v, name) == FieldIn(v, name)
    decreases |p|
  {
    if p == "" {
      assert p + v == v;
    } else {
      assert (p + v)[1..] == p[1..] + v;
      SkipPrefix(p[1..], v, name);
    }
  }

  lemma FieldAtStart(s: string, name: string, v: string)
    requires s != "" && StartsWith(s, name) && ValueAt(s[|name|..]) == Some(v)
    ensures FieldIn(s, name) == Some(v)
  {
  }

  lemma OwnUsageType(v: string)
    requires GoodValue(v)
    ensures FieldIn(USAGE_TYPE + v, "usage type") == Some(v)
  {
    var s := USAGE_TYPE + v;
    assert s[10..] == " - " + v;
    ValueOfField(v);
    assert StartsWith("Usage Type", "usage type");
    assert s == "Usage Type" + (" - " + v);
    FieldAtStart(s, "usage type", v);
  }

  lemma OwnUsageFactor(v: string)
    requires GoodValue(v)
    ensures FieldIn(USAGE_FACTOR + v, "usage factor") == Some(v)
  {
    var s := USAGE_FACTOR + v;
    assert s[12..] == " - " + v;
    ValueOfField(v);
    assert StartsWith("Usage Factor", "usage factor");
    assert s == "Usage Factor" + (" - " + v);
    FieldAtStart(s, "usage factor", v);
  }

  lemma TypeTailHasNoU(p: string)
    requires p == "sage Type - "
    ensures forall i :: 0 <= i < |p| ==> Lower(p[i]) != 'u'
  {
    assert p[0] == 's' && p[1] == 'a' && p[2] == 'g' && p[3] == 'e' && p[4] == ' ' && p[5] == 'T';
    assert p[6] == 'y' && p[7] == 'p' && p[8] == 'e' && p[9] == ' ' && p[10] == '-' && p[11] == ' ';
  }

  lemma FactorTailHasNoU(p: string)
    requires p == "sage Factor - "
    ensures forall i :: 0 <= i < |p| ==> Lower(p[i]) != 'u'
  {
    assert p[0] == 's' && p[1] == 'a' && p[2] == 'g' && p[3] == 'e' && p[4] == ' ' && p[5] == 'F' && p[6] == 'a';
    assert p[7] == 'c' && p[8] == 't' && p[9] == 'o' && p[10] == 'r' && p[11] == ' ' && p[12] == '-' && p[13] == ' ';
  }

  lemma NoFactorInType(v: string)
    requires GoodValue(v)
    ensures FieldIn(USAGE_TYPE + v, "usage factor") == None
  {
    var p := USAGE_TYPE[1..];
    assert p == "sage Type - ";
    TypeTailHasNoU(p);
    assert (USAGE_TYPE + v)[1..] == p + v;
    assert Lower((USAGE_TYPE + v)[6]) == 't' && "usage factor"[6] == 'f';
    assert "usage factor"[0] == 'u';
    SkipPrefix(p, v, "usage factor");
  }

  lemma NoTypeInFactor(v: string)
    requires GoodValue(v)
    ensures FieldIn(USAGE_FACTOR + v, "usage type") == None
  {
    var p := USAGE_FACTOR[1..];
    assert p == "sage Factor - ";
    FactorTailHasNoU(p);
    assert (USAGE_FACTOR + v)[1..] == p + v;
    assert Lower((USAGE_FACTOR + v)[6]) == 'f' && "usage type"[6] == 't';
    assert "usage type"[0] == 'u';
    SkipPrefix(p, v, "usage type");
  }
}
