/** A sheet of two rows that share a survey id and differ in their parcel, imported into an empty table. */
module ImportInstances {
  import opened Common
  import opened Decimals
  import opened ImportLaws
  import opened ImportModel
  import opened SurveyIdLaws
  import opened SurveyIds
  import opened SurveyRecords
  import opened Text

  const Job1 := Job(map[1 := "W"], "249044", Update, {})

  const FirstId := "249044-001-000001-001-R"
  const SecondId := "249044-001-000002-001-R"

  function Row(parcel: string): SheetRow {
    SheetRow(FirstId, Some(1), parcel, "1", Patch(map[], {}, map[]))
  }

  const Sheet := [Row("1"), Row("2")]

  lemma OneDigitPadded(c: char)
    requires IsDigit(c)
    ensures Trim([c]) == [c] && OnlyDigits([c]) == [c]
    ensures PadStart([c], 3) == "00" + [c] && PadStart([c], 6) == "00000" + [c]
  {
    TrimOfTrimmed([c]);
    OnlyDigitsOfDigits([c]);
    var two, three := "0" + [c], "00" + [c];
    assert "0" + two == three;
    assert PadStart([c], 3) == PadStart(two, 3) == PadStart(three, 3) == three;
    var four, five, six := "000" + [c], "0000" + [c], "00000" + [c];
    assert "0" + three == four && "0" + four == five && "0" + five == six;
    assert PadStart([c], 6) == PadStart(two, 6) == PadStart(three, 6) == PadStart(four, 6);
    assert PadStart(four, 6) == PadStart(five, 6) == PadStart(six, 6) == six;
  }

  function PartsAt(c: char): Parts {
    Parts("249044", "001", "00000" + [c], "001", "R")
  }

  lemma FirstIdIsPrinted()
    ensures FirstId == Render(PartsAt('1'))
  {
    assert "249044" + "-" + "001" == "249044-001";
    assert "00000" + ['1'] == "000001";
    assert "249044-001" + "-" + "000001" == "249044-001-000001";
    assert "249044-001-000001" + "-" + "001" == "249044-001-000001-001";
  }

  lemma SecondIdIsPrinted()
    ensures SecondId == Render(PartsAt('2'))
  {
    assert "249044" + "-" + "001" == "249044-001";
    assert "00000" + ['2'] == "000002";
    assert "249044-001" + "-" + "000002" == "249044-001-000002";
    assert "249044-001-000002" + "-" + "001" == "249044-001-000002-001";
  }

  lemma PartsAreNormal(c: char)
    requires IsDigit(c)
    ensures Normal(PartsAt(c)) && Digits(PartsAt(c).ulbCode)
  {
  }

  lemma ParsePrinted(id: string, p: Parts)
    requires id == Render(p) && Normal(p) && Digits(p.ulbCode) && |p.wardNo| == 3
    ensures Parse(id) == Some(p)
  {
    ParseOfNormal(p);
  }

  lemma GenerateAt(c: char)
    requires IsDigit(c)
    ensures Generate(Parts("249044", "1", "00000" + [c], "001", "R")) == Some(Render(PartsAt(c)))
  {
    OneDigitPadded('1');
    NormalNumber("00000" + [c], 6);
    NormalNumber("001", 3);
    NormalUse("R");
    TrimOfTrimmed("249044");
  }

  /** Building from normal cells prints them under the ward's number. */
  lemma BuildFromNormal(id: string, ward: int, parcel: string, property: string, use: string, ulbCode: string)
    requires Digits(parcel) && |parcel| >= 6 && Digits(property) && |property| >= 3
    requires |use| == 1 && 'A' <= use[0] <= 'Z'
    ensures BuildFromRecord(Some(id), ward, Some(parcel), Some(property), Some(use), Some(ulbCode))
         == Generate(Parts(ulbCode, IntText(ward), parcel, property, use))
  {
    NormalNumber(parcel, 6);
    NormalNumber(property, 3);
    NormalUse(use);
  }

  lemma ResolveNormal(id: string, p: Parts, ward: int, parcel: string, property: string, ulbCode: string)
    requires Parse(id) == Some(p) && |p.gisUseCode| == 1 && 'A' <= p.gisUseCode[0] <= 'Z'
    requires Digits(parcel) && |parcel| >= 6 && Digits(property) && |property| >= 3
    ensures ResolveImport(id, ward, parcel, property, ulbCode)
         == Generate(Parts(ulbCode, IntText(ward), parcel, property, p.gisUseCode))
  {
    BuildFromNormal(id, ward, parcel, property, p.gisUseCode, ulbCode);
  }

  lemma OneIsWritten()
    ensures IntText(1) == "1"
  {
    assert Decimal(1) == ['1'];
  }

  lemma ResolveAt(id: string, p: Parts, c: char)
    requires IsDigit(c) && Parse(id) == Some(p) && p.gisUseCode == "R"
    ensures ResolveImport(id, 1, "00000" + [c], "001", "249044") == Some(Render(PartsAt(c)))
  {
    ResolveNormal(id, p, 1, "00000" + [c], "001", "249044");
    OneIsWritten();
    GenerateAt(c);
  }

  function TargetAt(c: char): Target {
    Target(Render(PartsAt(c)), "W", "00000" + [c], "001")
  }

  lemma CellsAt(id: string, c: char)
    requires IsDigit(c)
    ensures ParcelFromExcel([c], id) == Some("00000" + [c])
    ensures PropertyFromExcel("1", id) == Some("001")
  {
    OneDigitPadded(c);
    OneDigitPadded('1');
    assert "00" + ['1'] == "001";
  }

  lemma IdentifyAt(c: char)
    requires IsDigit(c)
    ensures Identify(Job1, Row([c])) == Some(TargetAt(c))
  {
    FirstIdIsPrinted();
    PartsAreNormal('1');
    ParsePrinted(FirstId, PartsAt('1'));
    CellsAt(FirstId, c);
    ResolveAt(FirstId, PartsAt('1'), c);
  }

  lemma Targets()
    ensures TargetAt('1').surveyId == FirstId && TargetAt('2').surveyId == SecondId && FirstId != SecondId
  {
    FirstIdIsPrinted();
    SecondIdIsPrinted();
    assert FirstId[16] != SecondId[16];
  }

  const Start := Progress(map[], 0, Zero)

  lemma EmptyHoldsNothing(id: string)
    ensures Holder(map[], id) == None
  {
  }

  lemma FirstRow(job: Job, item: Item, q: Progress)
    requires job.strategy.Update? && Imports(item) && Next(job, Start, item, q)
    ensures q.rows.Keys == {0} && q.tally.touched == {0} && q.tally.success == 1
    ensures Carries(q.rows[0], item.target.value)
  {
    var found, id := ImportStep(job, Start, item, q);
    EmptyHoldsNothing(item.target.value.surveyId);
    EmptyHoldsNothing(item.rawSurveyId);
    assert found.None?;
  }

  lemma SecondRow(job: Job, item: Item, p: Progress, q: Progress, earlier: Target)
    requires job.strategy.Update? && Imports(item) && Next(job, p, item, q) && Inv(job, p)
    requires p.rows.Keys == {0} && p.tally.touched == {0} && p.tally.success == 1
    requires Carries(p.rows[0], earlier)
    requires item.rawSurveyId == earlier.surveyId != item.target.value.surveyId
    ensures q.tally.success == 2 && q.tally.touched == {0} && q.rows.Keys == {0}
    ensures Holder(q.rows, earlier.surveyId).None? && Holder(q.rows, item.target.value.surveyId).Some?
  {
    assert Holder(p.rows, item.target.value.surveyId).None?;
    assert HasRecord(p, earlier);
    RepeatedRawIdCollapses(job, p, item, q, earlier);
    var _, id := ImportStep(job, p, item, q);
    assert Holds(q.rows, id, item.target.value.surveyId);
  }

  /** Two rows with one raw id, the canonical id of the first. */
  lemma TwoRows(job: Job, items: seq<Item>, states: seq<Progress>)
    requires job.strategy.Update? && |items| == 2 && Imports(items[0]) && Imports(items[1])
    requires items[1].rawSurveyId == items[0].target.value.surveyId != items[1].target.value.surveyId
    requires IsRun(job, items, states) && states[0] == Start
    ensures
      var end := states[2];
      && end.tally.success == 2 && end.tally.touched == {0} && end.rows.Keys == {0}
      && Holder(end.rows, items[0].target.value.surveyId).None?
      && Holder(end.rows, items[1].target.value.surveyId).Some?
  {
    RunStep(job, items, states, 0);
    RunStep(job, items, states, 1);
    RunKeeps(job, items, states, 1);
    FirstRow(job, items[0], states[1]);
    SecondRow(job, items[1], states[1], states[2], items[0].target.value);
  }

  /** Both rows of the sheet succeed; afterwards there is one record, and it is the second row's. */
  lemma TwoRowsOneRecord(items: seq<Item>, states: seq<Progress>)
    requires items == ReadSheet(Job1, Sheet) && IsRun(Job1, items, states) && states[0] == Start
    ensures
      var end := states[2];
      && end.tally.success == 2 && end.tally.touched == {0} && end.rows.Keys == {0}
      && Holder(end.rows, FirstId).None? && Holder(end.rows, SecondId).Some?
  {
    SheetItems(items);
    TwoRows(Job1, items, states);
  }

  lemma SheetItems(items: seq<Item>)
    requires items == ReadSheet(Job1, Sheet)
    ensures |items| == 2 && Imports(items[0]) && Imports(items[1]) && items[1].rawSurveyId == FirstId
    ensures items[0].target.value.surveyId == FirstId && items[1].target.value.surveyId == SecondId != FirstId
  {
    IdentifyAt('1');
    IdentifyAt('2');
    Targets();
    assert "1" == ['1'] && "2" == ['2'];
    assert items[0] == ReadRow(Job1, Row("1")) && items[1] == ReadRow(Job1, Row("2"));
  }

  /** There is such a run. */
  lemma TwoRowRun() returns (items: seq<Item>, states: seq<Progress>)
    ensures items == ReadSheet(Job1, Sheet) && IsRun(Job1, items, states) && states[0] == Start
  {
    items := ReadSheet(Job1, Sheet);
    var first := AnyStep(Start, items[0]);
    var second := AnyStep(first, items[1]);
    states := [Start, first, second];
  }

  /** Every row can be handled: some answer of the duplicate lookup always exists. */
  lemma AnyStep(p: Progress, item: Item) returns (q: Progress)
    ensures Next(Job1, p, item, q)
  {
    var found := None;
    if Imports(item) {
      var target := item.target.value;
      if Holder(p.rows, target.surveyId).Some? {
        found := Holder(p.rows, target.surveyId);
      } else if item.rawSurveyId != target.surveyId && Holder(p.rows, item.rawSurveyId).Some? {
        found := Holder(p.rows, item.rawSurveyId);
      } else if id :| SamePlace(p.rows, id, target) {
        found := Some(id);
      }
    }
    assert Fits(p.rows, item, found);
    q := Handle(Job1, p, item, found);
  }
}
