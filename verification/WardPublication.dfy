/** Publishing a whole ward: the paging, what it leaves in the ledger, and what it leaves alone. */
module WardPublication {
  import opened Common
  import opened LedgerModel
  import opened LedgerRuns
  import opened LedgerLaws
  import Pub = Publication
  import YearEnd
  import YearEndLaws
  import A = Assessment
  import Tax
  import Text

  const BATCH_SIZE: nat := 100

  /** Zone texts are mapped to one of four codes, or to the lowest zone, before the engine sees them. */
  predicate ZoneResolved(survey: Tax.Survey) {
    survey.zoneCode != "" && Text.Trim(survey.zoneCode) == survey.zoneCode
  }

  function BaseOf(survey: Tax.Survey, rates: Tax.RateTable): A.TaxBase {
    var t := Tax.ExportTax(survey, rates);
    A.TaxBase(t.propertyTax, t.waterTax, t.drainageTax, t.penalty)
  }

  /** The surveys the loop is given can be assessed. */
  ghost predicate Assessable(ids: seq<string>, surveys: map<string, Tax.Survey>) {
    forall id {:trigger id in surveys} {:trigger surveys[id]} :: id in ids
        ==> id in surveys && ZoneResolved(surveys[id])
  }

  ghost predicate BasesFrom(
    ids: seq<string>, surveys: map<string, Tax.Survey>, table: Tax.RateTable, bases: map<string, A.TaxBase>)
  {
    forall id {:trigger BaseOf(surveys[id], table)} :: id in ids && id in surveys ==>
      id in bases && bases[id] == BaseOf(surveys[id], table)
  }

  /** The base taxes the engine computes for the surveys. */
  ghost function BasesOf(
    ids: seq<string>, surveys: map<string, Tax.Survey>, table: Tax.RateTable): map<string, A.TaxBase>
  {
    map id | id in ids && id in surveys :: BaseOf(surveys[id], table)
  }

  lemma BasesOfFrom(ids: seq<string>, surveys: map<string, Tax.Survey>, table: Tax.RateTable)
    requires Assessable(ids, surveys)
    ensures Bases(ids, BasesOf(ids, surveys, table)) && BasesFrom(ids, surveys, table, BasesOf(ids, surveys, table))
  {
    forall i | 0 <= i < |ids| ensures ids[i] in BasesOf(ids, surveys, table) {
      assert ids[i] in surveys;
    }
  }

  // ---- Paging ----

  function IndexOf(ids: seq<string>, id: string): (i: nat)
    ensures i <= |ids|
    ensures i < |ids| ==> ids[i] == id
    ensures forall j :: 0 <= j < i ==> ids[j] != id
  {
    if ids == [] || ids[0] == id then 0 else 1 + IndexOf(ids[1..], id)
  }

  /** `take: 100`, and with a cursor `skip: 1` from the row of that id on. */
  function Page(ids: seq<string>, cursor: Option<string>): (page: seq<string>)
    ensures |page| <= BATCH_SIZE
  {
    var start := if cursor.None? then 0 else Min(IndexOf(ids, cursor.value) + 1, |ids|);
    ids[start..Min(start + BATCH_SIZE, |ids|)]
  }

  /** The page after the last id served starts at the first id not served. */
  lemma PageAfter(ids: seq<string>, cursor: Option<string>, done: nat)
    requires YearEnd.Distinct(ids) && done <= |ids|
    requires cursor == if done == 0 then None else Some(ids[done - 1])
    ensures Page(ids, cursor) == ids[done..Min(done + BATCH_SIZE, |ids|)]
  {
    if done > 0 {
      var i := IndexOf(ids, ids[done - 1]);
      assert i == done - 1;
    }
  }

  // ---- The ledger after a ward was published ----

  /** The first n surveys of the ward with their base taxes, each upserted with its arrears preserved. */
  ghost function PublishAll(
    s: Store, ids: seq<string>, n: nat, bases: map<string, A.TaxBase>, yearId: string, rules: seq<A.Rule>): Store
    requires n <= |ids| && Bases(ids, bases)
  {
    if n == 0 then s
    else
      Pub.Upsert(
        PublishAll(s, ids, n - 1, bases, yearId, rules),
        DemandKey(ids[n - 1], yearId), bases[ids[n - 1]], rules, true)
  }

  /** One survey's turn as a function of the ledger. */
  type Turn = (Store, string) -> Store

  ghost function Turns(s: Store, ids: seq<string>, n: nat, turn: Turn): Store
    requires n <= |ids|
  {
    if n == 0 then s else turn(Turns(s, ids, n - 1, turn), ids[n - 1])
  }

  /** The turn that upserts a survey's demand with its arrears preserved. */
  ghost predicate Upserts(turn: Turn, bases: map<string, A.TaxBase>, yearId: string, rules: seq<A.Rule>) {
    forall s: Store, id: string {:trigger Pub.Upsert(s, DemandKey(id, yearId), bases[id], rules, true)} ::
      id in bases ==> turn(s, id) == Pub.Upsert(s, DemandKey(id, yearId), bases[id], rules, true)
  }

  ghost function UpsertTurn(bases: map<string, A.TaxBase>, yearId: string, rules: seq<A.Rule>): (turn: Turn)
    ensures Upserts(turn, bases, yearId, rules)
  {
    (s: Store, id: string) =>
      if id in bases then Pub.Upsert(s, DemandKey(id, yearId), bases[id], rules, true) else s
  }

  lemma {:induction false} TurnsPublishAll(
    s: Store, ids: seq<string>, n: nat, turn: Turn, bases: map<string, A.TaxBase>, yearId: string, rules: seq<A.Rule>)
    requires n <= |ids| && Bases(ids, bases) && Upserts(turn, bases, yearId, rules)
    ensures Turns(s, ids, n, turn) == PublishAll(s, ids, n, bases, yearId, rules)
  {
    if n > 0 {
      TurnsPublishAll(s, ids, n - 1, turn, bases, yearId, rules);
    }
  }

  /** How many of the first n surveys have no demand for the year. */
  function MissingCount(demands: Demands, ids: seq<string>, n: nat, yearId: string): nat
    requires n <= |ids|
  {
    if n == 0 then 0
    else MissingCount(demands, ids, n - 1, yearId) + (if DemandKey(ids[n - 1], yearId) in demands then 0 else 1)
  }

  ghost predicate Bases(ids: seq<string>, bases: map<string, A.TaxBase>) {
    forall i :: 0 <= i < |ids| ==> ids[i] in bases
  }

  /** The row an upsert writes depends on that row and the payments only, and no other row changes. */
  lemma UpsertRow(s: Store, s': Store, key: DemandKey, base: A.TaxBase, rules: seq<A.Rule>)
    requires s' == s.(demands := s'.demands) && YearEndLaws.Row(s'.demands, key) == YearEndLaws.Row(s.demands, key)
    ensures var after := Pub.Upsert(s', key, base, rules, true);
            && after == s.(demands := after.demands)
            && key in after.demands && after.demands[key] == Pub.Upsert(s, key, base, rules, true).demands[key]
            && forall other :: other != key
                ==> YearEndLaws.Row(after.demands, other) == YearEndLaws.Row(s'.demands, other)
  {
  }

  /** What `key` holds once the first n surveys are published, starting from `s`. */
  ghost predicate PublishedAt(
    s: Store, s': Store, ids: seq<string>, n: nat, bases: map<string, A.TaxBase>, yearId: string, rules: seq<A.Rule>,
    key: DemandKey)
    requires n <= |ids| && Bases(ids, bases)
  {
    && s' == s.(demands := s'.demands)
    && YearEndLaws.Row(s'.demands, key)
       == if key.yearId == yearId && key.surveyId in ids[..n] then
            Some(Pub.Upsert(s, key, bases[key.surveyId], rules, true).demands[key])
          else YearEndLaws.Row(s.demands, key)
  }

  lemma PublishNext(
    s: Store, s': Store, ids: seq<string>, n: nat, bases: map<string, A.TaxBase>, yearId: string, rules: seq<A.Rule>,
    key: DemandKey)
    requires YearEnd.Distinct(ids) && n < |ids| && Bases(ids, bases)
    requires PublishedAt(s, s', ids, n, bases, yearId, rules, key)
    requires PublishedAt(s, s', ids, n, bases, yearId, rules, DemandKey(ids[n], yearId))
    ensures PublishedAt(
              s, Pub.Upsert(s', DemandKey(ids[n], yearId), bases[ids[n]], rules, true), ids, n + 1, bases, yearId,
              rules, key)
  {
    assert ids[..n + 1] == ids[..n] + [ids[n]];
    assert ids[n] !in ids[..n];
    UpsertRow(s, s', DemandKey(ids[n], yearId), bases[ids[n]], rules);
  }

  /** Each demand of the ward is written once, from its own row and payments; nothing else is written. */
  lemma {:induction false} PublishAllAt(
    s: Store, ids: seq<string>, n: nat, bases: map<string, A.TaxBase>, yearId: string, rules: seq<A.Rule>,
    key: DemandKey)
    requires YearEnd.Distinct(ids) && n <= |ids| && Bases(ids, bases)
    ensures PublishedAt(s, PublishAll(s, ids, n, bases, yearId, rules), ids, n, bases, yearId, rules, key)
  {
    if n > 0 {
      PublishAllAt(s, ids, n - 1, bases, yearId, rules, key);
      PublishAllAt(s, ids, n - 1, bases, yearId, rules, DemandKey(ids[n - 1], yearId));
      PublishNext(s, PublishAll(s, ids, n - 1, bases, yearId, rules), ids, n - 1, bases, yearId, rules, key);
    }
  }

  lemma NotYetPublished(
    s: Store, ids: seq<string>, n: nat, bases: map<string, A.TaxBase>, yearId: string, rules: seq<A.Rule>)
    requires YearEnd.Distinct(ids) && n < |ids| && Bases(ids, bases)
    ensures DemandKey(ids[n], yearId) in PublishAll(s, ids, n, bases, yearId, rules).demands
            <==> DemandKey(ids[n], yearId) in s.demands
  {
    PublishAllAt(s, ids, n, bases, yearId, rules, DemandKey(ids[n], yearId));
    assert ids[n] !in ids[..n];
  }

  /**
   * After any run at unchanged rates, publishing a ward again leaves every demand that was already
   * published exactly as payments and carries had left it.
   */
  lemma WardRepublishKeepsPublished(
    stores: seq<Store>, steps: seq<Step>, env: Rates, i: nat,
    ids: seq<string>, bases: map<string, A.TaxBase>, yearId: string, rules: seq<A.Rule>, key: DemandKey)
    requires IsRun(stores, steps) && stores[0] == Empty && i < |stores|
    requires forall k :: 0 <= k < |steps| ==> UsesRates(steps[k], env)
    requires YearEnd.Distinct(ids) && Bases(ids, bases)
    requires forall id :: id in ids ==> env.base(DemandKey(id, yearId)) == bases[id]
    requires env.rules(yearId) == rules
    requires IsPublished(stores[i].demands, key)
    ensures
      var after := PublishAll(stores[i], ids, |ids|, bases, yearId, rules).demands;
      key in after && after[key] == stores[i].demands[key]
  {
    PublishAllAt(stores[i], ids, |ids|, bases, yearId, rules, key);
    assert ids[..|ids|] == ids;
    RepublishChangesNothing(stores, steps, env, i, key);
  }

  // ---- Year-end loop ----

  /** The rows carried so far do not touch the next target. */
  lemma NotYetCarried(before: Demands, fromYear: string, toYear: string, surveys: seq<string>, i: nat)
    requires YearEndLaws.AllUnpaid(before, fromYear, surveys) && YearEnd.Distinct(surveys) && i < |surveys|
    ensures
      var key := DemandKey(surveys[i], toYear);
      YearEnd.AlreadyCarried(YearEnd.CarryAll(before, before, fromYear, toYear, surveys[..i]), key, fromYear)
      <==> YearEnd.AlreadyCarried(before, key, fromYear)
  {
    YearEndLaws.CarryAllRow(before, before, fromYear, toYear, surveys[..i], DemandKey(surveys[i], toYear));
    assert surveys[i] !in surveys[..i];
  }
}
