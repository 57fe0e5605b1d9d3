/** From a survey to its counter receipt: the engine's taxes are what the receipt laws ask of them. */
module ReceiptBridge {
  import opened LedgerModel
  import opened LedgerRuns
  import opened LedgerLaws
  import Counter = CounterPayments
  import Ward = WardPublication
  import A = Assessment
  import R = Receipts
  import ReceiptLaws
  import Tax
  import TaxLaws

  predicate SaneInput(survey: Tax.Survey, table: Tax.RateTable) {
    TaxLaws.SaneRates(table) && TaxLaws.SaneAreas(survey.floors)
  }

  /** The base of an assessment that comes from the engine is never negative in any head. */
  lemma EngineBaseIsSane(survey: Tax.Survey, table: Tax.RateTable)
    requires SaneInput(survey, table)
    ensures A.SaneBase(Ward.BaseOf(survey, table))
  {
    TaxLaws.ExportTaxNonNegative(survey, table);
  }

  /** The receipt heads of an assessed survey cover what is payable. */
  lemma SurveyHeadsCoverPayable(
    survey: Tax.Survey, table: Tax.RateTable, rules: seq<A.Rule>, arrears: int, amountPaid: int)
    requires SaneInput(survey, table) && A.SaneRules(rules)
    ensures var a := A.Assess(Ward.BaseOf(survey, table), rules, arrears, amountPaid);
            R.Total(ReceiptLaws.HeadsOfAssessment(a)) >= a.totalPayable
  {
    EngineBaseIsSane(survey, table);
    ReceiptLaws.HeadsCoverPayable(Ward.BaseOf(survey, table), rules, arrears, amountPaid);
  }

  ghost predicate AllUseRates(steps: seq<Step>, rates: Rates) {
    forall k :: 0 <= k < |steps| ==> UsesRates(steps[k], rates)
  }

  /**
   * After any run at unchanged rates whose base taxes the engine computed, the snapshot of every counter payment
   * recovers the outstanding the clerk saw, and its receipt needs no remainder.
   */
  lemma SurveyReceiptFits(
    stores: seq<Store>, steps: seq<Step>, i: nat, clerk: string, reference: string, now: nat, rates: Rates,
    survey: Tax.Survey, table: Tax.RateTable)
    requires IsRun(stores, steps) && stores[0] == Empty && i < |stores| && AllUseRates(steps, rates)
    requires clerk in stores[i].counter && Counter.Commits(stores[i], stores[i].counter[clerk], reference)
    requires rates.base(stores[i].counter[clerk].key) == Ward.BaseOf(survey, table) && SaneInput(survey, table)
    requires A.SaneRules(rates.rules(stores[i].counter[clerk].key.yearId))
    ensures ReceiptFits(stores[i], clerk, reference, now)
  {
    RunKeepsRecomputed(stores, steps, rates, i);
    EngineBaseIsSane(survey, table);
    CounterReceiptFits(stores[i], clerk, reference, now, rates);
  }
}
