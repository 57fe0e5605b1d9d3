/** Publishing demands: `upsertPublishedDemandForSurvey`. */
module Publication {
  import opened Common
  import opened LedgerModel
  import A = Assessment

  function PublishedDemand(a: A.PropertyAssessment, rows: map<string, int>): Demand {
    Demand(
      Published, a.propertyTax, a.waterTax, a.drainageTax, a.penalty, a.rebate,
      a.arrears, a.currentDemand, a.totalPayable, a.amountPaid, a.outstanding, rows)
  }

  function RowsOf(demands: Demands, key: DemandKey): map<string, int> {
    if key in demands then demands[key].rows else map[]
  }

  function PreservedArrears(demands: Demands, key: DemandKey, preserveArrears: bool): int {
    if preserveArrears && key in demands then demands[key].arrears else 0
  }

  /** Arrear rows are left alone, whether or not the arrears column is preserved. */
  ghost function Upsert(s: Store, key: DemandKey, base: A.TaxBase, rules: seq<A.Rule>, preserveArrears: bool): Store {
    var a := A.Assess(base, rules, PreservedArrears(s.demands, key, preserveArrears), PaidFor(s.payments, key));
    s.(demands := s.demands[key := PublishedDemand(a, RowsOf(s.demands, key))])
  }
}
