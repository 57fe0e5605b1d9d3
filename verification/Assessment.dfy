/** `computePropertyAssessment`: published rebate and penalty rules on top of the base tax. */
module Assessment {
  import opened Common
  import opened Sums

  datatype RuleKind = Rebate | Penalty

  datatype RuleHead = Property | Water

  datatype RuleMethod = PercentOfHead | FlatAmount

  /** A flat value and a cap are paise, a percentage is a percentage. */
  datatype Rule = Rule(kind: RuleKind, head: RuleHead, method_: RuleMethod, value: real, cap: Option<real>)

  datatype TaxBase = TaxBase(propertyTax: int, waterTax: int, drainageTax: int, penalty: int)

  datatype PropertyAssessment = PropertyAssessment(
    propertyTax: int, waterTax: int, drainageTax: int, penalty: int, rebate: int,
    currentDemand: int, arrears: int, totalPayable: int, amountPaid: int, outstanding: int)

  function MinReal(a: real, b: real): real {
    if a <= b then a else b
  }

  function MaxReal(a: real, b: real): real {
    if a >= b then a else b
  }

  function HeadAdjustment(headAmount: int, rule: Rule): int {
    if headAmount <= 0 then 0
    else
      var raw :=
        if rule.method_ == FlatAmount then MaxReal(0.0, rule.value)
        else PercentOf(headAmount, rule.value) as real;
      var capped := if rule.cap.Some? then MinReal(raw, MaxReal(0.0, rule.cap.value)) else raw;
      RoundPaise(MinReal(capped, headAmount as real))
  }

  /** Rule values are validated to be at least 0 before they are stored. */
  predicate SaneRules(rules: seq<Rule>) {
    forall i :: 0 <= i < |rules| ==> rules[i].value >= 0.0
  }

  predicate SaneBase(base: TaxBase) {
    0 <= base.propertyTax && 0 <= base.waterTax && 0 <= base.drainageTax && 0 <= base.penalty
  }

  /** A rule moves a head by at most the head, and never below zero. */
  lemma HeadAdjustmentBounds(headAmount: int, rule: Rule)
    requires rule.value >= 0.0
    ensures 0 <= HeadAdjustment(headAmount, rule) <= Max(0, headAmount)
  {
    if headAmount > 0 {
      PercentOfNonNegative(headAmount, rule.value);
      RoundWhole(headAmount);
    }
  }

  function HeadOf(base: TaxBase, head: RuleHead): int {
    if head == Water then base.waterTax else base.propertyTax
  }

  function RebateOf(base: TaxBase): Rule -> int {
    (rule: Rule) => if rule.kind == Rebate then HeadAdjustment(HeadOf(base, rule.head), rule) else 0
  }

  predicate IsPenaltyOn(rule: Rule, head: RuleHead) {
    rule.kind == Penalty && rule.head == head
  }

  function PenaltyOf(base: TaxBase, head: RuleHead): Rule -> int {
    (rule: Rule) => if IsPenaltyOn(rule, head) then HeadAdjustment(HeadOf(base, head), rule) else 0
  }

  predicate HasPropertyPenalty(rules: seq<Rule>) {
    exists i :: 0 <= i < |rules| && IsPenaltyOn(rules[i], Property)
  }

  function TotalRebate(base: TaxBase, rules: seq<Rule>): int {
    SumBy(rules, RebateOf(base))
  }

  /** A published property penalty replaces the one of the tax configuration. */
  function TotalPenalty(base: TaxBase, rules: seq<Rule>): int {
    (if HasPropertyPenalty(rules) then SumBy(rules, PenaltyOf(base, Property)) else base.penalty)
    + SumBy(rules, PenaltyOf(base, Water))
  }

  function Assess(base: TaxBase, rules: seq<Rule>, arrears: int, amountPaid: int): (a: PropertyAssessment)
    ensures a.outstanding == Max(0, a.totalPayable - a.amountPaid)
    ensures a.totalPayable == a.currentDemand + a.arrears
    ensures a.arrears >= 0 && a.currentDemand >= 0 && a.amountPaid >= 0
  {
    var rebate, penalty := TotalRebate(base, rules), TotalPenalty(base, rules);
    var currentDemand := Max(0, base.propertyTax + base.waterTax + base.drainageTax + penalty - rebate);
    var due, paid := Max(0, arrears), Max(0, amountPaid);
    PropertyAssessment(
      base.propertyTax, base.waterTax, base.drainageTax, penalty, rebate, currentDemand,
      due, currentDemand + due, paid, Max(0, currentDemand + due - paid))
  }

  /** No rule produces a negative rebate or penalty. */
  lemma AssessedAmountsNonNegative(base: TaxBase, rules: seq<Rule>)
    requires SaneBase(base) && SaneRules(rules)
    ensures TotalRebate(base, rules) >= 0 && TotalPenalty(base, rules) >= 0
  {
    forall i | 0 <= i < |rules|
      ensures RebateOf(base)(rules[i]) >= 0
      ensures PenaltyOf(base, Property)(rules[i]) >= 0
      ensures PenaltyOf(base, Water)(rules[i]) >= 0
    {
      HeadAdjustmentBounds(base.propertyTax, rules[i]);
      HeadAdjustmentBounds(base.waterTax, rules[i]);
    }
    SumByNonNegative(rules, RebateOf(base));
    SumByNonNegative(rules, PenaltyOf(base, Property));
    SumByNonNegative(rules, PenaltyOf(base, Water));
  }

  method ComputePropertyAssessment(base: TaxBase, rules: seq<Rule>, arrears: int, amountPaid: int)
    returns (a: PropertyAssessment)
    ensures a == Assess(base, rules, arrears, amountPaid)
  {
    var rebate := 0;
    for i := 0 to |rules|
      invariant rebate == SumBy(rules[..i], RebateOf(base))
    {
      SumByTakeNext(rules, i, RebateOf(base));
      if rules[i].kind != Rebate {
        continue;
      }
      var head := if rules[i].head == Water then base.waterTax else base.propertyTax;
      rebate := rebate + HeadAdjustment(head, rules[i]);
    }

    var penalty, replaced := 0, false;
    for i := 0 to |rules|
      invariant penalty == SumBy(rules[..i], PenaltyOf(base, Property))
      invariant replaced <==> exists j :: 0 <= j < i && IsPenaltyOn(rules[j], Property)
    {
      SumByTakeNext(rules, i, PenaltyOf(base, Property));
      if IsPenaltyOn(rules[i], Property) {
        penalty, replaced := penalty + HeadAdjustment(base.propertyTax, rules[i]), true;
      }
    }
    if !replaced {
      penalty := base.penalty;
    }

    ghost var propertyPenalty := penalty;
    for i := 0 to |rules|
      invariant penalty == propertyPenalty + SumBy(rules[..i], PenaltyOf(base, Water))
    {
      SumByTakeNext(rules, i, PenaltyOf(base, Water));
      if IsPenaltyOn(rules[i], Water) {
        penalty := penalty + HeadAdjustment(base.waterTax, rules[i]);
      }
    }
    assert rules[..|rules|] == rules;

    var currentDemand := Max(0, base.propertyTax + base.waterTax + base.drainageTax + penalty - rebate);
    var totalPayable := currentDemand + Max(0, arrears);
    var paid := Max(0, amountPaid);
    a := PropertyAssessment(
      base.propertyTax, base.waterTax, base.drainageTax, penalty, rebate, currentDemand,
      Max(0, arrears), totalPayable, paid, Max(0, totalPayable - paid));
  }
}
