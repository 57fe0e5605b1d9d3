/** What each published rule does to an assessment, field by field. */
module RuleLaws {
  import opened Common
  import opened Sums
  import opened Assessment

  /** What a rule asks for: its flat value, or its percentage of the head in whole paise. */
  function Asked(head: int, rule: Rule): real {
    match rule.method_
    case FlatAmount => if rule.value < 0.0 then 0.0 else rule.value
    case PercentOfHead => PercentOf(head, rule.value) as real
  }

  /** The cap or the head, whichever is less. */
  function Limit(head: real, cap: Option<real>): real {
    if cap.None? || cap.value >= head then head
    else if cap.value < 0.0 then 0.0
    else cap.value
  }

  /** What a rule takes of a head. */
  function Taken(head: int, rule: Rule): int {
    if head <= 0 then 0
    else if Asked(head, rule) <= Limit(head as real, rule.cap) then RoundPaise(Asked(head, rule))
    else RoundPaise(Limit(head as real, rule.cap))
  }

  lemma CappedIsLimited(raw: real, head: real, cap: Option<real>)
    requires head > 0.0
    ensures MinReal(if cap.Some? then MinReal(raw, MaxReal(0.0, cap.value)) else raw, head)
         == if raw <= Limit(head, cap) then raw else Limit(head, cap)
  {
  }

  /** The adjustment, once what the rule asks for is known. */
  function Adjusted(raw: real, head: int, cap: Option<real>): int {
    RoundPaise(MinReal(if cap.Some? then MinReal(raw, MaxReal(0.0, cap.value)) else raw, head as real))
  }

  lemma AdjustmentOfPercent(head: int, rule: Rule, percent: int)
    requires head > 0 && rule.method_ == PercentOfHead && percent == PercentOf(head, rule.value)
    ensures HeadAdjustment(head, rule) == Adjusted(percent as real, head, rule.cap)
  {
  }

  lemma AdjustmentOfFlat(head: int, rule: Rule)
    requires head > 0 && rule.method_ == FlatAmount
    ensures HeadAdjustment(head, rule) == Adjusted(if rule.value < 0.0 then 0.0 else rule.value, head, rule.cap)
  {
  }

  lemma AdjustmentOfAsked(head: int, rule: Rule)
    requires head > 0
    ensures HeadAdjustment(head, rule) == Adjusted(Asked(head, rule), head, rule.cap)
  {
    match rule.method_
    case PercentOfHead => AdjustmentOfPercent(head, rule, PercentOf(head, rule.value));
    case FlatAmount => AdjustmentOfFlat(head, rule);
  }

  lemma AdjustedIsLimited(raw: real, head: int, cap: Option<real>)
    requires head > 0
    ensures Adjusted(raw, head, cap)
         == if raw <= Limit(head as real, cap) then RoundPaise(raw) else RoundPaise(Limit(head as real, cap))
  {
    CappedIsLimited(raw, head as real, cap);
  }

  lemma AdjustmentIsTaken(head: int, rule: Rule)
    ensures HeadAdjustment(head, rule) == Taken(head, rule)
  {
    if head > 0 {
      AdjustmentOfAsked(head, rule);
      AdjustedIsLimited(Asked(head, rule), head, rule.cap);
    }
  }

  lemma SumByAppend<T>(xs: seq<T>, x: T, f: T -> int)
    ensures SumBy(xs + [x], f) == SumBy(xs, f) + f(x)
  {
    assert (xs + [x])[..|xs|] == xs;
  }

  // ---- Without rules ----

  /** The heads are those of the base tax whatever the rules, and the current demand is made of them. */
  lemma AssessmentFields(base: TaxBase, rules: seq<Rule>, arrears: int, amountPaid: int)
    ensures
      var a := Assess(base, rules, arrears, amountPaid);
      && a.propertyTax == base.propertyTax && a.waterTax == base.waterTax && a.drainageTax == base.drainageTax
      && a.currentDemand == Max(0, base.propertyTax + base.waterTax + base.drainageTax + a.penalty - a.rebate)
      && a.arrears == Max(0, arrears) && a.amountPaid == Max(0, amountPaid)
      && a.totalPayable == a.currentDemand + a.arrears && a.outstanding == Max(0, a.totalPayable - a.amountPaid)
  {
  }

  lemma NoRules(base: TaxBase, arrears: int, amountPaid: int)
    ensures Assess(base, [], arrears, amountPaid).rebate == 0
    ensures Assess(base, [], arrears, amountPaid).penalty == base.penalty
  {
  }

  // ---- One rule more ----

  lemma TotalsWithOneMore(base: TaxBase, rules: seq<Rule>, rule: Rule)
    ensures TotalRebate(base, rules + [rule]) == TotalRebate(base, rules) + RebateOf(base)(rule)
    ensures SumBy(rules + [rule], PenaltyOf(base, Property))
         == SumBy(rules, PenaltyOf(base, Property)) + PenaltyOf(base, Property)(rule)
    ensures SumBy(rules + [rule], PenaltyOf(base, Water))
         == SumBy(rules, PenaltyOf(base, Water)) + PenaltyOf(base, Water)(rule)
  {
    SumByAppend(rules, rule, RebateOf(base));
    SumByAppend(rules, rule, PenaltyOf(base, Property));
    SumByAppend(rules, rule, PenaltyOf(base, Water));
  }

  predicate IsPropertyPenalty(rule: Rule) {
    rule.kind == Penalty && rule.head == Property
  }

  lemma PropertyPenaltyWithOneMore(rules: seq<Rule>, rule: Rule)
    ensures HasPropertyPenalty(rules + [rule]) <==> HasPropertyPenalty(rules) || IsPropertyPenalty(rule)
  {
    var more := rules + [rule];
    if i :| 0 <= i < |rules| && IsPenaltyOn(rules[i], Property) {
      assert more[i] == rules[i];
    }
    if IsPropertyPenalty(rule) {
      assert IsPenaltyOn(more[|rules|], Property);
    }
  }

  lemma {:induction false} NoPropertyPenaltyNoSum(base: TaxBase, rules: seq<Rule>)
    requires !HasPropertyPenalty(rules)
    ensures SumBy(rules, PenaltyOf(base, Property)) == 0
  {
    if rules != [] {
      var n := |rules| - 1;
      assert !IsPenaltyOn(rules[n], Property);
      forall i | 0 <= i < n ensures !IsPenaltyOn(rules[..n][i], Property) {
        assert !IsPenaltyOn(rules[i], Property);
      }
      NoPropertyPenaltyNoSum(base, rules[..n]);
    }
  }

  /**
   * A further rebate takes its part of the property tax or of the water tax, as its head says, and leaves the penalty;
   * a further penalty leaves the rebate.
   */
  lemma RebateAppended(base: TaxBase, rules: seq<Rule>, rule: Rule, arrears: int, amountPaid: int)
    ensures
      var before, after := Assess(base, rules, arrears, amountPaid), Assess(base, rules + [rule], arrears, amountPaid);
      match (rule.kind, rule.head)
      case (Rebate, Property) =>
        after.rebate == before.rebate + Taken(base.propertyTax, rule) && after.penalty == before.penalty
      case (Rebate, Water) =>
        after.rebate == before.rebate + Taken(base.waterTax, rule) && after.penalty == before.penalty
      case (Penalty, _) => after.rebate == before.rebate
  {
    TotalsWithOneMore(base, rules, rule);
    PropertyPenaltyWithOneMore(rules, rule);
    AdjustmentIsTaken(base.propertyTax, rule);
    AdjustmentIsTaken(base.waterTax, rule);
  }

  /**
   * The first penalty on property replaces the one of the tax configuration, later ones add to it; a penalty on water
   * always adds its part of the water tax.
   */
  lemma PenaltyAppended(base: TaxBase, rules: seq<Rule>, rule: Rule, arrears: int, amountPaid: int)
    requires rule.kind == Penalty
    ensures
      var before, after := Assess(base, rules, arrears, amountPaid), Assess(base, rules + [rule], arrears, amountPaid);
      match rule.head
      case Water => after.penalty == before.penalty + Taken(base.waterTax, rule)
      case Property =>
        if exists i :: 0 <= i < |rules| && IsPropertyPenalty(rules[i]) then
          after.penalty == before.penalty + Taken(base.propertyTax, rule)
        else after.penalty == before.penalty - base.penalty + Taken(base.propertyTax, rule)
  {
    TotalsWithOneMore(base, rules, rule);
    PropertyPenaltyWithOneMore(rules, rule);
    AdjustmentIsTaken(base.propertyTax, rule);
    AdjustmentIsTaken(base.waterTax, rule);
    if i :| 0 <= i < |rules| && IsPropertyPenalty(rules[i]) {
      assert IsPenaltyOn(rules[i], Property);
    } else {
      forall i | 0 <= i < |rules| ensures !IsPenaltyOn(rules[i], Property) {
        assert !IsPropertyPenalty(rules[i]);
      }
      NoPropertyPenaltyNoSum(base, rules);
    }
  }

  // ---- What an assessment does not depend on ----

  predicate NoRuleOn(rules: seq<Rule>, head: RuleHead) {
    forall i :: 0 <= i < |rules| ==> rules[i].head != head
  }

  lemma NoRuleOnFront(rules: seq<Rule>, n: nat, head: RuleHead)
    requires n < |rules|
    ensures NoRuleOn(rules, head) ==> NoRuleOn(rules[..n], head) && rules[n].head != head
  {
  }

  /** Without a rule on a head, rebate and penalty do not depend on the tax of that head. */
  lemma {:induction false} HeadWithoutRules(base: TaxBase, other: int, rules: seq<Rule>, arrears: int, amountPaid: int)
    ensures NoRuleOn(rules, Water) ==>
              var a, b := Assess(base, rules, arrears, amountPaid),
                          Assess(base.(waterTax := other), rules, arrears, amountPaid);
              a.rebate == b.rebate && a.penalty == b.penalty
    ensures NoRuleOn(rules, Property) ==>
              var a, b := Assess(base, rules, arrears, amountPaid),
                          Assess(base.(propertyTax := other), rules, arrears, amountPaid);
              a.rebate == b.rebate && a.penalty == b.penalty
  {
    if NoRuleOn(rules, Water) {
      SameTotals(base, base.(waterTax := other), rules);
    }
    if NoRuleOn(rules, Property) {
      SameTotals(base, base.(propertyTax := other), rules);
    }
  }

  lemma {:induction false} SameTotals(a: TaxBase, b: TaxBase, rules: seq<Rule>)
    requires a.penalty == b.penalty
    requires a.propertyTax == b.propertyTax || NoRuleOn(rules, Property)
    requires a.waterTax == b.waterTax || NoRuleOn(rules, Water)
    ensures TotalRebate(a, rules) == TotalRebate(b, rules) && TotalPenalty(a, rules) == TotalPenalty(b, rules)
  {
    var n := |rules|;
    if n > 0 {
      var front, last := rules[..n - 1], rules[n - 1];
      assert rules == front + [last];
      NoRuleOnFront(rules, n - 1, Property);
      NoRuleOnFront(rules, n - 1, Water);
      SameTotals(a, b, front);
      TotalsWithOneMore(a, front, last);
      TotalsWithOneMore(b, front, last);
      PropertyPenaltyWithOneMore(front, last);
    }
  }

  /** The order of the rules is irrelevant. */
  lemma RuleOrderIrrelevant(base: TaxBase, rules: seq<Rule>, others: seq<Rule>, arrears: int, amountPaid: int)
    requires multiset(rules) == multiset(others)
    ensures Assess(base, rules, arrears, amountPaid) == Assess(base, others, arrears, amountPaid)
  {
    SumByPermutation(rules, others, RebateOf(base));
    SumByPermutation(rules, others, PenaltyOf(base, Property));
    SumByPermutation(rules, others, PenaltyOf(base, Water));
    PenaltyOfPermutation(rules, others);
    PenaltyOfPermutation(others, rules);
  }

  lemma PenaltyOfPermutation(rules: seq<Rule>, others: seq<Rule>)
    requires multiset(rules) == multiset(others)
    ensures HasPropertyPenalty(rules) ==> HasPropertyPenalty(others)
  {
    if i :| 0 <= i < |rules| && IsPenaltyOn(rules[i], Property) {
      assert rules[i] in multiset(others);
      var j :| 0 <= j < |others| && others[j] == rules[i];
    }
  }

  /** A tenth of 1000 rupees of property tax off, with no other tax: 900 rupees to pay. */
  lemma TenPercentRebate()
    ensures
      var a := Assess(TaxBase(100000, 0, 0, 0), [Rule(Rebate, Property, PercentOfHead, 10.0, None)], 0, 0);
      a.rebate == 10000 && a.totalPayable == 90000
  {
    var base, rule := TaxBase(100000, 0, 0, 0), Rule(Rebate, Property, PercentOfHead, 10.0, None);
    assert [] + [rule] == [rule];
    NoRules(base, 0, 0);
    RebateAppended(base, [], rule, 0, 0);
    assert Taken(100000, rule) == 10000;
    AssessmentFields(base, [rule], 0, 0);
  }
}
