/** What a receipt shows under each name, from the amounts of its snapshot. */
module ReceiptRows {
  import opened Common
  import opened Receipts
  import opened Text

  /** What a head of the given due holds once x paise have reached it. */
  function Filled(due: int, x: int): int {
    Min(due, Max(0, x))
  }

  /** The dues by name: the rebate lowers the property tax only. */
  datatype Dues = Dues(arrears: int, property: int, water: int, drainage: int, penalty: int) {
    function BeforeWater(): int { arrears + property }

    function BeforeDrainage(): int { arrears + property + water }

    function BeforePenalty(): int { arrears + property + water + drainage }

    function All(): int { arrears + property + water + drainage + penalty }
  }

  function DuesOf(input: AllocationInput): Dues {
    Dues(
      Max(0, input.arrears),
      Max(0, input.propertyTax - (if input.rebate < 0 then -input.rebate else input.rebate)),
      Max(0, input.waterTax),
      Max(0, input.drainageTax),
      Max(0, input.penalty))
  }

  /** What was paid before this payment, and this payment. */
  function Earlier(input: AllocationInput): int {
    Max(0, input.amountPaidAfter - input.amountReceived)
  }

  function Paid(input: AllocationInput): int {
    Max(0, input.amountReceived)
  }

  /** What a head that starts after `start` paise gets of the payment. */
  function Portion(input: AllocationInput, start: int, due: int): int {
    Filled(due, Earlier(input) + Paid(input) - start) - Filled(due, Earlier(input) - start)
  }

  /** What the dues cannot take, or a negative receipt. */
  function Excess(input: AllocationInput): int {
    var all := DuesOf(input).All();
    input.amountReceived - (Min(Earlier(input) + Paid(input), all) - Min(Earlier(input), all))
  }

  /** Some of the head was still due before the payment. */
  predicate Open(input: AllocationInput, start: int, due: int) {
    Filled(due, Earlier(input) - start) < due
  }

  lemma PrefixOfFive(dues: seq<int>)
    requires |dues| == 5
    ensures Prefix(dues, 0) == 0 && Prefix(dues, 1) == dues[0] && Prefix(dues, 2) == dues[0] + dues[1]
    ensures Prefix(dues, 3) == dues[0] + dues[1] + dues[2]
    ensures Prefix(dues, 4) == dues[0] + dues[1] + dues[2] + dues[3]
    ensures Total(dues) == dues[0] + dues[1] + dues[2] + dues[3] + dues[4]
  {
    assert Prefix(dues, 1) == dues[0];
    assert Prefix(dues, 2) == dues[0] + dues[1];
    assert Prefix(dues, 3) == dues[0] + dues[1] + dues[2];
    assert Prefix(dues, 4) == dues[0] + dues[1] + dues[2] + dues[3];
  }

  lemma HeadsByName(input: AllocationInput)
    ensures var d := DuesOf(input);
            HeadDues(input) == [d.arrears, d.property, d.water, d.drainage, d.penalty]
            && PaidBefore(input) == Earlier(input)
  {
  }

  lemma ShareAt(input: AllocationInput, h: nat, start: int)
    requires h < HEADS && start == Prefix(HeadDues(input), h)
    ensures Shares(HeadDues(input), PaidBefore(input), Paid(input))[h] == Portion(input, start, HeadDues(input)[h])
  {
  }

  lemma SharesByName(input: AllocationInput)
    ensures var d, shares := DuesOf(input), Shares(HeadDues(input), PaidBefore(input), Paid(input));
            && shares[ARREARS] == Portion(input, 0, d.arrears)
            && shares[PROPERTY] == Portion(input, d.arrears, d.property)
            && shares[WATER] == Portion(input, d.BeforeWater(), d.water)
            && shares[DRAINAGE] == Portion(input, d.BeforeDrainage(), d.drainage)
            && shares[PENALTY] == Portion(input, d.BeforePenalty(), d.penalty)
  {
    var d := DuesOf(input);
    HeadsByName(input);
    PrefixOfFive(HeadDues(input));
    ShareAt(input, ARREARS, 0);
    ShareAt(input, PROPERTY, d.arrears);
    ShareAt(input, WATER, d.BeforeWater());
    ShareAt(input, DRAINAGE, d.BeforeDrainage());
    ShareAt(input, PENALTY, d.BeforePenalty());
  }

  lemma ExcessByName(input: AllocationInput)
    ensures input.amountReceived - Total(Shares(HeadDues(input), PaidBefore(input), Paid(input))) == Excess(input)
  {
    HeadsByName(input);
    PrefixOfFive(HeadDues(input));
    ShareTotal(HeadDues(input), PaidBefore(input), Paid(input));
  }

  lemma TakesByName(input: AllocationInput, h: nat, start: int)
    requires h < HEADS && start == Prefix(HeadDues(input), h)
    ensures TakesRemainder(HeadDues(input), PaidBefore(input), Paid(input), h)
       <==> Open(input, start, HeadDues(input)[h])
  {
  }

  /** The head the excess goes to: the last one still open before the payment, property tax if none of the others. */
  lemma ExcessHead(input: AllocationInput)
    ensures
      var d, h := DuesOf(input), RemainderHead(HeadDues(input), PaidBefore(input), Paid(input));
      h == if Open(input, d.BeforePenalty(), d.penalty) then PENALTY
           else if Open(input, d.BeforeDrainage(), d.drainage) then DRAINAGE
           else if Open(input, d.BeforeWater(), d.water) then WATER
           else PROPERTY
  {
    HeadsByName(input);
    PrefixOfFive(HeadDues(input));
    var d := DuesOf(input);
    TakesByName(input, PENALTY, d.BeforePenalty());
    TakesByName(input, DRAINAGE, d.BeforeDrainage());
    TakesByName(input, WATER, d.BeforeWater());
  }

  /**
   * Every receipt, name by name: arrears take what comes first, then property tax net of the rebate, water, drainage
   * and penalty; an excess goes to the last of penalty, drainage and water that was still open, else to property tax.
   */
  lemma RowIs(input: AllocationInput)
    ensures
      var d, row, x := DuesOf(input), RowOf(input), Excess(input);
      var toPenalty := Open(input, d.BeforePenalty(), d.penalty);
      var toDrainage := !toPenalty && Open(input, d.BeforeDrainage(), d.drainage);
      var toWater := !toPenalty && !toDrainage && Open(input, d.BeforeWater(), d.water);
      && row.arrearsApplied == Portion(input, 0, d.arrears)
      && row.propertyTax
         == Portion(input, d.arrears, d.property) + (if toPenalty || toDrainage || toWater then 0 else x)
      && row.waterTax == Portion(input, d.BeforeWater(), d.water) + (if toWater then x else 0)
      && row.drainageTax == Portion(input, d.BeforeDrainage(), d.drainage) + (if toDrainage then x else 0)
      && row.penaltyAndInterest == Portion(input, d.BeforePenalty(), d.penalty) + (if toPenalty then x else 0)
      && row.amountApplied == input.amountReceived && row.yearBalanceAfter == Max(0, input.outstandingAfter)
  {
    SharesByName(input);
    ExcessByName(input);
    ExcessHead(input);
    AmountAppliedIsReceived(HeadDues(input), PaidBefore(input), input.amountReceived);
  }

  /** The year's name, a dash where it has none. */
  lemma LabelIs(input: AllocationInput)
    ensures RowOf(input).yearLabel
         == if input.assessmentYearName.Some? && Trim(input.assessmentYearName.value) != "" then
              Trim(input.assessmentYearName.value)
            else "\U{2014}"
  {
    assert Trim("") == "";
  }

  lemma RowAddsUp(input: AllocationInput)
    ensures var row := RowOf(input);
            row.arrearsApplied + row.propertyTax + row.waterTax + row.drainageTax + row.penaltyAndInterest
            == input.amountReceived
  {
    var applied := Allocation(HeadDues(input), PaidBefore(input), input.amountReceived);
    AmountAppliedIsReceived(HeadDues(input), PaidBefore(input), input.amountReceived);
    PrefixOfFive(applied);
  }

  predicate WithinDues(input: AllocationInput) {
    0 <= input.amountReceived && Earlier(input) + input.amountReceived <= DuesOf(input).All()
  }

  lemma PortionBounds(input: AllocationInput, start: int, due: int)
    requires 0 <= due
    ensures 0 <= Portion(input, start, due) <= due
    ensures Portion(input, start, due) > 0 ==> start < Earlier(input) + Paid(input)
  {
  }

  lemma NoExcess(input: AllocationInput)
    requires WithinDues(input)
    ensures Excess(input) == 0
  {
  }

  /**
   * Within the dues each name shows the part of its own due that the payment reaches: no more than was open, and
   * nothing before everything in front of it is full.
   */
  lemma RowWithinDues(input: AllocationInput)
    requires WithinDues(input)
    ensures
      var d, row, b, p := DuesOf(input), RowOf(input), Earlier(input), input.amountReceived;
      && row.arrearsApplied == Min(d.arrears, b + p) - Min(d.arrears, b)
      && 0 <= row.arrearsApplied <= d.arrears && 0 <= row.propertyTax <= d.property
      && 0 <= row.waterTax <= d.water && 0 <= row.drainageTax <= d.drainage && 0 <= row.penaltyAndInterest <= d.penalty
      && (row.propertyTax > 0 ==> d.arrears < b + p)
      && (row.waterTax > 0 ==> d.arrears + d.property < b + p)
      && (row.drainageTax > 0 ==> d.arrears + d.property + d.water < b + p)
      && (row.penaltyAndInterest > 0 ==> d.arrears + d.property + d.water + d.drainage < b + p)
      && row.arrearsApplied + row.propertyTax + row.waterTax + row.drainageTax + row.penaltyAndInterest == p
  {
    var d := DuesOf(input);
    RowIs(input);
    NoExcess(input);
    PortionBounds(input, 0, d.arrears);
    PortionBounds(input, d.arrears, d.property);
    PortionBounds(input, d.BeforeWater(), d.water);
    PortionBounds(input, d.BeforeDrainage(), d.drainage);
    PortionBounds(input, d.BeforePenalty(), d.penalty);
    RowAddsUp(input);
  }

  /** 300 rupees of arrears before 1000 of property tax and 50 of penalty: the first 300 paid are arrears. */
  lemma ArrearsComeFirst()
    ensures
      var row := RowOf(AllocationInput(100000, 0, 0, 5000, 0, 30000, 30000, 30000, 105000, None));
      && row.arrearsApplied == 30000 && row.propertyTax == 0 && row.waterTax == 0 && row.drainageTax == 0
      && row.penaltyAndInterest == 0
  {
    RowWithinDues(AllocationInput(100000, 0, 0, 5000, 0, 30000, 30000, 30000, 105000, None));
  }
}
