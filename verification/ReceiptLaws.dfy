/** From assessments and snapshots to receipts: the waterfall meets the demand it was frozen from. */
module ReceiptLaws {
  import opened Common
  import opened Receipts
  import opened OfflineRules
  import A = Assessment

  /** `outstandingBeforeFromSnapshot`; its tolerance of 0.02 is two paise. */
  function OutstandingBefore(totalPayable: int, amountPaidAfter: int, amountReceived: int, outstandingAfter: int): int {
    var paidBefore := Max(0, amountPaidAfter - amountReceived);
    var fromPayable := Max(0, totalPayable - paidBefore);
    var fromAfter := outstandingAfter + amountReceived;
    if Abs(fromPayable - fromAfter) <= 2 then fromPayable else fromAfter
  }

  /**
   * A receipt recovers the outstanding before its payment exactly when the payment
   * exceeds that outstanding by at most two paise.
   */
  lemma OutstandingBeforeIff(totalPayable: int, paidBefore: int, p: int)
    requires 0 <= paidBefore && 0 < p
    ensures
      var before := Max(0, totalPayable - paidBefore);
      var after := OutstandingAfterPayment(totalPayable, paidBefore, p);
      OutstandingBefore(totalPayable, after.amountPaid, p, after.outstanding) == before <==> p <= before + 2
  {
  }

  function HeadsOfAssessment(a: A.PropertyAssessment): (dues: seq<int>)
    ensures |dues| == HEADS && NonNegative(dues)
  {
    HeadDues(AllocationInput(
      a.propertyTax, a.waterTax, a.drainageTax, a.penalty, a.rebate, a.arrears, 0, 0, 0, None))
  }

  lemma TotalOfFive(dues: seq<int>)
    requires |dues| == HEADS
    ensures Total(dues) == dues[0] + dues[1] + dues[2] + dues[3] + dues[4]
  {
    var sum := SumOfHeads(dues);
  }

  /**
   * The receipt heads of an assessment cover what is payable. They add up to it exactly
   * unless the rebate is larger than the property tax it is taken from and some other
   * current head is due.
   */
  lemma HeadsCoverPayable(base: A.TaxBase, rules: seq<A.Rule>, arrears: int, amountPaid: int)
    requires A.SaneBase(base) && A.SaneRules(rules)
    ensures
      var a := A.Assess(base, rules, arrears, amountPaid);
      var heads := Total(HeadsOfAssessment(a));
      && heads >= a.totalPayable
      && (heads == a.totalPayable
          <==> a.rebate <= a.propertyTax || a.waterTax + a.drainageTax + a.penalty == 0)
  {
    var a := A.Assess(base, rules, arrears, amountPaid);
    A.AssessedAmountsNonNegative(base, rules);
    TotalOfFive(HeadsOfAssessment(a));
  }

  /**
   * While the payments stay within what is payable, a receipt never shows a head beyond
   * its due and never needs the remainder branch.
   */
  lemma ReceiptWithinPayable(base: A.TaxBase, rules: seq<A.Rule>, arrears: int, paidBefore: int, p: int)
    requires A.SaneBase(base) && A.SaneRules(rules)
    requires 0 <= paidBefore && 0 <= p
    requires paidBefore + p <= A.Assess(base, rules, arrears, paidBefore).totalPayable
    ensures
      var dues := HeadsOfAssessment(A.Assess(base, rules, arrears, paidBefore));
      && Allocation(dues, paidBefore, p) == Shares(dues, paidBefore, p)
      && forall h :: 0 <= h < HEADS ==>
                       0 <= Allocation(dues, paidBefore, p)[h] <= dues[h] - Fill(dues, h, paidBefore)
  {
    HeadsCoverPayable(base, rules, arrears, paidBefore);
    NoRemainderIff(HeadsOfAssessment(A.Assess(base, rules, arrears, paidBefore)), paidBefore, p);
  }
}
