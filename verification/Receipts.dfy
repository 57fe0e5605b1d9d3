/** The receipt waterfall of `apps/api/src/payments/receipt-allocation.ts`, in whole paise. */
module Receipts {
  import opened Common
  import opened Sums
  import opened Text

  // The five heads, in the order payments fill them.
  const ARREARS := 0
  const PROPERTY := 1
  const WATER := 2
  const DRAINAGE := 3
  const PENALTY := 4
  const HEADS := 5

  datatype AllocationInput = AllocationInput(
    propertyTax: int, waterTax: int, drainageTax: int, penalty: int, rebate: int, arrears: int,
    amountPaidAfter: int, amountReceived: int, outstandingAfter: int, assessmentYearName: Option<string>)

  datatype AllocationRow = AllocationRow(
    yearLabel: string, propertyTax: int, waterTax: int, drainageTax: int, penaltyAndInterest: int,
    arrearsApplied: int, amountApplied: int, yearBalanceAfter: int)

  function YearLabel(name: Option<string>): string {
    var trimmed := Trim(name.GetOr(""));
    if trimmed == "" then "\U{2014}" else trimmed
  }

  /** The rebate reduces the property head only. */
  function HeadDues(input: AllocationInput): (dues: seq<int>)
    ensures |dues| == HEADS && NonNegative(dues)
  {
    [ Max(0, input.arrears),
      Max(0, input.propertyTax - Abs(input.rebate)),
      Max(0, input.waterTax),
      Max(0, input.drainageTax),
      Max(0, input.penalty) ]
  }

  predicate NonNegative(dues: seq<int>) {
    forall h :: 0 <= h < |dues| ==> dues[h] >= 0
  }

  function PaidBefore(input: AllocationInput): int {
    Max(0, input.amountPaidAfter - input.amountReceived)
  }

  // ---- What a head has received once x paise were paid in all ----

  function Prefix(dues: seq<int>, h: nat): int
    requires h <= |dues|
  {
    if h == 0 then 0 else Prefix(dues, h - 1) + dues[h - 1]
  }

  function Total(dues: seq<int>): int {
    Prefix(dues, |dues|)
  }

  function Fill(dues: seq<int>, h: nat, x: int): int
    requires h < |dues|
  {
    Min(dues[h], Max(0, x - Prefix(dues, h)))
  }

  /** What a payment of p after `before` adds to head h. */
  function Share(dues: seq<int>, before: int, p: int, h: nat): int
    requires h < |dues|
  {
    Fill(dues, h, before + p) - Fill(dues, h, before)
  }

  function Shares(dues: seq<int>, before: int, p: int): (s: seq<int>)
    ensures |s| == |dues|
  {
    seq(|dues|, h requires 0 <= h < |dues| => Share(dues, before, p, h))
  }

  lemma {:induction false} PrefixMonotone(dues: seq<int>, i: nat, j: nat)
    requires NonNegative(dues) && i <= j <= |dues|
    ensures Prefix(dues, i) <= Prefix(dues, j)
    decreases j
  {
    if i < j {
      PrefixMonotone(dues, i, j - 1);
    }
  }

  /** All heads together hold everything paid, up to what is due. */
  lemma {:induction false} FillsAddUp(dues: seq<int>, x: int, h: nat)
    requires NonNegative(dues) && 0 <= x && h <= |dues|
    ensures FilledTo(dues, x, h) == Min(x, Prefix(dues, h))
  {
    if h > 0 {
      FillsAddUp(dues, x, h - 1);
    }
  }

  function FilledTo(dues: seq<int>, x: int, h: nat): int
    requires h <= |dues|
  {
    if h == 0 then 0 else FilledTo(dues, x, h - 1) + Fill(dues, h - 1, x)
  }

  lemma {:induction false} SharesAddUp(dues: seq<int>, before: int, p: int, h: nat)
    requires NonNegative(dues) && h <= |dues|
    ensures Prefix(Shares(dues, before, p), h) == FilledTo(dues, before + p, h) - FilledTo(dues, before, h)
  {
    if h > 0 {
      SharesAddUp(dues, before, p, h - 1);
    }
  }

  /** The shares of a payment are the part of it that is still due. */
  lemma ShareTotal(dues: seq<int>, before: int, p: int)
    requires NonNegative(dues) && 0 <= before && 0 <= p
    ensures Total(Shares(dues, before, p)) == Min(before + p, Total(dues)) - Min(before, Total(dues))
  {
    SharesAddUp(dues, before, p, |dues|);
    FillsAddUp(dues, before + p, |dues|);
    FillsAddUp(dues, before, |dues|);
  }

  // ---- The remainder ----

  /** The head the remainder goes to: the last one touched or unpaid, property tax if none. */
  function RemainderHead(dues: seq<int>, before: int, p: int): (h: nat)
    requires |dues| == HEADS
    ensures h < HEADS
  {
    if TakesRemainder(dues, before, p, PENALTY) then PENALTY
    else if TakesRemainder(dues, before, p, DRAINAGE) then DRAINAGE
    else if TakesRemainder(dues, before, p, WATER) then WATER
    else PROPERTY
  }

  predicate TakesRemainder(dues: seq<int>, before: int, p: int, h: nat)
    requires h < |dues|
  {
    Share(dues, before, p, h) > 0 || dues[h] - Fill(dues, h, before) > 0
  }

  function Allocation(dues: seq<int>, before: int, received: int): (applied: seq<int>)
    requires |dues| == HEADS
    ensures |applied| == HEADS
  {
    var p := Max(0, received);
    var shares, h := Shares(dues, before, p), RemainderHead(dues, before, p);
    shares[h := shares[h] + (received - Total(shares))]
  }

  lemma {:induction false} PrefixOfUpdate(s: seq<int>, i: nat, v: int, h: nat)
    requires i < |s| && h <= |s|
    ensures Prefix(s[i := v], h) == Prefix(s, h) + (if i < h then v - s[i] else 0)
  {
    if h > 0 {
      PrefixOfUpdate(s, i, v, h - 1);
    }
  }

  /** Whatever was received is what the row shows as applied, remainder branch or not. */
  lemma AmountAppliedIsReceived(dues: seq<int>, before: int, received: int)
    requires |dues| == HEADS
    ensures Total(Allocation(dues, before, received)) == received
  {
    var p := Max(0, received);
    var shares, h := Shares(dues, before, p), RemainderHead(dues, before, p);
    PrefixOfUpdate(shares, h, shares[h] + (received - Total(shares)), HEADS);
  }

  /** The remainder branch is reached exactly by a negative receipt or one beyond what is due. */
  lemma NoRemainderIff(dues: seq<int>, before: int, received: int)
    requires |dues| == HEADS && NonNegative(dues) && 0 <= before
    ensures (received == Total(Shares(dues, before, Max(0, received))))
            <==> 0 <= received <= Total(dues) - Min(before, Total(dues))
    ensures 0 <= received <= Total(dues) - Min(before, Total(dues))
            ==> Allocation(dues, before, received) == Shares(dues, before, received)
  {
    PrefixMonotone(dues, 0, HEADS);
    ShareTotal(dues, before, Max(0, received));
  }

  // ---- Successive receipts ----

  function Sum(payments: seq<int>): int {
    if payments == [] then 0 else payments[0] + Sum(payments[1..])
  }

  /** The sum over successive payments of what each shows, given what was paid before it. */
  function SumOver(receipt: (int, int) -> int, before: int, payments: seq<int>): int
    decreases |payments|
  {
    if payments == [] then 0
    else receipt(before, payments[0]) + SumOver(receipt, before + payments[0], payments[1..])
  }

  function ReceiptFor(dues: seq<int>, h: nat): (int, int) -> int
    requires |dues| == HEADS && h < HEADS
  {
    (before, payment) => Allocation(dues, before, payment)[h]
  }

  function FillOf(dues: seq<int>, h: nat): int -> int
    requires h < |dues|
  {
    x => Fill(dues, h, x)
  }

  /** What the receipts of successive payments show for head h in all. */
  function ReceiptedTo(dues: seq<int>, before: int, payments: seq<int>, h: nat): int
    requires |dues| == HEADS && h < HEADS
  {
    SumOver(ReceiptFor(dues, h), before, payments)
  }

  predicate Payments(payments: seq<int>) {
    forall i :: 0 <= i < |payments| ==> payments[i] >= 0
  }

  lemma {:induction false} SumNonNegative(payments: seq<int>)
    requires Payments(payments)
    ensures Sum(payments) >= 0
  {
    if payments != [] {
      SumNonNegative(payments[1..]);
    }
  }

  /** Within the dues a receipt shows each head's step up its fill. */
  lemma ReceiptWithinDues(dues: seq<int>, before: int, p: int, h: nat)
    requires |dues| == HEADS && NonNegative(dues) && h < HEADS
    requires 0 <= before && 0 <= p && before + p <= Total(dues)
    ensures Allocation(dues, before, p)[h] == Fill(dues, h, before + p) - Fill(dues, h, before)
  {
    NoRemainderIff(dues, before, p);
  }

  /** Up to the limit each payment shows its step of `fill`. */
  ghost predicate ShowsSteps(receipt: (int, int) -> int, fill: int -> int, limit: int) {
    forall before, p :: 0 <= before && 0 <= p && before + p <= limit
                        ==> receipt(before, p) == fill(before + p) - fill(before)
  }

  lemma {:induction false} StepsTelescope(
    receipt: (int, int) -> int, fill: int -> int, before: int, payments: seq<int>, limit: int)
    requires ShowsSteps(receipt, fill, limit)
    requires 0 <= before && Payments(payments) && before + Sum(payments) <= limit
    ensures SumOver(receipt, before, payments) == fill(before + Sum(payments)) - fill(before)
    decreases |payments|
  {
    if payments != [] {
      SumNonNegative(payments[1..]);
      StepsTelescope(receipt, fill, before + payments[0], payments[1..], limit);
    }
  }

  lemma SplitShowsTheWhole(
    receipt: (int, int) -> int, fill: int -> int, before: int, split: seq<int>, limit: int)
    requires ShowsSteps(receipt, fill, limit)
    requires 0 <= before && Payments(split) && before + Sum(split) <= limit
    ensures SumOver(receipt, before, split) == receipt(before, Sum(split))
  {
    SumNonNegative(split);
    StepsTelescope(receipt, fill, before, split, limit);
  }

  lemma ReceiptsShowSteps(dues: seq<int>, h: nat)
    requires |dues| == HEADS && NonNegative(dues) && h < HEADS
    ensures ShowsSteps(ReceiptFor(dues, h), FillOf(dues, h), Total(dues))
  {
    forall before, p | 0 <= before && 0 <= p && before + p <= Total(dues)
      ensures ReceiptFor(dues, h)(before, p) == FillOf(dues, h)(before + p) - FillOf(dues, h)(before)
    {
      ReceiptWithinDues(dues, before, p, h);
    }
  }

  /** However a sum within the dues is split into payments, each head ends up with its fill. */
  lemma ReceiptsTelescope(dues: seq<int>, before: int, payments: seq<int>, h: nat)
    requires |dues| == HEADS && NonNegative(dues) && h < HEADS
    requires 0 <= before && Payments(payments) && before + Sum(payments) <= Total(dues)
    ensures ReceiptedTo(dues, before, payments, h) == Fill(dues, h, before + Sum(payments)) - Fill(dues, h, before)
  {
    ReceiptsShowSteps(dues, h);
    StepsTelescope(ReceiptFor(dues, h), FillOf(dues, h), before, payments, Total(dues));
  }

  /** Splitting a payment changes no head's total. */
  lemma SplittingIsIrrelevant(dues: seq<int>, before: int, split: seq<int>, h: nat)
    requires |dues| == HEADS && NonNegative(dues) && h < HEADS
    requires 0 <= before && Payments(split) && before + Sum(split) <= Total(dues)
    ensures ReceiptedTo(dues, before, split, h) == Allocation(dues, before, Sum(split))[h]
  {
    ReceiptsShowSteps(dues, h);
    SplitShowsTheWhole(ReceiptFor(dues, h), FillOf(dues, h), before, split, Total(dues));
  }

  // ---- The two loops ----

  /** The heads' unpaid parts after `before` was paid. */
  function Unpaid(dues: seq<int>, before: int): (s: seq<int>)
    ensures |s| == |dues|
  {
    seq(|dues|, h requires 0 <= h < |dues| => dues[h] - Fill(dues, h, before))
  }

  method SkipPaid(dues: seq<int>, paidBefore: int) returns (unpaid: seq<int>)
    requires NonNegative(dues) && 0 <= paidBefore
    ensures unpaid == Unpaid(dues, paidBefore)
  {
    var remainingPaidBefore := paidBefore;
    unpaid := [];
    for h := 0 to |dues|
      invariant remainingPaidBefore == Max(0, paidBefore - Prefix(dues, h))
      invariant unpaid == Unpaid(dues, paidBefore)[..h]
    {
      var skip := Min(dues[h], remainingPaidBefore);
      remainingPaidBefore := remainingPaidBefore - skip;
      unpaid := unpaid + [dues[h] - skip];
    }
  }

  method TakeInOrder(dues: seq<int>, ghost before: int, unpaid: seq<int>, payment: int) returns (applied: seq<int>)
    requires NonNegative(dues) && 0 <= before && 0 <= payment && unpaid == Unpaid(dues, before)
    ensures applied == Shares(dues, before, payment)
  {
    var remainingPayment := payment;
    applied := [];
    for h := 0 to |unpaid|
      invariant remainingPayment == Max(0, payment - Max(0, Prefix(dues, h) - before))
      invariant applied == Shares(dues, before, payment)[..h]
    {
      var take := Min(unpaid[h], remainingPayment);
      applied := applied + [take];
      remainingPayment := remainingPayment - take;
    }
  }

  predicate TouchedOrUnpaid(applied: seq<int>, unpaid: seq<int>, h: nat)
    requires h < |applied| == |unpaid|
  {
    applied[h] > 0 || unpaid[h] > 0
  }

  function LastTouchedOrUnpaid(applied: seq<int>, unpaid: seq<int>): (h: nat)
    requires |applied| == |unpaid| == HEADS
    ensures h < HEADS
  {
    if TouchedOrUnpaid(applied, unpaid, PENALTY) then PENALTY
    else if TouchedOrUnpaid(applied, unpaid, DRAINAGE) then DRAINAGE
    else if TouchedOrUnpaid(applied, unpaid, WATER) then WATER
    else PROPERTY
  }

  lemma LastIsRemainderHead(dues: seq<int>, before: int, p: int)
    requires |dues| == HEADS
    ensures LastTouchedOrUnpaid(Shares(dues, before, p), Unpaid(dues, before)) == RemainderHead(dues, before, p)
  {
  }

  method AddToHead(shares: seq<int>, unpaid: seq<int>, delta: int) returns (applied: seq<int>)
    requires |shares| == |unpaid| == HEADS
    ensures var h := LastTouchedOrUnpaid(shares, unpaid); applied == shares[h := shares[h] + delta]
  {
    applied := shares;
    var order := [PENALTY, DRAINAGE, WATER, PROPERTY, ARREARS];
    for i := 0 to |order|
      invariant i <= 3
      invariant forall j :: 0 <= j < i ==> !TouchedOrUnpaid(shares, unpaid, order[j])
      invariant applied == shares
    {
      var key := order[i];
      if applied[key] > 0 || unpaid[key] > 0 || key == PROPERTY {
        assert order[0] == PENALTY && order[1] == DRAINAGE && order[2] == WATER && order[3] == PROPERTY;
        applied := applied[key := applied[key] + delta];
        break;
      }
    }
  }

  method AbsorbRemainder(dues: seq<int>, before: int, unpaid: seq<int>, shares: seq<int>, received: int)
    returns (applied: seq<int>)
    requires |dues| == HEADS && unpaid == Unpaid(dues, before) && shares == Shares(dues, before, Max(0, received))
    ensures applied == Allocation(dues, before, received)
  {
    applied := shares;
    var delta := received - SumOfHeads(shares);
    LastIsRemainderHead(dues, before, Max(0, received));
    if delta != 0 {
      applied := AddToHead(shares, unpaid, delta);
    }
  }

  /** The row of a receipt. */
  function RowOf(input: AllocationInput): AllocationRow {
    var applied := Allocation(HeadDues(input), PaidBefore(input), input.amountReceived);
    AllocationRow(
      YearLabel(input.assessmentYearName),
      applied[PROPERTY], applied[WATER], applied[DRAINAGE], applied[PENALTY], applied[ARREARS],
      Total(applied), Max(0, input.outstandingAfter))
  }

  method BuildReceiptAllocation(input: AllocationInput) returns (row: AllocationRow)
    ensures row == RowOf(input)
    ensures row.amountApplied == input.amountReceived
  {
    var dues, before := HeadDues(input), PaidBefore(input);
    var unpaid := SkipPaid(dues, before);
    var payment := Max(0, input.amountReceived);
    var applied := TakeInOrder(dues, before, unpaid, payment);

    applied := AbsorbRemainder(dues, before, unpaid, applied, input.amountReceived);
    AmountAppliedIsReceived(dues, before, input.amountReceived);
    var amountApplied := SumOfHeads(applied);
    row := AllocationRow(
      YearLabel(input.assessmentYearName),
      applied[PROPERTY], applied[WATER], applied[DRAINAGE], applied[PENALTY], applied[ARREARS],
      amountApplied, Max(0, input.outstandingAfter));
  }

  function SumOfHeads(applied: seq<int>): (sum: int)
    requires |applied| == HEADS
    ensures sum == Total(applied)
  {
    assert Prefix(applied, 1) == applied[0];
    assert Prefix(applied, 2) == applied[0] + applied[1];
    assert Prefix(applied, 3) == applied[0] + applied[1] + applied[2];
    assert Prefix(applied, 4) == applied[0] + applied[1] + applied[2] + applied[3];
    applied[0] + applied[1] + applied[2] + applied[3] + applied[4]
  }
}
