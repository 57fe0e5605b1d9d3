/** The counter's rules: `apps/api/src/payments/offline-rules.ts`. */
module OfflineRules {
  import opened Common
  import opened Text

  datatype PaymentMode = Online | Cash | Cheque | DemandDraft | UpiManual | Other

  datatype OfflineError =
    | UseOnlineEndpoint
    | SurveyRequired
    | ReferenceRequired
    | DemandUnpublished
    | InvalidAmount
    | NoOutstanding
    | AmountExceedsOutstanding
    | ReceiptNumberExists

  datatype Balance = Balance(amountPaid: int, outstanding: int)

  /** The first failed test on mode and reference, if any. */
  function CheckModeAndReference(mode: PaymentMode, reference: Option<string>): Option<OfflineError> {
    if mode == Online then Some(UseOnlineEndpoint)
    else if mode in {Cheque, DemandDraft, UpiManual} && Trim(reference.GetOr("")) == "" then Some(ReferenceRequired)
    else None
  }

  /** The amount test; the source's tolerance of 0.005 is half a paise. */
  function CheckAmount(amount: int, outstanding: int): (error: Option<OfflineError>)
    ensures error.None? <==> 0 < amount <= outstanding
  {
    if amount <= 0 then Some(InvalidAmount)
    else if outstanding <= 0 then Some(NoOutstanding)
    else if 2 * amount > 2 * outstanding + 1 then Some(AmountExceedsOutstanding)
    else None
  }

  function OutstandingAfterPayment(totalPayable: int, amountPaidBefore: int, paymentAmount: int): Balance {
    var amountPaid := amountPaidBefore + paymentAmount;
    Balance(amountPaid, Max(0, totalPayable - amountPaid))
  }
}
