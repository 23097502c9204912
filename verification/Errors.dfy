/** The errors the engine raises, and the replies its operations give. */
module Errors {
  import opened Ledger

  // What the database itself may refuse.
  datatype DbFault = CheckViolation | PrimaryKeyViolation | UniqueRefViolation | BigintOutOfRange | RowNotFound

  datatype RefundError =
    | OverRefund(chargeId: Uuid, requested: int, remaining: int)
    | CurrencyMismatch(refund: string, charge: string)
    | ChargeNotFound(chargeId: Uuid)
    | RefundNotFound(refundId: Uuid)
    | SeparationOfDuties(approver: string)
    | NotPendingReview(refundId: Uuid)
    | BadSignature
    | DbError(fault: DbFault)

  datatype WebhookResult = Applied | Duplicate

  datatype RecoveryReport = RecoveryReport(alreadyAtGateway: nat, resubmitted: nat, walked: nat)

  const NO_REPORT := RecoveryReport(0, 0, 0)
}
