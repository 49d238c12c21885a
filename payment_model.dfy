/** The part of the payment record the admin statistics read. */
module PaymentModel {
  import opened Common

  datatype PaymentStatus = PaymentPending | PaymentCompleted | PaymentFailed | PaymentRefunded

  /** A payment; `commissionAmount` is the platform's cut (default 0). */
  datatype Payment = Payment(id: ObjectId, status: PaymentStatus, commissionAmount: real)
}
