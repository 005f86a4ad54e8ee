/** The Payment record (server/models/payment.model.js). */
module PaymentModel {
  import opened Js

  type PaymentId = string

  /** The `status` enum. */
  datatype PaymentState = Pending | Completed | Failed

  function StateName(s: PaymentState): string {
    match s
    case Pending => "pending"
    case Completed => "completed"
    case Failed => "failed"
  }

  const DefaultState := Pending

  datatype Payment = Payment(
    user: string,
    order: string,
    razorpayOrderId: string,
    razorpayPaymentId: string,
    razorpaySignature: string,
    amount: int,
    status: PaymentState)

  /** What `new Payment({...})` is given; `None` is an absent field. */
  datatype PaymentDraft = PaymentDraft(
    user: Option<string>,
    order: Option<string>,
    razorpayOrderId: Option<string>,
    razorpayPaymentId: Option<string>,
    razorpaySignature: Option<string>,
    amount: Option<int>,
    status: Option<PaymentState>)

  /** The failing `required` paths in schema order. The three gateway strings reject the empty
      string too; a given reference is never checked, since it either casts or has already failed
      its cast, and Mongoose skips the validators of a path whose cast failed. */
  function MissingPaths(d: PaymentDraft): seq<PathError> {
    (if d.user.None? then [Required("user")] else [])
    + (if d.order.None? then [Required("order")] else [])
    + (if Blank(d.razorpayOrderId) then [Required("razorpayOrderId")] else [])
    + (if Blank(d.razorpayPaymentId) then [Required("razorpayPaymentId")] else [])
    + (if Blank(d.razorpaySignature) then [Required("razorpaySignature")] else [])
    + (if d.amount.None? then [Required("amount")] else [])
  }

  /** The ObjectId paths of a new payment, in the order `verifyPayment` lists them. */
  function References(d: PaymentDraft): seq<(string, Option<string>)> {
    [("order", d.order), ("user", d.user)]
  }

  /** Validating a new payment: `user` and `order` must cast to ObjectIds, every field but
      `status` is required, and `status` defaults to `pending`. The cast errors, recorded when the
      document is built, come before the `required` ones. */
  function NewPayment(d: PaymentDraft): (r: Result<Payment>)
    ensures r.Success? <==>
      && d.user.Some? && d.order.Some? && !Blank(d.razorpayOrderId) && !Blank(d.razorpayPaymentId)
      && !Blank(d.razorpaySignature) && d.amount.Some?
      && IsObjectId(d.user.value) && IsObjectId(d.order.value)
    ensures r.Failure? ==> r.error == ValidationMessage("Payment", CastErrors(References(d)) + MissingPaths(d))
    ensures r.Success? ==>
      && r.value.user == d.user.value && r.value.order == d.order.value
      && r.value.razorpayOrderId == d.razorpayOrderId.value && r.value.razorpayPaymentId == d.razorpayPaymentId.value
      && r.value.razorpaySignature == d.razorpaySignature.value && r.value.amount == d.amount.value
      && r.value.status == (if d.status.Some? then d.status.value else DefaultState)
  {
    var errors := CastErrors(References(d)) + MissingPaths(d);
    assert References(d)[0] == ("order", d.order) && References(d)[1] == ("user", d.user);
    if errors != [] then Failure(ValidationMessage("Payment", errors))
    else Success(Payment(d.user.value, d.order.value, d.razorpayOrderId.value, d.razorpayPaymentId.value,
                         d.razorpaySignature.value, d.amount.value,
                         if d.status.Some? then d.status.value else DefaultState))
  }

  class PaymentStore {
    var payments: map<PaymentId, Payment>

    constructor ()
      ensures payments == map[]
    {
      payments := map[];
    }
  }
}
