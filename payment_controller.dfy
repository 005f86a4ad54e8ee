/** The payment handlers (server/controller/payment.controller.js). The gateway's order call is a
    parameter: its reply to the options it is sent. No signature is computed or compared. */
module PaymentController {
  import opened Js
  import opened Responder
  import opened PaymentModel

  datatype CreatePaymentRequest = CreatePaymentRequest(amount: Field<int>, currency: Field<string>)

  /** The options object sent to the gateway; `currency` keeps a `null` the request sent. */
  datatype PaymentOptions = PaymentOptions(amount: int, currency: Field<string>, receipt: string)

  /** The order record the gateway returns, not looked into. */
  datatype GatewayOrder = GatewayOrder(id: string)

  /** What `razorpayInstance.orders.create` does: a record, a falsy value, or a thrown error. */
  datatype GatewayReply = Created(order: GatewayOrder) | NoOrder | Thrown(message: string)

  const DefaultCurrency := "INR"
  const AmountRequired := "Amount is required"
  const GatewayFailed := "Failed to create payment order"
  const DetailsMissing := "Missing required payment details"

  /** The options built from the body and the clock: the amount in minor units (×100), `INR` when
      `currency` is absent (a destructuring default does not replace `null`), and the receipt
      `receipt_order_<millis>`. */
  function OptionsFor(req: CreatePaymentRequest, now: nat): (o: PaymentOptions)
    requires TruthyNumber(req.amount)
    ensures o.amount == req.amount.value * 100
    ensures req.currency.Undefined? ==> o.currency == Given(DefaultCurrency)
    ensures !req.currency.Undefined? ==> o.currency == req.currency
    ensures o.receipt == "receipt_order_" + Decimal(now)
  {
    PaymentOptions(req.amount.value * 100,
                   if req.currency.Undefined? then Given(DefaultCurrency) else req.currency,
                   "receipt_order_" + Decimal(now))
  }

  /** `createPaymentOrder`. */
  function CreatePaymentOrder(req: CreatePaymentRequest, now: nat, gateway: PaymentOptions -> GatewayReply)
    : (r: Response<GatewayOrder>)
    ensures !TruthyNumber(req.amount) ==> r == Fail(AmountRequired, 400)
    ensures TruthyNumber(req.amount) ==>
      match gateway(OptionsFor(req, now))
      case Created(o) => r == Ok("Payment order created successfully", o, 201)
      case NoOrder => r == Fail(GatewayFailed, 500)
      case Thrown(m) => r == Crash(m)
    ensures r.Success() ==> r.status == 201
  {
    if !TruthyNumber(req.amount) then Fail(AmountRequired, 400)
    else
      match gateway(OptionsFor(req, now))
      case Created(o) => Ok("Payment order created successfully", o, 201)
      case NoOrder => Fail(GatewayFailed, 500)
      case Thrown(m) => Crash(m)
  }

  datatype VerifyRequest = VerifyRequest(
    orderId: Field<string>,
    paymentId: Field<string>,
    signature: Field<string>,
    amount: Field<int>,
    userId: Field<string>)

  predicate DetailsAreMissing(req: VerifyRequest) {
    !TruthyString(req.orderId) || !TruthyString(req.paymentId) || !TruthyString(req.signature)
    || !TruthyNumber(req.amount) || !TruthyString(req.userId)
  }

  /** The document `verifyPayment` builds. */
  function DraftOf(req: VerifyRequest): PaymentDraft {
    PaymentDraft(OptionOf(req.userId), OptionOf(req.orderId), OptionOf(req.orderId), OptionOf(req.paymentId),
                 OptionOf(req.signature), OptionOf(req.amount), Some(Completed))
  }

  /** The record `verifyPayment` saves once the guard passes: it is `completed`, the order id goes
      to both `order` and `razorpayOrderId`, and the signature is stored as sent. Its save fails,
      and the answer is 500, exactly when the order id or the user id is no ObjectId; a Razorpay
      order id (`order_...`) is never one. */
  function VerifiedPayment(req: VerifyRequest): (r: Result<Payment>)
    requires !DetailsAreMissing(req)
    ensures r == NewPayment(DraftOf(req))
    ensures r.Success? <==> IsObjectId(req.orderId.value) && IsObjectId(req.userId.value)
    ensures r.Failure? ==>
      r.error == ValidationMessage("Payment", CastErrors([("order", Some(req.orderId.value)), ("user", Some(req.userId.value))]))
    ensures r.Success? ==> var p := r.value;
      && p.status == Completed
      && p.order == req.orderId.value && p.razorpayOrderId == req.orderId.value
      && p.razorpaySignature == req.signature.value && p.razorpayPaymentId == req.paymentId.value
      && p.user == req.userId.value && p.amount == req.amount.value
  {
    assert MissingPaths(DraftOf(req)) == [];
    var casts := CastErrors(References(DraftOf(req)));
    assert References(DraftOf(req)) == [("order", Some(req.orderId.value)), ("user", Some(req.userId.value))];
    assert casts + MissingPaths(DraftOf(req)) == casts;
    NewPayment(DraftOf(req))
  }

  /** The order id a gateway order carries cannot be the one `verifyPayment` is sent: it fails the
      `order` cast. */
  lemma GatewayOrderIdRefused(req: VerifyRequest)
    requires !DetailsAreMissing(req)
    requires |req.orderId.value| >= 6 && req.orderId.value[..6] == "order_"
    ensures VerifiedPayment(req).Failure?
  {
    GatewayIdNotObjectId(req.orderId.value);
  }

  /** `verifyPayment`: one payment is inserted under the id `newId`; no order is read or written. */
  method VerifyPayment(db: PaymentStore, req: VerifyRequest, newId: PaymentId) returns (r: Response<Payment>)
    modifies db
    ensures DetailsAreMissing(req) ==> r == Fail(DetailsMissing, 400) && db.payments == old(db.payments)
    ensures !DetailsAreMissing(req) && VerifiedPayment(req).Failure? ==>
      r == Crash(VerifiedPayment(req).error) && db.payments == old(db.payments)
    ensures !DetailsAreMissing(req) && VerifiedPayment(req).Success? && newId in old(db.payments) ==>
      r == Crash(DuplicateKey) && db.payments == old(db.payments)
    ensures !DetailsAreMissing(req) && VerifiedPayment(req).Success? && newId !in old(db.payments) ==>
      && db.payments == old(db.payments)[newId := VerifiedPayment(req).value]
      && r == Ok("Payment verified and saved successfully", VerifiedPayment(req).value, 200)
  {
    if DetailsAreMissing(req) {
      return Fail(DetailsMissing, 400);
    }
    var payment := VerifiedPayment(req);
    if payment.Failure? {
      return Crash(payment.error);
    }
    if newId in db.payments {
      return Crash(DuplicateKey);
    }
    db.payments := db.payments[newId := payment.value];
    r := Ok("Payment verified and saved successfully", payment.value, 200);
  }
}
