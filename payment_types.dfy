/** The frontend's payment value types (frontend/src/payment/model/PaymentTypes.ts). */
module PaymentTypes {
  import opened Common

  /** A possibly-undefined JavaScript string is truthy when it is defined and not empty. */
  predicate Truthy(s: Option<string>)
  {
    s.Some? && s.value != ""
  }

  /** The body the frontend posts to create a payment intent; absent fields are not serialised. */
  datatype CreatePaymentIntentRequest = CreatePaymentIntentRequest(
    amount: int,
    currency: string,
    description: Option<string>,
    customerEmail: Option<string>,
    orderId: Option<string>,
    userId: Option<string>)

  /** The JSON body of a successful intent creation; any field may be missing. */
  datatype CreatePaymentIntentResponse = CreatePaymentIntentResponse(
    clientSecret: Option<string>,
    paymentIntentId: Option<string>,
    amount: Option<int>,
    currency: Option<string>)

  /** The value `processPayment` resolves to. */
  datatype PaymentResult = PaymentResult(success: bool, paymentIntentId: Option<string>, error: Option<string>)

  /** `{ success: false, error: message }` */
  function Failed(message: string): PaymentResult
  {
    PaymentResult(false, None, Some(message))
  }

  /** `{ success: true, paymentIntentId }`, where the id may be undefined. */
  function Succeeded(paymentIntentId: Option<string>): PaymentResult
  {
    PaymentResult(true, paymentIntentId, None)
  }
}
