/** The two constructors of `PaymentException`
    (src/main/java/com/fortuna/payment/exception/PaymentException.java). */
module PaymentExceptions {
  import opened Common
  import opened JavaExceptions

  const PaymentFailurePrefix := "Failed to process payment: "

  /** `new PaymentException(message)`: the message is kept as given, no cause. */
  function WithMessage(message: Option<string>): (e: JavaException)
    ensures e.cls == PaymentException && e.message == message && e.cause == NoCause
  {
    JavaException(PaymentException, message, NoCause)
  }

  /** `new PaymentException(stripeException)`: the message is the fixed prefix
      followed by the cause's message ("null" when it has none), and the Stripe exception is kept as the cause. */
  function FromStripe(cause: StripeException): (e: JavaException)
    ensures e.cls == PaymentException && e.cause == StripeCause(cause)
    ensures e.message.Some? && |e.message.value| >= |PaymentFailurePrefix|
    ensures e.message.value[..|PaymentFailurePrefix|] == PaymentFailurePrefix
    ensures cause.message.Some? ==> e.message.value[|PaymentFailurePrefix|..] == cause.message.value
    ensures cause.message.None? ==> e.message.value[|PaymentFailurePrefix|..] == "null"
  {
    JavaException(PaymentException, Some(ConcatJava(PaymentFailurePrefix, cause.message)), StripeCause(cause))
  }

  /** Reads the Stripe message back out of a wrapped exception's message. */
  function UnwrappedMessage(e: JavaException): (m: Option<string>)
  {
    if e.message.Some? && |e.message.value| >= |PaymentFailurePrefix|
       && e.message.value[..|PaymentFailurePrefix|] == PaymentFailurePrefix
    then Some(e.message.value[|PaymentFailurePrefix|..])
    else None
  }

  /** Wrapping loses nothing: the Stripe exception is the cause, and its
      (non-null) message is exactly what follows the prefix. */
  lemma FromStripeRoundTrip(cause: StripeException)
    requires cause.message.Some?
    ensures UnwrappedMessage(FromStripe(cause)) == cause.message
    ensures FromStripe(cause).cause.stripe == cause
  {
  }
}
