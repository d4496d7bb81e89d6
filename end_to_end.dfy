/** How a Stripe failure inside the payment service reaches the client: the
    service wraps it in a `PaymentException`, and the exception advice turns
    that into a 400 response carrying the wrapped message. */
module PaymentFailureResponses {
  import opened Common
  import opened JavaExceptions
  import opened PaymentExceptions
  import opened ExceptionHandler
  import opened PaymentService

  predicate StartsWith(s: string, prefix: string)
  {
    |prefix| <= |s| && s[..|prefix|] == prefix
  }

  /** Any Stripe failure, once wrapped, is answered with 400 and the message
      "Failed to process payment: " followed by Stripe's message. */
  lemma StripeFailureIsBadRequest(e: StripeException, errorId: string, timestamp: int)
    ensures var r := Handle(FromStripe(e), errorId, timestamp);
            && r.status == BadRequest && r.body.status == BadRequest
            && r.body.message == Some(ConcatJava(PaymentFailurePrefix, e.message))
  {
  }

  /** A common prefix survives being put in front of both strings. */
  lemma StartsWithAfterPrefix(p: string, m: string, q: string)
    requires StartsWith(m, q)
    ensures StartsWith(p + m, p + q)
  {
    assert (p + m)[..|p + q|] == p + m[..|q|];
  }

  const InvalidCurrencyMessage := "Invalid currency: INVALID"

  /** A Stripe message beginning "Invalid currency: INVALID" (Stripe may
      append more) yields a 400 body whose message begins
      "Failed to process payment: Invalid currency: INVALID". */
  lemma InvalidCurrencyReported(e: StripeException, errorId: string, timestamp: int)
    requires e.message.Some? && StartsWith(e.message.value, InvalidCurrencyMessage)
    ensures var r := Handle(FromStripe(e), errorId, timestamp);
            && r.status == BadRequest
            && r.body.message.Some?
            && StartsWith(r.body.message.value, PaymentFailurePrefix + InvalidCurrencyMessage)
  {
    StripeFailureIsBadRequest(e, errorId, timestamp);
    StartsWithAfterPrefix(PaymentFailurePrefix, e.message.value, InvalidCurrencyMessage);
  }

  /** `createPaymentIntent` followed by the advice: a created intent reaches
      the client as its response DTO, a failed creation as 400 with the
      wrapped message. */
  method CreateOrReject(stripe: StripeApi, advice: ExceptionAdvice, requestDTO: PaymentIntentRequestDTO, timestamp: int)
    returns (r: Result<PaymentIntentResponseDTO, ResponseEntity>)
    modifies stripe, advice
    ensures |stripe.createCalls| == |old(stripe.createCalls)| + 1
    ensures var params := stripe.createCalls[|old(stripe.createCalls)|];
            && (stripe.create(params).Ok? <==> r.Ok?)
            && (r.Ok? ==> r.value == ToResponseDTO(stripe.create(params).value))
            && (r.Err? ==> r.error.status == BadRequest
                           && r.error.body.message == Some(ConcatJava(PaymentFailurePrefix, stripe.create(params).error.message)))
  {
    var created := CreatePaymentIntent(stripe, requestDTO);
    match created
    case Ok(response) =>
      r := Ok(response);
    case Err(ex) =>
      var answer := advice.HandleException(ex, timestamp);
      r := Err(answer);
  }
}
