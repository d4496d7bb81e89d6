/** The frontend payment flow (frontend/src/payment/client/PaymentClient.ts).

    `usePayment` owns two observable cells, `loading` and `error`, and a
    `processPayment` operation that runs: readiness check, intent creation on
    the server, card-element lookup, card confirmation with the payment SDK.
    Every network and SDK call is an input here: an `Environment` holds the
    outcome each external call produces in one run. */
module PaymentClient {
  import opened Common
  import opened PaymentTypes

  const NotLoadedMessage := "Stripe has not loaded yet"
  const IntentFailedMessage := "Failed to create payment intent"
  const CardMissingMessage := "Card element not found"
  const PaymentFailedMessage := "Payment failed"
  const NotSucceededMessage := "Payment did not succeed"
  const UnknownErrorMessage := "Unknown error"
  const DefaultCurrency := "usd"
  const PaymentDescription := "Test payment from Fortuna"
  const SucceededStatus := "succeeded"
  const VerifyPathPrefix := "/api/payments/verify/"

  /** What a JavaScript `throw` or a rejected promise carries: an `Error`
      instance (whose `message` is always a string) or any other value. */
  datatype Thrown = ErrorInstance(message: string) | OtherValue

  /** Reading a response body with `response.json()`: it parses or it rejects. */
  datatype Json<+T> = Parsed(value: T) | Unparsable(thrown: Thrown)

  /** The JSON body of a rejected intent creation: `{ message? }`. */
  datatype ErrorBody = ErrorBody(message: Option<string>)

  /** What `fetch('/api/payments/create-payment-intent', ...)` produces. */
  datatype IntentReply =
    | FetchRejected(thrown: Thrown)
    | NotOkResponse(errorBody: Json<ErrorBody>)
    | OkResponse(body: Json<CreatePaymentIntentResponse>)

  /** The SDK's `error` object: `{ message?, type }`. */
  datatype StripeError = StripeError(message: Option<string>, errorType: string)

  /** The SDK's `paymentIntent` object: `{ status, id }`. */
  datatype StripePaymentIntent = StripePaymentIntent(status: string, id: Option<string>)

  /** What `stripe.confirmCardPayment(clientSecret, ...)` produces. */
  datatype ConfirmReply =
    | ConfirmRejected(thrown: Thrown)
    | ConfirmResolved(error: Option<StripeError>, paymentIntent: Option<StripePaymentIntent>)

  /** The outcomes of every external call one run of `processPayment` can make. */
  datatype Environment = Environment(
    stripeLoaded: bool,
    elementsLoaded: bool,
    intentReply: IntentReply,
    cardElementMounted: bool,
    confirmReply: ConfirmReply)

  /** `stripe` and `elements` are both available. */
  predicate Ready(env: Environment)
  {
    env.stripeLoaded && env.elementsLoaded
  }

  /** The catch block's message: `err instanceof Error ? err.message : 'Unknown error'`. */
  function ThrownMessage(t: Thrown): (m: string)
    ensures t.ErrorInstance? ==> m == t.message
    ensures t.OtherValue? ==> m == UnknownErrorMessage
  {
    match t
    case ErrorInstance(message) => message
    case OtherValue => UnknownErrorMessage
  }

  /** `error.message || 'Failed to create payment intent'`: the server's message
      when it is a non-empty string, the fixed fallback otherwise. */
  function IntentFailureMessage(message: Option<string>): (m: string)
    ensures m != ""
    ensures Truthy(message) ==> m == message.value
    ensures !Truthy(message) ==> m == IntentFailedMessage
  {
    if Truthy(message) then message.value else IntentFailedMessage
  }

  /** `stripeError.message || 'Payment failed'`. */
  function SdkErrorMessage(e: StripeError): (m: string)
    ensures m != ""
    ensures Truthy(e.message) ==> m == e.message.value
    ensures !Truthy(e.message) ==> m == PaymentFailedMessage
  {
    if Truthy(e.message) then e.message.value else PaymentFailedMessage
  }

  /** `createPaymentIntent`: a parsed ok body is returned as it is; a non-ok
      response becomes a thrown `Error` carrying the selected message; a
      rejected fetch or body read propagates unchanged. */
  function CreatePaymentIntent(reply: IntentReply): (r: Result<CreatePaymentIntentResponse, Thrown>)
    ensures r.Ok? <==> reply.OkResponse? && reply.body.Parsed?
    ensures r.Ok? ==> r.value == reply.body.value
    ensures reply.NotOkResponse? && reply.errorBody.Parsed? ==>
              r == Err(ErrorInstance(IntentFailureMessage(reply.errorBody.value.message)))
    ensures reply.FetchRejected? ==> r == Err(reply.thrown)
    ensures reply.NotOkResponse? && reply.errorBody.Unparsable? ==> r == Err(reply.errorBody.thrown)
    ensures reply.OkResponse? && reply.body.Unparsable? ==> r == Err(reply.body.thrown)
  {
    match reply
    case FetchRejected(t) => Err(t)
    case NotOkResponse(body) =>
      (match body
       case Parsed(e) => Err(ErrorInstance(IntentFailureMessage(e.message)))
       case Unparsable(t) => Err(t))
    case OkResponse(body) =>
      (match body
       case Parsed(response) => Ok(response)
       case Unparsable(t) => Err(t))
  }

  /** The body `processPayment` posts: amount, currency (default "usd") and the fixed description. */
  function PaymentRequest(amount: int, currency: Option<string>): CreatePaymentIntentRequest
  {
    var code := match currency case Some(c) => c case None => DefaultCurrency;
    CreatePaymentIntentRequest(amount, code, Some(PaymentDescription), None, None, None)
  }

  /** The JSON body of the verification endpoint: `{ success }`. */
  datatype VerifyBody = VerifyBody(success: Option<bool>)

  /** What `fetch('/api/payments/verify/' + id)` produces. */
  datatype VerifyReply =
    | VerifyFetchRejected(thrown: Thrown)
    | VerifyResponded(body: Json<VerifyBody>)

  /** The path `verifyPayment` reads: the fixed prefix followed by the id. */
  function VerifyPath(paymentIntentId: string): (path: string)
    ensures |path| == |VerifyPathPrefix| + |paymentIntentId|
    ensures path[..|VerifyPathPrefix|] == VerifyPathPrefix
    ensures path[|VerifyPathPrefix|..] == paymentIntentId
  {
    VerifyPathPrefix + paymentIntentId
  }

  /** `verifyPayment`: exactly the body's `success` field, whatever the HTTP
      status; a rejected fetch or body read propagates to the caller. `fetch`
      gives the reply for each requested path. */
  function VerifyPayment(paymentIntentId: string, fetch: string -> VerifyReply): (r: Result<Option<bool>, Thrown>)
    ensures var reply := fetch(VerifyPath(paymentIntentId));
            && (r.Ok? <==> reply.VerifyResponded? && reply.body.Parsed?)
            && (r.Ok? ==> r.value == reply.body.value.success)
            && (reply.VerifyFetchRejected? ==> r == Err(reply.thrown))
            && (reply.VerifyResponded? && reply.body.Unparsable? ==> r == Err(reply.body.thrown))
  {
    match fetch(VerifyPath(paymentIntentId))
    case VerifyFetchRejected(t) => Err(t)
    case VerifyResponded(body) =>
      match body
      case Parsed(data) => Ok(data.success)
      case Unparsable(t) => Err(t)
  }

  /** An observable step of `processPayment`, in the order it happens. */
  datatype Effect =
    | LoadingSet(loading: bool)
    | ErrorSet(error: Option<string>)
    | IntentRequested(request: CreatePaymentIntentRequest)
    | ConfirmRequested(clientSecret: Option<string>)

  /** The two state cells of the hook. */
  datatype Cells = Cells(loading: bool, error: Option<string>)

  function Step(c: Cells, e: Effect): Cells
  {
    match e
    case LoadingSet(v) => c.(loading := v)
    case ErrorSet(v) => c.(error := v)
    case IntentRequested(_) => c
    case ConfirmRequested(_) => c
  }

  /** The cells after the effects are applied in order. */
  function Apply(c: Cells, effects: seq<Effect>): Cells
    decreases |effects|
  {
    if effects == [] then c else Step(Apply(c, effects[..|effects| - 1]), effects[|effects| - 1])
  }

  function RequestOf(e: Effect): seq<CreatePaymentIntentRequest>
  {
    if e.IntentRequested? then [e.request] else []
  }

  /** The intent-creation requests among the effects, in order. */
  function Requests(effects: seq<Effect>): seq<CreatePaymentIntentRequest>
  {
    if effects == [] then [] else RequestOf(effects[0]) + Requests(effects[1..])
  }

  function ConfirmationOf(e: Effect): seq<Option<string>>
  {
    if e.ConfirmRequested? then [e.clientSecret] else []
  }

  /** The client secrets passed to card confirmation, in order. */
  function Confirmations(effects: seq<Effect>): seq<Option<string>>
  {
    if effects == [] then [] else ConfirmationOf(effects[0]) + Confirmations(effects[1..])
  }

  /** How the `try` block ends: by returning a result or by throwing. */
  datatype Completion = Returned(result: PaymentResult) | Threw(thrown: Thrown)

  datatype Attempt = Attempt(completion: Completion, effects: seq<Effect>)

  /** The `try` block after the intent request has gone out: its completion and
      the effects it has on the way. */
  function TryBlock(env: Environment): Attempt
  {
    match CreatePaymentIntent(env.intentReply)
    case Err(t) => Attempt(Threw(t), [])
    case Ok(response) =>
      if !env.cardElementMounted then Attempt(Threw(ErrorInstance(CardMissingMessage)), [])
      else
        var confirm := [ConfirmRequested(response.clientSecret)];
        match env.confirmReply
        case ConfirmRejected(t) => Attempt(Threw(t), confirm)
        case ConfirmResolved(stripeError, intent) =>
          if stripeError.Some? then
            var m := SdkErrorMessage(stripeError.value);
            Attempt(Returned(Failed(m)), confirm + [ErrorSet(Some(m))])
          else if intent.Some? && intent.value.status == SucceededStatus then
            Attempt(Returned(Succeeded(response.paymentIntentId)), confirm)
          else
            Attempt(Returned(Failed(NotSucceededMessage)), confirm)
  }

  /** The `try` block followed by its `catch`: a throw is reported through the error cell. */
  function Caught(env: Environment): Outcome
  {
    var attempt := TryBlock(env);
    match attempt.completion
    case Returned(r) => Outcome(r, attempt.effects)
    case Threw(t) =>
      var m := ThrownMessage(t);
      Outcome(Failed(m), attempt.effects + [ErrorSet(Some(m))])
  }

  datatype Outcome = Outcome(result: PaymentResult, effects: seq<Effect>)

  /** One run of `processPayment(amount, currency)` in the environment `env`:
      the result it resolves to and its effects in order. Whatever the branch,
      the result is `{success: true, paymentIntentId}` with no error, or
      `{success: false, error}` with no id. */
  function Run(amount: int, currency: Option<string>, env: Environment): (o: Outcome)
    ensures o.result.success ==> o.result.error.None?
    ensures !o.result.success ==> o.result.error.Some? && o.result.paymentIntentId.None?
  {
    if !Ready(env) then
      Outcome(Failed(NotLoadedMessage), [ErrorSet(Some(NotLoadedMessage))])
    else
      var caught := Caught(env);
      Outcome(caught.result,
              [LoadingSet(true), ErrorSet(None), IntentRequested(PaymentRequest(amount, currency))]
              + caught.effects + [LoadingSet(false)])
  }

  lemma ApplySnoc(c: Cells, s: seq<Effect>, e: Effect)
    ensures Apply(c, s + [e]) == Step(Apply(c, s), e)
  {
    assert (s + [e])[..|s + [e]| - 1] == s;
  }

  lemma {:induction false} ApplyConcat(c: Cells, a: seq<Effect>, b: seq<Effect>)
    ensures Apply(c, a + b) == Apply(Apply(c, a), b)
    decreases |b|
  {
    if b == [] {
      assert a + b == a;
    } else {
      var b' := b[..|b| - 1];
      var e := b[|b| - 1];
      assert b == b' + [e];
      assert a + b == (a + b') + [e];
      ApplySnoc(c, a + b', e);
      ApplyConcat(c, a, b');
      ApplySnoc(Apply(c, a), b', e);
    }
  }

  /** The hook instance: its two cells, and (for specification only) every
      effect it has had since it was created. */
  class PaymentHook {
    var loading: bool
    var error: Option<string>
    ghost var trace: seq<Effect>
    ghost var initial: Cells

    /** The cells are what the recorded effects made of the initial cells. */
    ghost predicate Valid()
      reads this
    {
      Cells(loading, error) == Apply(initial, trace)
    }

    /** `useState(false)` and `useState<string | null>(null)`. */
    constructor ()
      ensures Valid() && !loading && error.None? && trace == []
    {
      loading := false;
      error := None;
      trace := [];
      initial := Cells(false, None);
    }

    method SetLoading(value: bool)
      requires Valid()
      modifies this
      ensures Valid() && initial == old(initial)
      ensures loading == value && error == old(error)
      ensures trace == old(trace) + [LoadingSet(value)]
    {
      ApplySnoc(initial, trace, LoadingSet(value));
      loading := value;
      trace := trace + [LoadingSet(value)];
    }

    method SetError(value: Option<string>)
      requires Valid()
      modifies this
      ensures Valid() && initial == old(initial)
      ensures loading == old(loading) && error == value
      ensures trace == old(trace) + [ErrorSet(value)]
    {
      ApplySnoc(initial, trace, ErrorSet(value));
      error := value;
      trace := trace + [ErrorSet(value)];
    }

    /** Records an external call; the cells do not change. */
    method Record(e: Effect)
      requires Valid()
      requires e.IntentRequested? || e.ConfirmRequested?
      modifies this
      ensures Valid() && initial == old(initial)
      ensures loading == old(loading) && error == old(error)
      ensures trace == old(trace) + [e]
    {
      ApplySnoc(initial, trace, e);
      trace := trace + [e];
    }

    /** The `try` block once the intent request is out: the intent reply is
        read, the card element looked up and the card confirmed. It ends by
        throwing or by returning, exactly as `TryBlock` says. */
    method TryBlockSteps(env: Environment) returns (completion: Completion)
      requires Valid()
      modifies this
      ensures Valid() && initial == old(initial)
      ensures trace == old(trace) + TryBlock(env).effects
      ensures completion == TryBlock(env).completion
    {
      var created := CreatePaymentIntent(env.intentReply);
      if created.Err? {
        return Threw(created.error);
      }
      if !env.cardElementMounted {
        return Threw(ErrorInstance(CardMissingMessage));
      }
      var response := created.value;
      Record(ConfirmRequested(response.clientSecret));
      match env.confirmReply {
        case ConfirmRejected(t) =>
          completion := Threw(t);
        case ConfirmResolved(stripeError, intent) =>
          if stripeError.Some? {
            var message := SdkErrorMessage(stripeError.value);
            SetError(Some(message));
            completion := Returned(Failed(message));
          } else if intent.Some? && intent.value.status == SucceededStatus {
            completion := Returned(Succeeded(response.paymentIntentId));
          } else {
            completion := Returned(Failed(NotSucceededMessage));
          }
      }
    }

    /** The `try` block from the intent request on, and its `catch`. */
    method TryCatch(amount: int, currency: Option<string>, env: Environment) returns (result: PaymentResult)
      requires Valid()
      modifies this
      ensures Valid() && initial == old(initial)
      ensures result == Caught(env).result
      ensures trace == old(trace) + [IntentRequested(PaymentRequest(amount, currency))] + Caught(env).effects
    {
      Record(IntentRequested(PaymentRequest(amount, currency)));
      ghost var opening := trace;
      var completion := TryBlockSteps(env);
      match completion {
        case Returned(r) =>
          result := r;
        case Threw(t) =>
          var message := ThrownMessage(t);
          SetError(Some(message));
          result := Failed(message);
      }
      assert trace == opening + Caught(env).effects;
    }

    /** The ready path: `setLoading(true)`, `setError(null)`, the `try`/`catch`
        and the `finally` that sets `loading` back to false. */
    method ReadyPath(amount: int, currency: Option<string>, env: Environment) returns (result: PaymentResult)
      requires Valid()
      modifies this
      ensures Valid() && initial == old(initial)
      ensures result == Caught(env).result
      ensures trace == old(trace) + [LoadingSet(true), ErrorSet(None), IntentRequested(PaymentRequest(amount, currency))]
                                  + Caught(env).effects + [LoadingSet(false)]
    {
      SetLoading(true);
      SetError(None);
      result := TryCatch(amount, currency, env);
      // finally
      SetLoading(false);
    }

    /** `processPayment(amount, currency)`: resolves to the result of `Run`, has
        exactly `Run`'s effects, and leaves the cells as those effects make them. */
    method ProcessPayment(amount: int, currency: Option<string>, env: Environment) returns (result: PaymentResult)
      requires Valid()
      modifies this
      ensures Valid() && initial == old(initial)
      ensures result == Run(amount, currency, env).result
      ensures trace == old(trace) + Run(amount, currency, env).effects
      ensures Cells(loading, error) == Apply(old(Cells(loading, error)), Run(amount, currency, env).effects)
    {
      ghost var before := trace;
      if !env.stripeLoaded || !env.elementsLoaded {
        SetError(Some(NotLoadedMessage));
        result := Failed(NotLoadedMessage);
      } else {
        result := ReadyPath(amount, currency, env);
        ghost var effects := Run(amount, currency, env).effects;
        assert effects == [LoadingSet(true), ErrorSet(None), IntentRequested(PaymentRequest(amount, currency))]
                          + Caught(env).effects + [LoadingSet(false)];
        assert trace == before + effects;
      }
      ApplyConcat(initial, before, Run(amount, currency, env).effects);
    }
  }
}
