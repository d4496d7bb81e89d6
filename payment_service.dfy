/** The backend payment service
    (src/main/java/com/fortuna/payment/service/PaymentService.java): it turns
    a request DTO into Stripe create parameters, calls Stripe, copies the
    created intent into a response DTO, and checks an intent's status. Every
    Stripe failure is rethrown as a `PaymentException` wrapping it. */
module PaymentService {
  import opened Common
  import opened JavaExceptions
  import opened PaymentExceptions

  const SucceededStatus := "succeeded"
  const OrderIdKey := "orderId"
  const UserIdKey := "userId"

  /** `PaymentIntentRequestDTO`, the controller's request body; `null` fields are `None`. */
  datatype PaymentIntentRequestDTO = PaymentIntentRequestDTO(
    amount: Option<int>,
    currency: Option<string>,
    description: Option<string>,
    customerEmail: Option<string>,
    orderId: Option<string>,
    userId: Option<string>)

  /** `PaymentIntentRequest`, the service's own copy of the request. */
  datatype PaymentIntentRequest = PaymentIntentRequest(
    amount: Option<int>,
    currency: Option<string>,
    description: Option<string>,
    customerEmail: Option<string>,
    orderId: Option<string>,
    userId: Option<string>)

  /** `PaymentIntentResponseDTO`, what the controller returns. */
  datatype PaymentIntentResponseDTO = PaymentIntentResponseDTO(
    clientSecret: Option<string>,
    paymentIntentId: Option<string>,
    amount: Option<int>,
    currency: Option<string>)

  /** A Stripe `PaymentIntent`, as far as the service reads it. */
  datatype PaymentIntent = PaymentIntent(
    id: Option<string>,
    clientSecret: Option<string>,
    amount: Option<int>,
    currency: Option<string>,
    status: Option<string>)

  /** Stripe's `PaymentIntentCreateParams`; an optional parameter never set is `None`. */
  datatype CreateParams = CreateParams(
    amount: Option<int>,
    currency: Option<string>,
    metadata: map<string, string>,
    automaticPaymentMethodsEnabled: bool,
    description: Option<string>,
    receiptEmail: Option<string>)

  /** `toServiceModel`: all six request fields are carried over unchanged. */
  function ToServiceModel(dto: PaymentIntentRequestDTO): (r: PaymentIntentRequest)
    ensures r.amount == dto.amount && r.currency == dto.currency
    ensures r.description == dto.description && r.customerEmail == dto.customerEmail
    ensures r.orderId == dto.orderId && r.userId == dto.userId
  {
    PaymentIntentRequest(dto.amount, dto.currency, dto.description, dto.customerEmail, dto.orderId, dto.userId)
  }

  /** `toResponseDTO`: the client secret, the id (as `paymentIntentId`), the
      amount and the currency of the created intent, unchanged. */
  function ToResponseDTO(intent: PaymentIntent): (r: PaymentIntentResponseDTO)
    ensures r.clientSecret == intent.clientSecret && r.paymentIntentId == intent.id
    ensures r.amount == intent.amount && r.currency == intent.currency
  {
    PaymentIntentResponseDTO(intent.clientSecret, intent.id, intent.amount, intent.currency)
  }

  /** The metadata the service attaches: an "orderId" entry exactly when the
      request has an order id, a "userId" entry exactly when it has a user
      id, each holding that value, and no other key. */
  predicate MetadataFor(request: PaymentIntentRequest, metadata: map<string, string>)
  {
    && (OrderIdKey in metadata <==> request.orderId.Some?)
    && (request.orderId.Some? ==> metadata[OrderIdKey] == request.orderId.value)
    && (UserIdKey in metadata <==> request.userId.Some?)
    && (request.userId.Some? ==> metadata[UserIdKey] == request.userId.value)
    && (forall k :: k in metadata ==> k == OrderIdKey || k == UserIdKey)
  }

  /** The create parameters for a request: amount and currency passed on
      unchanged, the metadata above, automatic payment methods enabled, a
      description exactly when the request has one, and a receipt e-mail
      exactly when the request has a customer e-mail. */
  predicate ParamsFor(request: PaymentIntentRequest, params: CreateParams)
  {
    && params.amount == request.amount
    && params.currency == request.currency
    && MetadataFor(request, params.metadata)
    && params.automaticPaymentMethodsEnabled
    && params.description == request.description
    && params.receiptEmail == request.customerEmail
  }

  /** `buildMetadata`: fills an empty map, one conditional `put` per id. */
  method BuildMetadata(request: PaymentIntentRequest) returns (metadata: map<string, string>)
    ensures MetadataFor(request, metadata)
  {
    metadata := map[];
    if request.orderId.Some? {
      metadata := metadata[OrderIdKey := request.orderId.value];
    }
    if request.userId.Some? {
      metadata := metadata[UserIdKey := request.userId.value];
    }
  }

  /** `buildStripeParams`: a builder with the mandatory parameters, then the
      two optional setters, each only for a non-null value. */
  method BuildStripeParams(request: PaymentIntentRequest) returns (params: CreateParams)
    ensures ParamsFor(request, params)
  {
    var metadata := BuildMetadata(request);
    var builder := CreateParams(request.amount, request.currency, metadata, true, None, None);
    if request.description.Some? {
      builder := builder.(description := request.description);
    }
    if request.customerEmail.Some? {
      builder := builder.(receiptEmail := request.customerEmail);
    }
    params := builder;
  }

  /** The metadata rule leaves no choice: two maps that both follow it are equal. */
  lemma MetadataDetermined(request: PaymentIntentRequest, m1: map<string, string>, m2: map<string, string>)
    requires MetadataFor(request, m1) && MetadataFor(request, m2)
    ensures m1 == m2
  {
    assert m1.Keys == m2.Keys by {
      forall k | k in m1
        ensures k in m2
      {
      }
      forall k | k in m2
        ensures k in m1
      {
      }
    }
  }

  /** Neither does the parameter rule: equal requests give equal parameters,
      so the parameters sent to Stripe are a function of the request. */
  lemma ParamsDetermined(request: PaymentIntentRequest, p1: CreateParams, p2: CreateParams)
    requires ParamsFor(request, p1) && ParamsFor(request, p2)
    ensures p1 == p2
  {
    MetadataDetermined(request, p1.metadata, p2.metadata);
  }

  /** `verifyPaymentSuccess` after `retrievePaymentIntent`: a retrieved
      intent gives `true` exactly when its status is "succeeded" (a `null`
      status gives `false`); a Stripe failure is not turned into `false` but
      thrown as a `PaymentException` wrapping it. */
  function Verification(reply: Result<PaymentIntent, StripeException>): (r: Result<bool, JavaException>)
    ensures r.Ok? <==> reply.Ok?
    ensures r.Ok? ==> (r.value <==> reply.value.status == Some(SucceededStatus))
    ensures r.Err? ==> r.error == FromStripe(reply.error) && r.error.cls == PaymentException
  {
    match reply
    case Ok(intent) => Ok(intent.status == Some(SucceededStatus))
    case Err(e) => Err(FromStripe(e))
  }

  /** The Stripe API (`PaymentIntent.create` and `PaymentIntent.retrieve`)
      seen from the service: each call's outcome is given by an oracle, and
      the calls are logged. */
  class StripeApi {
    const create: CreateParams -> Result<PaymentIntent, StripeException>
    const retrieve: string -> Result<PaymentIntent, StripeException>
    ghost var createCalls: seq<CreateParams>
    ghost var retrieveCalls: seq<string>

    constructor (create: CreateParams -> Result<PaymentIntent, StripeException>,
                 retrieve: string -> Result<PaymentIntent, StripeException>)
      ensures this.create == create && this.retrieve == retrieve
      ensures createCalls == [] && retrieveCalls == []
    {
      this.create := create;
      this.retrieve := retrieve;
      createCalls := [];
      retrieveCalls := [];
    }

    /** `PaymentIntent.create(params)`. */
    method Create(params: CreateParams) returns (r: Result<PaymentIntent, StripeException>)
      modifies this
      ensures r == create(params)
      ensures createCalls == old(createCalls) + [params] && retrieveCalls == old(retrieveCalls)
    {
      r := create(params);
      createCalls := createCalls + [params];
    }

    /** `PaymentIntent.retrieve(id)`. */
    method Retrieve(paymentIntentId: string) returns (r: Result<PaymentIntent, StripeException>)
      modifies this
      ensures r == retrieve(paymentIntentId)
      ensures retrieveCalls == old(retrieveCalls) + [paymentIntentId] && createCalls == old(createCalls)
    {
      r := retrieve(paymentIntentId);
      retrieveCalls := retrieveCalls + [paymentIntentId];
    }
  }

  /** `createPaymentIntent`: exactly one Stripe create call, with the
      parameters built from the request; a created intent is copied into the
      response, a Stripe failure comes back as a `PaymentException` wrapping it. */
  method CreatePaymentIntent(stripe: StripeApi, requestDTO: PaymentIntentRequestDTO)
    returns (r: Result<PaymentIntentResponseDTO, JavaException>)
    modifies stripe
    ensures |stripe.createCalls| == |old(stripe.createCalls)| + 1
    ensures stripe.createCalls[..|old(stripe.createCalls)|] == old(stripe.createCalls)
    ensures stripe.retrieveCalls == old(stripe.retrieveCalls)
    ensures var params := stripe.createCalls[|old(stripe.createCalls)|];
            && ParamsFor(ToServiceModel(requestDTO), params)
            && (stripe.create(params).Ok? ==> r == Ok(ToResponseDTO(stripe.create(params).value)))
            && (stripe.create(params).Err? ==> r == Err(FromStripe(stripe.create(params).error)))
  {
    var request := ToServiceModel(requestDTO);
    var params := BuildStripeParams(request);
    var intent := stripe.Create(params);
    match intent
    case Ok(created) =>
      r := Ok(ToResponseDTO(created));
    case Err(e) =>
      r := Err(FromStripe(e));
  }

  /** `retrievePaymentIntent`: one Stripe retrieve call; a failure comes back
      as a `PaymentException` wrapping it. */
  method RetrievePaymentIntent(stripe: StripeApi, paymentIntentId: string)
    returns (r: Result<PaymentIntent, JavaException>)
    modifies stripe
    ensures stripe.retrieveCalls == old(stripe.retrieveCalls) + [paymentIntentId]
    ensures stripe.createCalls == old(stripe.createCalls)
    ensures stripe.retrieve(paymentIntentId).Ok? ==> r == Ok(stripe.retrieve(paymentIntentId).value)
    ensures stripe.retrieve(paymentIntentId).Err? ==> r == Err(FromStripe(stripe.retrieve(paymentIntentId).error))
  {
    var intent := stripe.Retrieve(paymentIntentId);
    match intent
    case Ok(found) =>
      r := Ok(found);
    case Err(e) =>
      r := Err(FromStripe(e));
  }

  /** `verifyPaymentSuccess`: retrieves the intent and compares its status. */
  method VerifyPaymentSuccess(stripe: StripeApi, paymentIntentId: string)
    returns (r: Result<bool, JavaException>)
    modifies stripe
    ensures stripe.retrieveCalls == old(stripe.retrieveCalls) + [paymentIntentId]
    ensures stripe.createCalls == old(stripe.createCalls)
    ensures r == Verification(stripe.retrieve(paymentIntentId))
  {
    var intent := RetrievePaymentIntent(stripe, paymentIntentId);
    match intent
    case Ok(found) =>
      r := Ok(found.status == Some(SucceededStatus));
    case Err(e) =>
      r := Err(e);
  }
}
