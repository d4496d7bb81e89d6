/** What one run of `processPayment` guarantees, branch by branch
    (frontend/src/payment/client/PaymentClient.ts:42-93). */
module PaymentClientProperties {
  import opened Common
  import opened PaymentTypes
  import opened PaymentClient

  /** None of the effects writes the `loading` cell. */
  predicate NoLoadingWrites(s: seq<Effect>)
  {
    forall i :: 0 <= i < |s| ==> !s[i].LoadingSet?
  }

  /** The card was confirmed and the SDK reported no error object: the run
      ended in the status check, which never writes the error cell. */
  predicate ConfirmedWithoutError(env: Environment)
  {
    && CreatePaymentIntent(env.intentReply).Ok?
    && env.cardElementMounted
    && env.confirmReply.ConfirmResolved?
    && env.confirmReply.error.None?
  }

  lemma {:induction false} LoadingUntouched(c: Cells, s: seq<Effect>)
    requires NoLoadingWrites(s)
    ensures Apply(c, s).loading == c.loading
    decreases |s|
  {
    if s != [] {
      LoadingUntouched(c, s[..|s| - 1]);
    }
  }

  lemma {:induction false} RequestsConcat(a: seq<Effect>, b: seq<Effect>)
    ensures Requests(a + b) == Requests(a) + Requests(b)
  {
    if a == [] {
      assert a + b == b;
    } else {
      assert (a + b)[1..] == a[1..] + b;
      RequestsConcat(a[1..], b);
      assert Requests(a + b) == RequestOf(a[0]) + (Requests(a[1..]) + Requests(b));
    }
  }

  lemma {:induction false} ConfirmationsConcat(a: seq<Effect>, b: seq<Effect>)
    ensures Confirmations(a + b) == Confirmations(a) + Confirmations(b)
  {
    if a == [] {
      assert a + b == b;
    } else {
      assert (a + b)[1..] == a[1..] + b;
      ConfirmationsConcat(a[1..], b);
      assert Confirmations(a + b) == ConfirmationOf(a[0]) + (Confirmations(a[1..]) + Confirmations(b));
    }
  }

  lemma Singleton(e: Effect, c: Cells)
    ensures Requests([e]) == RequestOf(e)
    ensures Confirmations([e]) == ConfirmationOf(e)
    ensures Apply(c, [e]) == Step(c, e)
  {
    assert [e][1..] == [];
    assert [e][..0] == [];
  }

  lemma Pair(e1: Effect, e2: Effect, c: Cells)
    ensures Requests([e1, e2]) == RequestOf(e1) + RequestOf(e2)
    ensures Confirmations([e1, e2]) == ConfirmationOf(e1) + ConfirmationOf(e2)
    ensures Apply(c, [e1, e2]) == Step(Step(c, e1), e2)
  {
    assert [e1, e2] == [e1] + [e2];
    RequestsConcat([e1], [e2]);
    ConfirmationsConcat([e1], [e2]);
    Singleton(e1, c);
    Singleton(e2, c);
    ApplySnoc(c, [e1], e2);
  }

  /** What the `try`/`catch` part contributes: no loading write, no intent
      request, one confirmation exactly when a created intent met a mounted
      card element, and an error cell that ends up holding the reported error
      except when the status check decided. */
  lemma CaughtEffects(env: Environment)
    ensures NoLoadingWrites(Caught(env).effects)
    ensures Requests(Caught(env).effects) == []
    ensures Confirmations(Caught(env).effects) ==
              if CreatePaymentIntent(env.intentReply).Ok? && env.cardElementMounted
              then [CreatePaymentIntent(env.intentReply).value.clientSecret] else []
    ensures Apply(Cells(true, None), Caught(env).effects) ==
              Cells(true, if ConfirmedWithoutError(env) then None else Caught(env).result.error)
  {
    var e := Caught(env).effects;
    var created := CreatePaymentIntent(env.intentReply);
    var report := ErrorSet(Caught(env).result.error);
    CaughtShape(env);
    if created.Ok? && env.cardElementMounted {
      var confirm := ConfirmRequested(created.value.clientSecret);
      if ConfirmedWithoutError(env) {
        Singleton(confirm, Cells(true, None));
      } else {
        Pair(confirm, report, Cells(true, None));
      }
    } else {
      Singleton(report, Cells(true, None));
    }
  }

  /** The effects of the `try`/`catch` part, branch by branch: the
      confirmation request when the card is confirmed, then one error write
      unless the status check decided. */
  lemma CaughtShape(env: Environment)
    ensures var created := CreatePaymentIntent(env.intentReply);
            var report := ErrorSet(Caught(env).result.error);
            Caught(env).effects ==
              if !(created.Ok? && env.cardElementMounted) then [report]
              else if ConfirmedWithoutError(env) then [ConfirmRequested(created.value.clientSecret)]
              else [ConfirmRequested(created.value.clientSecret), report]
  {
  }

  /** On the ready path the cells end as: `loading` false, `error` as the
      `try`/`catch` part left it after the opening `setError(null)`. */
  lemma ReadyRunCells(amount: int, currency: Option<string>, env: Environment, c: Cells)
    requires Ready(env)
    ensures Apply(c, Run(amount, currency, env).effects) ==
              Cells(false, Apply(Cells(true, None), Caught(env).effects).error)
  {
    var opening := [LoadingSet(true), ErrorSet(None), IntentRequested(PaymentRequest(amount, currency))];
    var body := Caught(env).effects;
    Pair(LoadingSet(true), ErrorSet(None), c);
    assert opening == [LoadingSet(true), ErrorSet(None)] + [opening[2]];
    ApplySnoc(c, [LoadingSet(true), ErrorSet(None)], opening[2]);
    assert Apply(c, opening) == Cells(true, None);
    ApplyConcat(c, opening, body);
    ApplySnoc(c, opening + body, LoadingSet(false));
  }

  /** Not ready (`stripe` or `elements` missing): the result is
      "Stripe has not loaded yet", the error cell holds the same string,
      `loading` is not touched and nothing is requested. */
  lemma NotReadyShortCircuits(amount: int, currency: Option<string>, env: Environment, c: Cells)
    requires !Ready(env)
    ensures Run(amount, currency, env).result == Failed(NotLoadedMessage)
    ensures Apply(c, Run(amount, currency, env).effects) == Cells(c.loading, Some(NotLoadedMessage))
    ensures Requests(Run(amount, currency, env).effects) == []
    ensures Confirmations(Run(amount, currency, env).effects) == []
  {
    var e := Run(amount, currency, env).effects;
    assert e[..0] == [];
  }

  /** A prefix that starts by setting `loading` and never writes it again
      leaves `loading` true. */
  lemma LoadingHeld(c: Cells, e: seq<Effect>, k: nat)
    requires 1 <= k <= |e| && e[0] == LoadingSet(true)
    requires NoLoadingWrites(e[1..k])
    ensures Apply(c, e[..k]).loading
  {
    assert e[..k] == [LoadingSet(true)] + e[1..k];
    Singleton(LoadingSet(true), c);
    ApplyConcat(c, [LoadingSet(true)], e[1..k]);
    LoadingUntouched(Apply(c, [LoadingSet(true)]), e[1..k]);
  }

  /** Effects framed by two loading writes have none in between when the
      framed part has none. */
  lemma FramedMiddle(opening: seq<Effect>, body: seq<Effect>, e: seq<Effect>)
    requires |opening| == 3 && !opening[1].LoadingSet? && !opening[2].LoadingSet?
    requires NoLoadingWrites(body)
    requires e == opening + body + [LoadingSet(false)]
    ensures NoLoadingWrites(e[1..|e| - 1])
  {
    var middle := e[1..|e| - 1];
    assert middle == opening[1..] + body;
    forall i | 0 <= i < |middle|
      ensures !middle[i].LoadingSet?
    {
      if i >= 2 {
        assert middle[i] == body[i - 2];
      } else {
        assert middle[i] == opening[i + 1];
      }
    }
  }

  /** Between the opening `setLoading(true)` and the final `setLoading(false)`
      nothing writes `loading`. */
  lemma ReadyRunMiddle(amount: int, currency: Option<string>, env: Environment)
    requires Ready(env)
    ensures var e := Run(amount, currency, env).effects;
            && |e| >= 4
            && e[0] == LoadingSet(true) && e[1] == ErrorSet(None)
            && e[2] == IntentRequested(PaymentRequest(amount, currency))
            && e[|e| - 1] == LoadingSet(false)
            && NoLoadingWrites(e[1..|e| - 1])
  {
    var e := Run(amount, currency, env).effects;
    var body := Caught(env).effects;
    var opening := [LoadingSet(true), ErrorSet(None), IntentRequested(PaymentRequest(amount, currency))];
    assert e == opening + body + [LoadingSet(false)];
    CaughtEffects(env);
    FramedMiddle(opening, body, e);
  }

  /** On the ready path `loading` is set and `error` cleared before the intent
      request; `loading` then stays true until the single final write, which
      sets it false whatever the branch. */
  lemma ReadyRunLoadingLifecycle(amount: int, currency: Option<string>, env: Environment, c: Cells)
    requires Ready(env)
    ensures var e := Run(amount, currency, env).effects;
            && |e| >= 4
            && Apply(c, e[..2]) == Cells(true, None)
            && e[2] == IntentRequested(PaymentRequest(amount, currency))
            && (forall k :: 1 <= k < |e| ==> Apply(c, e[..k]).loading)
            && !Apply(c, e).loading
  {
    var e := Run(amount, currency, env).effects;
    ReadyRunMiddle(amount, currency, env);
    assert e[..2] == [LoadingSet(true), ErrorSet(None)];
    Pair(LoadingSet(true), ErrorSet(None), c);
    forall k | 1 <= k < |e|
      ensures Apply(c, e[..k]).loading
    {
      assert e[1..k] == e[1..|e| - 1][..k - 1];
      LoadingHeld(c, e, k);
    }
    ReadyRunCells(amount, currency, env, c);
  }

  /** The opening of a ready run: one intent request, no confirmation. */
  lemma OpeningEffects(amount: int, currency: Option<string>)
    ensures var opening := [LoadingSet(true), ErrorSet(None), IntentRequested(PaymentRequest(amount, currency))];
            && Requests(opening) == [PaymentRequest(amount, currency)]
            && Confirmations(opening) == []
  {
    var opening := [LoadingSet(true), ErrorSet(None), IntentRequested(PaymentRequest(amount, currency))];
    assert opening == [LoadingSet(true), ErrorSet(None)] + [opening[2]];
    Pair(LoadingSet(true), ErrorSet(None), Cells(false, None));
    Singleton(opening[2], Cells(false, None));
    RequestsConcat([LoadingSet(true), ErrorSet(None)], [opening[2]]);
    ConfirmationsConcat([LoadingSet(true), ErrorSet(None)], [opening[2]]);
  }

  lemma Framed(a: seq<Effect>, body: seq<Effect>, z: Effect)
    ensures Requests(a + body + [z]) == Requests(a) + Requests(body) + RequestOf(z)
    ensures Confirmations(a + body + [z]) == Confirmations(a) + Confirmations(body) + ConfirmationOf(z)
  {
    Singleton(z, Cells(false, None));
    RequestsConcat(a, body);
    RequestsConcat(a + body, [z]);
    ConfirmationsConcat(a, body);
    ConfirmationsConcat(a + body, [z]);
  }

  /** Exactly one intent request per ready run, never one otherwise; its body
      is the amount, the currency ("usd" when omitted) and the fixed
      description, nothing else. */
  lemma IntentRequestPerRun(amount: int, currency: Option<string>, env: Environment)
    ensures Requests(Run(amount, currency, env).effects) ==
              if Ready(env) then
                [CreatePaymentIntentRequest(amount, if currency.Some? then currency.value else DefaultCurrency,
                                            Some(PaymentDescription), None, None, None)]
              else []
  {
    if Ready(env) {
      var opening := [LoadingSet(true), ErrorSet(None), IntentRequested(PaymentRequest(amount, currency))];
      var body := Caught(env).effects;
      assert Run(amount, currency, env).effects == opening + body + [LoadingSet(false)];
      CaughtEffects(env);
      OpeningEffects(amount, currency);
      Framed(opening, body, LoadingSet(false));
    }
  }

  /** The card is confirmed at most once: only when the intent was created and
      the card element was found, and then with the intent's client secret. */
  lemma ConfirmationPerRun(amount: int, currency: Option<string>, env: Environment)
    ensures Confirmations(Run(amount, currency, env).effects) ==
              if Ready(env) && CreatePaymentIntent(env.intentReply).Ok? && env.cardElementMounted
              then [CreatePaymentIntent(env.intentReply).value.clientSecret] else []
  {
    if Ready(env) {
      var opening := [LoadingSet(true), ErrorSet(None), IntentRequested(PaymentRequest(amount, currency))];
      var body := Caught(env).effects;
      assert Run(amount, currency, env).effects == opening + body + [LoadingSet(false)];
      CaughtEffects(env);
      OpeningEffects(amount, currency);
      Framed(opening, body, LoadingSet(false));
    }
  }

  /** The error cell after a run holds the result's error, except when the
      status check decided: then it keeps the `null` written at the start. */
  lemma ErrorCellMirrorsResult(amount: int, currency: Option<string>, env: Environment, c: Cells)
    ensures var o := Run(amount, currency, env);
            Apply(c, o.effects).error ==
              if Ready(env) && ConfirmedWithoutError(env) then None else o.result.error
  {
    if Ready(env) {
      CaughtEffects(env);
      ReadyRunCells(amount, currency, env, c);
    } else {
      NotReadyShortCircuits(amount, currency, env, c);
    }
  }

  /** Server not ok: the body's message if truthy, else
      "Failed to create payment intent", in the result and in the error cell;
      the card is never confirmed. */
  lemma ServerRejectionReported(amount: int, currency: Option<string>, env: Environment, c: Cells, body: ErrorBody)
    requires Ready(env) && env.intentReply == NotOkResponse(Parsed(body))
    ensures var o := Run(amount, currency, env);
            && o.result == Failed(IntentFailureMessage(body.message))
            && Apply(c, o.effects) == Cells(false, Some(IntentFailureMessage(body.message)))
            && Confirmations(o.effects) == []
  {
    ErrorCellMirrorsResult(amount, currency, env, c);
    ReadyRunLoadingLifecycle(amount, currency, env, c);
    ConfirmationPerRun(amount, currency, env);
  }

  /** Card element missing: "Card element not found" in the result and the
      error cell, and the SDK confirmation is not called. */
  lemma CardMissingReported(amount: int, currency: Option<string>, env: Environment, c: Cells)
    requires Ready(env) && CreatePaymentIntent(env.intentReply).Ok? && !env.cardElementMounted
    ensures var o := Run(amount, currency, env);
            && o.result == Failed(CardMissingMessage)
            && Apply(c, o.effects) == Cells(false, Some(CardMissingMessage))
            && Confirmations(o.effects) == []
  {
    ErrorCellMirrorsResult(amount, currency, env, c);
    ReadyRunLoadingLifecycle(amount, currency, env, c);
    ConfirmationPerRun(amount, currency, env);
  }

  /** SDK error object: its message, or "Payment failed" when it has none, in
      the result and the error cell. */
  lemma SdkErrorReported(amount: int, currency: Option<string>, env: Environment, c: Cells)
    requires Ready(env) && CreatePaymentIntent(env.intentReply).Ok? && env.cardElementMounted
    requires env.confirmReply.ConfirmResolved? && env.confirmReply.error.Some?
    ensures var o := Run(amount, currency, env);
            var m := SdkErrorMessage(env.confirmReply.error.value);
            && o.result == Failed(m)
            && Apply(c, o.effects) == Cells(false, Some(m))
  {
    ErrorCellMirrorsResult(amount, currency, env, c);
    ReadyRunLoadingLifecycle(amount, currency, env, c);
  }

  /** Status exactly "succeeded": success, carrying the id the server sent
      when the intent was created (possibly undefined), with the error cell
      left `null`. */
  lemma SucceededUsesServerId(amount: int, currency: Option<string>, env: Environment, c: Cells)
    requires Ready(env) && ConfirmedWithoutError(env)
    requires env.confirmReply.paymentIntent.Some? && env.confirmReply.paymentIntent.value.status == SucceededStatus
    ensures var o := Run(amount, currency, env);
            && o.result == Succeeded(CreatePaymentIntent(env.intentReply).value.paymentIntentId)
            && Apply(c, o.effects) == Cells(false, None)
  {
    ErrorCellMirrorsResult(amount, currency, env, c);
    ReadyRunLoadingLifecycle(amount, currency, env, c);
  }

  /** The id inside the SDK's confirmation result never influences the run. */
  lemma SdkIntentIdIgnored(amount: int, currency: Option<string>, env: Environment, otherId: Option<string>)
    requires env.confirmReply.ConfirmResolved? && env.confirmReply.paymentIntent.Some?
    ensures var intent := env.confirmReply.paymentIntent.value;
            var env' := env.(confirmReply := env.confirmReply.(paymentIntent := Some(intent.(id := otherId))));
            Run(amount, currency, env') == Run(amount, currency, env)
  {
  }

  /** Any other status, or no intent at all: "Payment did not succeed", and the
      error cell stays `null`. */
  lemma OtherStatusLeavesErrorNull(amount: int, currency: Option<string>, env: Environment, c: Cells)
    requires Ready(env) && ConfirmedWithoutError(env)
    requires !(env.confirmReply.paymentIntent.Some? && env.confirmReply.paymentIntent.value.status == SucceededStatus)
    ensures var o := Run(amount, currency, env);
            && o.result == Failed(NotSucceededMessage)
            && Apply(c, o.effects) == Cells(false, None)
  {
    ErrorCellMirrorsResult(amount, currency, env, c);
    ReadyRunLoadingLifecycle(amount, currency, env, c);
  }

  /** The outcomes that make the `try` block throw: the intent fetch rejects,
      the server answers not-ok, a body cannot be read, the card element is
      missing, or the confirmation rejects. */
  predicate Throws(env: Environment)
  {
    || env.intentReply.FetchRejected?
    || env.intentReply.NotOkResponse?
    || (env.intentReply.OkResponse? && env.intentReply.body.Unparsable?)
    || !env.cardElementMounted
    || env.confirmReply.ConfirmRejected?
  }

  /** What is thrown, read off the outcomes in the order the `try` block meets them. */
  function ThrownBy(env: Environment): Thrown
    requires Throws(env)
  {
    match env.intentReply
    case FetchRejected(t) => t
    case NotOkResponse(body) =>
      (match body
       case Parsed(e) => ErrorInstance(IntentFailureMessage(e.message))
       case Unparsable(t) => t)
    case OkResponse(body) =>
      if body.Unparsable? then body.thrown
      else if !env.cardElementMounted then ErrorInstance(CardMissingMessage)
      else env.confirmReply.thrown
  }

  /** A throw inside the `try` block, in any of its five forms: an `Error`'s
      message, anything else "Unknown error", in the result and in the error
      cell; and the `try` block throws in no other case. */
  lemma ThrowReported(amount: int, currency: Option<string>, env: Environment, c: Cells)
    requires Ready(env)
    ensures TryBlock(env).completion.Threw? <==> Throws(env)
    ensures Throws(env) ==>
            var o := Run(amount, currency, env);
            var t := ThrownBy(env);
            var m := if t.ErrorInstance? then t.message else UnknownErrorMessage;
            && o.result == Failed(m)
            && Apply(c, o.effects) == Cells(false, Some(m))
  {
    ErrorCellMirrorsResult(amount, currency, env, c);
    ReadyRunLoadingLifecycle(amount, currency, env, c);
  }
}
