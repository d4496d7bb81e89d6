/** The pay button (frontend/src/payment/components/PaymentButton.tsx): it
    records a click metric, runs the payment flow, reacts to its result through
    the optional callbacks and a `paymentSuccess` cell, and renders from
    `(loading, error, paymentSuccess)`. */
module PaymentButtonComponent {
  import opened Common
  import opened PaymentTypes
  import opened PaymentClient
  import PaymentClientProperties

  const PayNowTriggerId := "Pay Now Button"
  const HomeScreen := "Home"

  /** The metric event types the button uses. */
  datatype MetricEventType = ButtonClick

  /** What the button does that a caller can observe, in order. */
  datatype ButtonEvent =
    | MetricSaved(eventType: MetricEventType, triggerId: string, screen: string)
    | PaymentStarted(amount: int, currency: string)
    | SuccessCallback(paymentIntentId: string)
    | ErrorCallback(error: string)

  /** The three-way reaction of `handlePayment` to a payment result. */
  datatype Reaction = Confirm(paymentIntentId: string) | Report(error: string) | Ignore

  /** `if (result.success && result.paymentIntentId) ... else if (result.error) ...`:
      a success with a truthy id confirms it; otherwise a truthy error is
      reported; otherwise nothing happens. */
  function Dispatch(result: PaymentResult): (r: Reaction)
    ensures r.Confirm? <==> result.success && Truthy(result.paymentIntentId)
    ensures r.Confirm? ==> result.paymentIntentId == Some(r.paymentIntentId)
    ensures r.Report? <==> !(result.success && Truthy(result.paymentIntentId)) && Truthy(result.error)
    ensures r.Report? ==> result.error == Some(r.error)
  {
    if result.success && Truthy(result.paymentIntentId) then Confirm(result.paymentIntentId.value)
    else if Truthy(result.error) then Report(result.error.value)
    else Ignore
  }

  /** The callbacks a reaction fires; an absent callback (`onSuccess?.(...)`) fires nothing. */
  function Callbacks(reaction: Reaction, hasOnSuccess: bool, hasOnError: bool): seq<ButtonEvent>
  {
    match reaction
    case Confirm(id) => if hasOnSuccess then [SuccessCallback(id)] else []
    case Report(e) => if hasOnError then [ErrorCallback(e)] else []
    case Ignore => []
  }

  /** The button's caption: the spinner text while loading, the price otherwise. */
  datatype ButtonLabel = Processing | PayAmount(amountInCents: int)

  /** What the component renders. */
  datatype Screen =
    | SuccessAlert
    | PaymentForm(errorAlert: Option<string>, disabled: bool, caption: ButtonLabel)

  /** The render choice: once the payment succeeded only the success alert;
      otherwise the form, with an error alert exactly when `error` is truthy,
      and a button that is disabled and shows "Processing..." exactly while
      `loading`. */
  function View(loading: bool, error: Option<string>, paymentSuccess: bool, amount: int): (s: Screen)
    ensures s.SuccessAlert? <==> paymentSuccess
    ensures s.PaymentForm? ==> (s.disabled <==> loading)
    ensures s.PaymentForm? ==> (s.caption.Processing? <==> loading)
    ensures s.PaymentForm? && !loading ==> s.caption == PayAmount(amount)
    ensures s.PaymentForm? ==> (s.errorAlert.Some? <==> Truthy(error))
    ensures s.PaymentForm? && s.errorAlert.Some? ==> s.errorAlert == error
  {
    if paymentSuccess then SuccessAlert
    else PaymentForm(if Truthy(error) then error else None, loading, if loading then Processing else PayAmount(amount))
  }

  /** A mounted button: its props, the `usePayment` instance it renders from,
      its `paymentSuccess` cell and (for specification only) its events. */
  class PaymentButton {
    const amount: int
    const currency: string
    const hasOnSuccess: bool
    const hasOnError: bool
    const payment: PaymentHook
    var paymentSuccess: bool
    ghost var events: seq<ButtonEvent>

    /** Mounting: `currency` defaults to "usd", `paymentSuccess` starts false. */
    constructor (amount: int, currency: Option<string>, hasOnSuccess: bool, hasOnError: bool, payment: PaymentHook)
      ensures this.amount == amount && this.payment == payment
      ensures this.currency == if currency.Some? then currency.value else DefaultCurrency
      ensures this.hasOnSuccess == hasOnSuccess && this.hasOnError == hasOnError
      ensures !paymentSuccess && events == []
    {
      this.amount := amount;
      this.currency := match currency case Some(c) => c case None => DefaultCurrency;
      this.hasOnSuccess := hasOnSuccess;
      this.hasOnError := hasOnError;
      this.payment := payment;
      paymentSuccess := false;
      events := [];
    }

    /** `handlePayment`: one click metric, then `processPayment(amount, currency)`,
        then the reaction to its result. `paymentSuccess` only ever turns true. */
    method HandlePayment(env: Environment) returns (result: PaymentResult)
      requires payment.Valid()
      modifies this, payment
      ensures payment.Valid() && payment.initial == old(payment.initial)
      ensures result == Run(amount, Some(currency), env).result
      ensures payment.trace == old(payment.trace) + Run(amount, Some(currency), env).effects
      ensures Cells(payment.loading, payment.error)
                == Apply(old(Cells(payment.loading, payment.error)), Run(amount, Some(currency), env).effects)
      ensures events == old(events)
                        + [MetricSaved(ButtonClick, PayNowTriggerId, HomeScreen), PaymentStarted(amount, currency)]
                        + Callbacks(Dispatch(result), hasOnSuccess, hasOnError)
      ensures paymentSuccess == (old(paymentSuccess) || Dispatch(result).Confirm?)
    {
      events := events + [MetricSaved(ButtonClick, PayNowTriggerId, HomeScreen)];
      events := events + [PaymentStarted(amount, currency)];
      result := payment.ProcessPayment(amount, Some(currency), env);
      React(result);
    }

    /** The part of `handlePayment` after the result is in: success with an id
        sets `paymentSuccess` and calls `onSuccess`; otherwise a truthy error
        goes to `onError`. */
    method React(result: PaymentResult)
      modifies this
      ensures events == old(events) + Callbacks(Dispatch(result), hasOnSuccess, hasOnError)
      ensures paymentSuccess == (old(paymentSuccess) || Dispatch(result).Confirm?)
    {
      if result.success && Truthy(result.paymentIntentId) {
        paymentSuccess := true;
        if hasOnSuccess {
          events := events + [SuccessCallback(result.paymentIntentId.value)];
        }
      } else if Truthy(result.error) {
        if hasOnError {
          events := events + [ErrorCallback(result.error.value)];
        }
      }
    }

    /** The current render, from the hook's cells and `paymentSuccess`. */
    function Render(): Screen
      reads this, payment
    {
      View(payment.loading, payment.error, paymentSuccess, amount)
    }
  }

  /** A result of the real payment flow leaves the button silent only in two
      cases: a success whose server-sent id is missing or empty, or a failure
      whose message is the empty string (an `Error` thrown with an empty
      message). */
  lemma SilentOnlyOnEmptyStrings(amount: int, currency: Option<string>, env: Environment)
    ensures var r := Run(amount, currency, env).result;
            Dispatch(r).Ignore? <==> (r.success && !Truthy(r.paymentIntentId)) || (!r.success && r.error == Some(""))
  {
  }

  /** A failure reported by the flow reaches `onError` with the same string
      the error cell holds, except after a non-succeeded status, where the
      cell stays `null` although `onError` gets "Payment did not succeed". */
  lemma ReportedErrorMatchesCell(amount: int, currency: Option<string>, env: Environment, c: Cells)
    requires Dispatch(Run(amount, currency, env).result).Report?
    ensures var o := Run(amount, currency, env);
            var reported := Dispatch(o.result).error;
            && (Ready(env) && PaymentClientProperties.ConfirmedWithoutError(env) ==>
                  reported == NotSucceededMessage && Apply(c, o.effects).error == None)
            && (!(Ready(env) && PaymentClientProperties.ConfirmedWithoutError(env)) ==>
                  Apply(c, o.effects).error == Some(reported))
  {
    PaymentClientProperties.ErrorCellMirrorsResult(amount, currency, env, c);
  }

  /** After a run on the ready path the button is enabled again, whatever the outcome. */
  lemma ButtonEnabledAfterReadyRun(amount: int, currency: Option<string>, env: Environment, c: Cells)
    requires Ready(env)
    ensures var cells := Apply(c, Run(amount, currency, env).effects);
            View(cells.loading, cells.error, false, amount).PaymentForm?
            && !View(cells.loading, cells.error, false, amount).disabled
  {
    PaymentClientProperties.ReadyRunLoadingLifecycle(amount, currency, env, c);
  }
}
