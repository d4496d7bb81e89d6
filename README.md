# Fortuna payment core, modelled in Dafny

Fortuna is a starter app with a React frontend and a Spring backend. This
project models the decision logic of its payment flow, with every network
call, SDK call, clock and random source turned into an input:

- **Frontend orchestration** (`processPayment` in `usePayment`). The hook has
  two state cells, `loading` and `error`. `PaymentClient.PaymentHook` is a
  class with those two fields, and its method `ProcessPayment` updates them
  step by step, as the source does. The method is proved equal to the
  specification function `PaymentClient.Run`, which gives the result and the
  ordered effects: cell writes, the intent request and the card confirmation.
  The properties are lemmas about `Run` (module `PaymentClientProperties`).
  The outcomes of `fetch`, `confirmCardPayment`, the `stripe`/`elements`
  handles and the card-element lookup are the fields of an `Environment`
  value.
- **Pay button** (`PaymentButton.tsx`): the three-way dispatch on a
  `PaymentResult`, the `paymentSuccess` cell, the callbacks fired (recorded as
  events), and the render choice.
- **Backend exceptions**:
  - `JavaExceptions` holds the class hierarchy and Java's `null`-aware string
    concatenation.
  - `PaymentExceptions` holds the two `PaymentException` constructors.
  - `ExceptionHandler` holds the controller advice. Handler selection is
    written out: the handler whose class is the closest superclass of the
    thrown class wins. Each handler answers with an `ErrorResponse`. The
    random UUID is modelled by the decimal string of a counter, and the clock
    reading is a parameter.
- **Payment service** (`PaymentService.java`): request and response copying,
  the metadata map, the Stripe create parameters, status verification, and
  the wrapping of Stripe failures. `PaymentIntent.create` and
  `PaymentIntent.retrieve` are oracle functions held by a `StripeApi` object,
  which also logs the calls made.
- **End to end**: `PaymentFailureResponses` connects the service's wrapping
  to the advice's response.

The code guarantees less than one might expect, and the model states it as it is:

- A success result carries whatever `paymentIntentId` the server sent, which
  may be missing or empty.
- An `Error` thrown with an empty message gives the error `""`, which the pay
  button then ignores (`PaymentButtonComponent.SilentOnlyOnEmptyStrings`).
- The "Payment did not succeed" branch returns that message, but it leaves
  the `error` cell `null`.

## Model

| member | source | states |
|---|---|---|
| PaymentClient.ThrownMessage | frontend/src/payment/client/PaymentClient.ts:86-87 | a thrown `Error` gives its own message; any other thrown value gives "Unknown error" |
| PaymentClient.IntentFailureMessage | frontend/src/payment/client/PaymentClient.ts:21-24 | a truthy server `message` is used as is; otherwise "Failed to create payment intent"; never empty |
| PaymentClient.SdkErrorMessage | frontend/src/payment/client/PaymentClient.ts:75-76 | the SDK error's truthy message, else "Payment failed"; never empty |
| PaymentClient.CreatePaymentIntent | frontend/src/payment/client/PaymentClient.ts:9-27 | succeeds exactly on an ok response with a parsed body, and returns that body; a parsed non-ok body throws an `Error` with the selected message; a rejected fetch or an unreadable body propagates its thrown value |
| PaymentClient.VerifyPath | frontend/src/payment/client/PaymentClient.ts:31 | the request path is "/api/payments/verify/" followed by the id, nothing else |
| PaymentClient.VerifyPayment | frontend/src/payment/client/PaymentClient.ts:29-34 | returns exactly the body's `success` field, whatever the HTTP status; fetch and parse failures propagate |
| PaymentClient.Run | frontend/src/payment/client/PaymentClient.ts:42-93 | every result is either a success with no error, or a failure with an error and no id |
| PaymentClient.PaymentHook.constructor | frontend/src/payment/client/PaymentClient.ts:39-40 | the cells start as `loading = false`, `error = null` |
| PaymentClient.PaymentHook.TryBlockSteps | frontend/src/payment/client/PaymentClient.ts:55-85 | the `try` body: the cells change exactly as the effects of `TryBlock` say, and the block ends the way `TryBlock` says |
| PaymentClient.PaymentHook.TryCatch | frontend/src/payment/client/PaymentClient.ts:54-89 | `try`/`catch`: the intent request, then the try block; a thrown value is caught, and its message goes into the result and the `error` cell |
| PaymentClient.PaymentHook.ReadyPath | frontend/src/payment/client/PaymentClient.ts:51-92 | the ready path: `loading` true, `error` null, the intent request, the `try`/`catch` effects, and `loading` false in `finally`, in that order; resolves to the `catch`-completed result |
| PaymentClient.PaymentHook.ProcessPayment | frontend/src/payment/client/PaymentClient.ts:42-93 | the imperative run returns `Run`'s result, appends `Run`'s effects to the trace, and leaves the cells equal to `Run`'s effects applied to the old cells |
| PaymentClientProperties.NotReadyShortCircuits | frontend/src/payment/client/PaymentClient.ts:46-49 | without `stripe` or `elements`: result "Stripe has not loaded yet", the error cell holds it, `loading` is untouched, no intent request and no confirmation |
| PaymentClientProperties.ReadyRunLoadingLifecycle | frontend/src/payment/client/PaymentClient.ts:51-92 | on the ready path `loading` is true and `error` null before the intent request; `loading` stays true through every later step and is false at the end, whatever the outcome |
| PaymentClientProperties.IntentRequestPerRun | frontend/src/payment/client/PaymentClient.ts:44-59 | a ready run makes exactly one intent request, `{amount, currency or "usd", description "Test payment from Fortuna"}`; a run that is not ready makes none |
| PaymentClientProperties.ConfirmationPerRun | frontend/src/payment/client/PaymentClient.ts:61-73 | card confirmation is requested exactly once with the server's client secret when the intent was created and the card element exists, and otherwise never |
| PaymentClientProperties.ErrorCellMirrorsResult | frontend/src/payment/client/PaymentClient.ts:52-89 | after any run the error cell equals the result's error, except after a confirmed payment with a status other than "succeeded", where it stays null |
| PaymentClientProperties.ServerRejectionReported | frontend/src/payment/client/PaymentClient.ts:21-24 | a non-ok server reply gives a failure carrying the selected message; the error cell holds the same string, `loading` is false, and there is no confirmation |
| PaymentClientProperties.CardMissingReported | frontend/src/payment/client/PaymentClient.ts:61-64 | a missing card element gives "Card element not found" in the result and the error cell, and no confirmation |
| PaymentClientProperties.SdkErrorReported | frontend/src/payment/client/PaymentClient.ts:75-79 | an SDK error gives its message (or "Payment failed") in the result and the error cell |
| PaymentClientProperties.SucceededUsesServerId | frontend/src/payment/client/PaymentClient.ts:81-83 | status "succeeded" gives success with the id from the create-intent response; the error cell stays null |
| PaymentClientProperties.SdkIntentIdIgnored | frontend/src/payment/client/PaymentClient.ts:81-82 | the id inside the SDK's payment intent has no influence on the run |
| PaymentClientProperties.OtherStatusLeavesErrorNull | frontend/src/payment/client/PaymentClient.ts:85 | any other status, or no intent, gives "Payment did not succeed", while the error cell stays null |
| PaymentClientProperties.ThrowReported | frontend/src/payment/client/PaymentClient.ts:54-89 | the `try` block throws exactly when the fetch rejects, the server answers not-ok, a body is unreadable, the card element is missing or the confirmation rejects; the thrown value yields its `Error` message or "Unknown error", in both the result and the error cell |
| PaymentButtonComponent.Dispatch | frontend/src/payment/components/PaymentButton.tsx:31-36 | confirm exactly when the result is a success with a truthy id; report exactly when it is not, and the error is truthy; carries that id or error |
| PaymentButtonComponent.View | frontend/src/payment/components/PaymentButton.tsx:39-97 | the success alert exactly when `paymentSuccess`; otherwise the form has an error alert exactly when `error` is truthy, and the button is disabled and shows "Processing..." exactly while `loading` |
| PaymentButtonComponent.PaymentButton.constructor | frontend/src/payment/components/PaymentButton.tsx:15-22 | currency defaults to "usd"; `paymentSuccess` starts false |
| PaymentButtonComponent.PaymentButton.HandlePayment | frontend/src/payment/components/PaymentButton.tsx:25-37 | one "Pay Now Button"/"Home" click metric, then `processPayment(amount, currency)` run as `Run`, then the callbacks `Dispatch` selects; `paymentSuccess` becomes true exactly on confirm and never reverts |
| PaymentButtonComponent.PaymentButton.React | frontend/src/payment/components/PaymentButton.tsx:31-36 | fires exactly the callbacks `Dispatch` selects, and only those whose prop is present; `paymentSuccess` turns true exactly on confirm and otherwise keeps its value |
| PaymentButtonComponent.SilentOnlyOnEmptyStrings | frontend/src/payment/components/PaymentButton.tsx:31-36 | after a real run, neither callback fires only for a success with a missing or empty id, or a failure with the empty message |
| PaymentButtonComponent.ReportedErrorMatchesCell | frontend/src/payment/components/PaymentButton.tsx:34-35 | the string passed to `onError` is the one in the error cell, except for "Payment did not succeed", whose cell stays null |
| PaymentButtonComponent.ButtonEnabledAfterReadyRun | frontend/src/payment/components/PaymentButton.tsx:85 | after any ready run the button is enabled again |
| JavaExceptions.Distance | src/main/java/com/fortuna/payment/exception/PaymentException.java:5 | distance 0 exactly for the class itself; a defined distance is the gap in depth below `Exception` |
| JavaExceptions.ConcatJava | src/main/java/com/fortuna/payment/exception/PaymentException.java:12 | Java `+` on a string: the prefix, then the value, or "null" for `null` |
| JavaExceptions.MetricSerializationFailure | src/main/java/com/fortuna/metrics/exception/MetricSerializationException.java:4-8 | the message is always the fixed MESSAGE; the cause is kept |
| PaymentExceptions.WithMessage | src/main/java/com/fortuna/payment/exception/PaymentException.java:7-9 | the given message is kept unchanged, with no cause |
| PaymentExceptions.FromStripe | src/main/java/com/fortuna/payment/exception/PaymentException.java:11-13 | the message is "Failed to process payment: " followed by Stripe's message, or by "null" when Stripe's message is null; the Stripe exception is the cause |
| PaymentExceptions.FromStripeRoundTrip | src/main/java/com/fortuna/payment/exception/PaymentException.java:11-13 | Stripe's message can be read back from the wrapped message |
| ExceptionHandler.Closest | src/main/java/com/fortuna/exception/GlobalExceptionHandler.java:18-100 | picks a listed handler that applies, and none closer exists; `None` exactly when no handler applies |
| ExceptionHandler.Resolve | src/main/java/com/fortuna/exception/GlobalExceptionHandler.java:18-100 | every exception gets an applicable handler, and no applicable handler is closer |
| ExceptionHandler.MostSpecificHandlerWins | src/test/java/com/fortuna/payment/controller/PaymentControllerTest.java:83-122 | the chosen handler for each class: the payment, metric and illegal-argument handlers get their own class even though the runtime handler also applies; other unchecked exceptions (including the duplicate metric class) get the runtime handler; checked exceptions get the generic handler |
| ExceptionHandler.Respond | src/main/java/com/fortuna/exception/GlobalExceptionHandler.java:18-100 | each handler's body: same status as the entity, the given id and time, and the exception's message, except that the generic handler uses the fixed message |
| ExceptionHandler.Handle | src/main/java/com/fortuna/exception/GlobalExceptionHandler.java:18-100 | 400 exactly for `PaymentException` and `IllegalArgumentException`, 500 otherwise; body status equals entity status; the message passes through except for checked exceptions, which get "An unexpected error occurred" |
| ExceptionHandler.Digits | src/main/java/com/fortuna/exception/GlobalExceptionHandler.java:21 | the error id is never empty |
| ExceptionHandler.DigitsInjective | src/main/java/com/fortuna/exception/GlobalExceptionHandler.java:21 | different counters give different ids |
| ExceptionHandler.DistinctErrorIds | src/test/java/com/fortuna/exception/GlobalExceptionHandlerTest.java:87-105 | two handled exceptions get non-empty, different ids |
| ExceptionHandler.ExceptionAdvice.HandleException | src/main/java/com/fortuna/exception/GlobalExceptionHandler.java:18-100 | answers as `Handle` does, with an id no earlier call has issued |
| PaymentService.ToServiceModel | src/main/java/com/fortuna/payment/service/PaymentService.java:77-86 | all six request fields are copied unchanged |
| PaymentService.ToResponseDTO | src/main/java/com/fortuna/payment/service/PaymentService.java:88-95 | client secret, id (as `paymentIntentId`), amount and currency are copied unchanged |
| PaymentService.BuildMetadata | src/main/java/com/fortuna/payment/service/PaymentService.java:66-75 | "orderId" is present exactly when the order id is non-null, and "userId" exactly when the user id is non-null; each holds its value; there are no other keys |
| PaymentService.BuildStripeParams | src/main/java/com/fortuna/payment/service/PaymentService.java:43-64 | amount and currency are passed unchanged, with that metadata and automatic payment methods enabled; the description is set exactly when present, and the receipt e-mail exactly when a customer e-mail is present |
| PaymentService.MetadataDetermined | src/main/java/com/fortuna/payment/service/PaymentService.java:66-75 | the metadata rule determines the map completely |
| PaymentService.ParamsDetermined | src/main/java/com/fortuna/payment/service/PaymentService.java:43-64 | the parameter rule determines the parameters completely |
| PaymentService.Verification | src/main/java/com/fortuna/payment/service/PaymentService.java:38-41 | true exactly when the status is "succeeded" (a null status gives false); a Stripe failure becomes a thrown `PaymentException` wrapping it, never `false` |
| PaymentService.StripeApi.Create | src/main/java/com/fortuna/payment/service/PaymentService.java:23 | the oracle's outcome for these parameters; the call is logged |
| PaymentService.StripeApi.Retrieve | src/main/java/com/fortuna/payment/service/PaymentService.java:32 | the oracle's outcome for this id; the call is logged |
| PaymentService.CreatePaymentIntent | src/main/java/com/fortuna/payment/service/PaymentService.java:19-28 | exactly one create call, with the parameters built from the request; the response copies the created intent; a Stripe failure is rethrown as `PaymentException` wrapping it |
| PaymentService.RetrievePaymentIntent | src/main/java/com/fortuna/payment/service/PaymentService.java:30-36 | exactly one retrieve call; the intent, or a `PaymentException` wrapping the Stripe failure |
| PaymentService.VerifyPaymentSuccess | src/main/java/com/fortuna/payment/service/PaymentService.java:38-41 | one retrieve call, and the answer `Verification` gives |
| PaymentFailureResponses.StripeFailureIsBadRequest | src/main/java/com/fortuna/exception/GlobalExceptionHandler.java:18-33 | any wrapped Stripe failure is answered with 400, and its message is the prefix followed by Stripe's message |
| PaymentFailureResponses.InvalidCurrencyReported | src/test/java/com/fortuna/integration/PaymentsIntegrationTest.java:197-226 | a Stripe message beginning "Invalid currency: INVALID" produces a 400 body whose message begins "Failed to process payment: Invalid currency: INVALID" |
| PaymentFailureResponses.CreateOrReject | src/main/java/com/fortuna/payment/controller/PaymentController.java:22-27 | a create request returns the response DTO copied from the created intent when Stripe's create succeeds, and is otherwise answered with 400 and the wrapped Stripe message |

## Left out

- Network and SDK calls (`fetch`, `confirmCardPayment`, `PaymentIntent.create`/`retrieve`, `loadStripe`, axios) are not modelled. Their outcomes are inputs: an `Environment` value on the frontend, and oracle functions in `StripeApi` on the backend. `StripeApi` returns the same outcome for the same arguments.
- Async interleaving and re-entrancy of `processPayment` are not modelled. One sequential run is modelled; overlapping clicks are not.
- React rendering is not modelled. `paymentSuccess`, `loading` and `error` are read as plain fields. The re-render timing and closures that capture stale state are outside the model.
- The price label `(amount / 100).toFixed(2)` is floating-point. It is represented only as `PayAmount(amountInCents)`.
- `UUID.randomUUID()` is modelled as the decimal string of a counter. `System.currentTimeMillis()` is a parameter. Logging is not modelled.
- The `WebRequest` handler parameter is unused by the handlers and is not modelled.
- Spring validation (`@Min(50)`, `@NotBlank`) and Jackson's `"usd"` default for a missing currency (a field initialiser that Lombok's builder ignores) are framework behaviour. The service model accepts any request.
- Controller routing, the config endpoint and the verify endpoint's `Map.of("success", ...)` wrapping are not modelled.
- The metrics pipeline (`MetricsClient.ts`, `MetricsService.java`, `MetricsRepository.java`) is not modelled. The click metric is recorded as an event whether or not saving it succeeds.
- Stripe initialisation, theming, routing, navigation and build configuration are not modelled.
- Classes: `ExceptionClass` groups every checked exception under `Exception`, and every other unchecked exception under `RuntimeException`. Other `Throwable`s (`Error`) are not modelled.
- Only `StripeException` failures are modelled in the service. Other runtime failures inside `createPaymentIntent` propagate unchanged in Java and are not modelled.
- PaymentClient.CreatePaymentIntent: JavaScript's `error.message` is assumed to be a string or absent. A non-string truthy value, such as a number or an object, is not modelled.
- PaymentClient.VerifyPayment: a body whose `success` is not a boolean is not modelled.
- Integer widths: amounts are unbounded integers. The service only copies them, so Java `Long` and JavaScript `number` limits are not modelled.
