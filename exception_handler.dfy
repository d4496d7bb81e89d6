/** The backend's error translation
    (src/main/java/com/fortuna/exception/GlobalExceptionHandler.java): five
    handlers, each declared for one exception class; the framework hands an
    exception to the handler whose class is its closest superclass, and that
    handler builds an `ErrorResponse` with a fresh id, a status and a message. */
module ExceptionHandler {
  import opened Common
  import opened JavaExceptions

  const BadRequest := 400
  const InternalServerError := 500
  const GenericMessage := "An unexpected error occurred"

  /** The `@ExceptionHandler` methods, in declaration order. */
  datatype Handler =
    | PaymentHandler
    | MetricSerializationHandler
    | IllegalArgumentHandler
    | RuntimeHandler
    | GenericHandler

  const Handlers: seq<Handler> :=
    [PaymentHandler, MetricSerializationHandler, IllegalArgumentHandler, RuntimeHandler, GenericHandler]

  /** The class named in each handler's `@ExceptionHandler(...)`. */
  function HandledClass(h: Handler): ExceptionClass
  {
    match h
    case PaymentHandler => PaymentException
    case MetricSerializationHandler => MetricSerializationException
    case IllegalArgumentHandler => IllegalArgumentException
    case RuntimeHandler => RuntimeException
    case GenericHandler => Exception
  }

  /** Among `hs`, a handler that applies to `c` and whose class is the closest
      superclass of `c` (the earliest one on a tie), or `None` when none applies. */
  function Closest(c: ExceptionClass, hs: seq<Handler>): (r: Option<Handler>)
    ensures r.Some? ==> r.value in hs && IsA(c, HandledClass(r.value))
    ensures r.None? <==> forall h :: h in hs ==> !IsA(c, HandledClass(h))
    ensures r.Some? ==> forall h :: h in hs && IsA(c, HandledClass(h)) ==>
                          Distance(c, HandledClass(r.value)).value <= Distance(c, HandledClass(h)).value
  {
    if hs == [] then None
    else
      var rest := Closest(c, hs[1..]);
      if !IsA(c, HandledClass(hs[0])) then rest
      else if rest.None? || Distance(c, HandledClass(hs[0])).value <= Distance(c, HandledClass(rest.value)).value
      then Some(hs[0])
      else rest
  }

  lemma AllHandlersListed()
    ensures forall h :: h in Handlers
  {
    forall h: Handler
      ensures h in Handlers
    {
      match h
      case PaymentHandler => assert Handlers[0] == h;
      case MetricSerializationHandler => assert Handlers[1] == h;
      case IllegalArgumentHandler => assert Handlers[2] == h;
      case RuntimeHandler => assert Handlers[3] == h;
      case GenericHandler => assert Handlers[4] == h;
    }
  }

  /** The handler that receives an exception of class `c`: one always applies
      (every class is an `Exception`), and no applicable handler is closer. */
  function Resolve(c: ExceptionClass): (h: Handler)
    ensures IsA(c, HandledClass(h))
    ensures forall h' :: IsA(c, HandledClass(h')) ==>
              Distance(c, HandledClass(h)).value <= Distance(c, HandledClass(h')).value
  {
    EveryClassIsAnException(c);
    assert HandledClass(GenericHandler) == Exception && GenericHandler in Handlers;
    AllHandlersListed();
    Closest(c, Handlers).value
  }

  /** A class that has a handler of its own is handled there. */
  lemma OwnHandlerWins(c: ExceptionClass, target: Handler)
    requires HandledClass(target) == c
    ensures Resolve(c) == target
  {
    var h := Resolve(c);
    assert Distance(c, HandledClass(target)) == Some(0);
    assert Distance(c, HandledClass(h)) == Some(0);
    assert HandledClass(h) == HandledClass(target);
  }

  /** The most specific handler wins: each handled class goes to its own
      handler although the `RuntimeException` and `Exception` handlers apply
      too; any other unchecked class (the duplicate metric exception among
      them) goes to the `RuntimeException` handler; checked ones to the generic one. */
  lemma MostSpecificHandlerWins(c: ExceptionClass)
    ensures Resolve(c) == match c
      case Exception => GenericHandler
      case RuntimeException => RuntimeHandler
      case DuplicateMetricSerializationException => RuntimeHandler
      case IllegalArgumentException => IllegalArgumentHandler
      case PaymentException => PaymentHandler
      case MetricSerializationException => MetricSerializationHandler
  {
    match c
    case Exception => OwnHandlerWins(c, GenericHandler);
    case RuntimeException => OwnHandlerWins(c, RuntimeHandler);
    case IllegalArgumentException => OwnHandlerWins(c, IllegalArgumentHandler);
    case PaymentException => OwnHandlerWins(c, PaymentHandler);
    case MetricSerializationException => OwnHandlerWins(c, MetricSerializationHandler);
    case DuplicateMetricSerializationException =>
      var h := Resolve(c);
      assert Distance(c, HandledClass(RuntimeHandler)) == Some(1);
      assert Distance(c, HandledClass(h)).value <= 1;
      assert HandledClass(h) != c;
      assert Height(HandledClass(h)) == 1;
  }

  /** `ErrorResponse`: `errorId`, `message`, `status`, `timestamp`. */
  datatype ErrorResponse = ErrorResponse(errorId: string, message: Option<string>, status: int, timestamp: int)

  /** `ResponseEntity<ErrorResponse>`: the body and the HTTP status. */
  datatype ResponseEntity = ResponseEntity(body: ErrorResponse, status: int)

  /** The HTTP status each handler answers with. */
  function HandlerStatus(h: Handler): int
  {
    match h
    case PaymentHandler => BadRequest
    case IllegalArgumentHandler => BadRequest
    case MetricSerializationHandler => InternalServerError
    case RuntimeHandler => InternalServerError
    case GenericHandler => InternalServerError
  }

  /** What handler `h` returns for `ex`, given the fresh id and the clock reading:
      the exception's own message, except that the generic handler hides it. */
  function Respond(h: Handler, ex: JavaException, errorId: string, timestamp: int): (r: ResponseEntity)
    ensures r.body.status == r.status
    ensures r.body.errorId == errorId && r.body.timestamp == timestamp
    ensures r.body.message == if h == GenericHandler then Some(GenericMessage) else ex.message
  {
    var message := if h == GenericHandler then Some(GenericMessage) else ex.message;
    var status := HandlerStatus(h);
    ResponseEntity(ErrorResponse(errorId, message, status, timestamp), status)
  }

  /** The response to an exception that reaches the advice: 400 exactly for a
      `PaymentException` or an `IllegalArgumentException`, 500 otherwise; the
      body carries the same status, the given id and time, and the exception's
      message, except that a checked exception's message is replaced by the
      fixed "An unexpected error occurred". */
  function Handle(ex: JavaException, errorId: string, timestamp: int): (r: ResponseEntity)
    ensures r.body.status == r.status
    ensures r.body.errorId == errorId && r.body.timestamp == timestamp
    ensures r.status == BadRequest <==> ex.cls == PaymentException || ex.cls == IllegalArgumentException
    ensures r.status == InternalServerError <==> !(ex.cls == PaymentException || ex.cls == IllegalArgumentException)
    ensures r.body.message == if ex.cls == Exception then Some(GenericMessage) else ex.message
  {
    MostSpecificHandlerWins(ex.cls);
    Respond(Resolve(ex.cls), ex, errorId, timestamp)
  }

  function DigitChar(d: nat): (ch: char)
    requires d < 10
  {
    (('0' as int) + d) as char
  }

  /** The decimal digits of `n`; the model's stand-in for a random UUID string. */
  function Digits(n: nat): (s: string)
    ensures |s| >= 1
    ensures |s| == 1 <==> n < 10
  {
    if n < 10 then [DigitChar(n)] else Digits(n / 10) + [DigitChar(n % 10)]
  }

  /** Different counters give different ids. */
  lemma {:induction false} DigitsInjective(a: nat, b: nat)
    requires Digits(a) == Digits(b)
    ensures a == b
    decreases a
  {
    if a < 10 || b < 10 {
      assert a < 10 && b < 10;
      assert Digits(a)[0] == DigitChar(a) && Digits(b)[0] == DigitChar(b);
    } else {
      var da, db := Digits(a), Digits(b);
      assert da[..|da| - 1] == Digits(a / 10);
      assert db[..|db| - 1] == Digits(b / 10);
      DigitsInjective(a / 10, b / 10);
      assert da[|da| - 1] == DigitChar(a % 10) && db[|db| - 1] == DigitChar(b % 10);
    }
  }

  /** Two exceptions handled under different counters get different, non-empty ids. */
  lemma DistinctErrorIds(a: nat, b: nat, ex1: JavaException, ex2: JavaException, t1: int, t2: int)
    requires a != b
    ensures Handle(ex1, Digits(a), t1).body.errorId != ""
    ensures Handle(ex1, Digits(a), t1).body.errorId != Handle(ex2, Digits(b), t2).body.errorId
  {
    if Digits(a) == Digits(b) {
      DigitsInjective(a, b);
    }
  }

  /** The controller advice: the id source is a counter, so every response
      gets an id no earlier response had. */
  class ExceptionAdvice {
    var issued: nat

    constructor ()
      ensures issued == 0
    {
      issued := 0;
    }

    /** Handles one exception at clock reading `timestamp`. */
    method HandleException(ex: JavaException, timestamp: int) returns (r: ResponseEntity)
      modifies this
      ensures issued == old(issued) + 1
      ensures r == Handle(ex, Digits(old(issued)), timestamp)
      ensures r.body.errorId != ""
      ensures forall k: nat :: k < old(issued) ==> r.body.errorId != Digits(k)
    {
      r := Handle(ex, Digits(issued), timestamp);
      forall k: nat | k < issued
        ensures r.body.errorId != Digits(k)
      {
        if Digits(issued) == Digits(k) {
          DigitsInjective(issued, k);
        }
      }
      issued := issued + 1;
    }
  }
}
