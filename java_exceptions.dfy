/** The Java exception classes the backend throws and handles, and the
    superclass chain that decides which handler receives an exception. */
module JavaExceptions {
  import opened Common

  /** The concrete class of a thrown exception. `Exception` stands for
      `java.lang.Exception` and every checked subclass; `RuntimeException` for
      `java.lang.RuntimeException` and every unchecked subclass not named here;
      `IllegalArgumentException` includes its subclasses. The application
      declares `MetricSerializationException` twice: in the metrics package
      (the one the handler names) and in the exception package. */
  datatype ExceptionClass =
    | Exception
    | RuntimeException
    | IllegalArgumentException
    | PaymentException
    | MetricSerializationException
    | DuplicateMetricSerializationException

  /** The direct superclass, as far as it matters here. */
  function Superclass(c: ExceptionClass): Option<ExceptionClass>
  {
    match c
    case Exception => None
    case RuntimeException => Some(Exception)
    case _ => Some(RuntimeException)
  }

  /** How many superclass steps separate a class from `Exception`. */
  function Height(c: ExceptionClass): nat
  {
    match c
    case Exception => 0
    case RuntimeException => 1
    case _ => 2
  }

  /** The number of superclass steps from `c` up to `ancestor`, or `None` when
      `ancestor` is not a superclass of `c` (nor `c` itself). */
  function Distance(c: ExceptionClass, ancestor: ExceptionClass): (d: Option<nat>)
    ensures d == Some(0) <==> c == ancestor
    ensures d.Some? ==> d.value <= Height(c) && Height(c) - d.value == Height(ancestor)
    decreases Height(c)
  {
    if c == ancestor then Some(0)
    else match Superclass(c)
      case None => None
      case Some(parent) =>
        match Distance(parent, ancestor)
        case None => None
        case Some(k) => Some(k + 1)
  }

  /** `c` is `ancestor` or one of its subclasses: an instance of `c` is an `ancestor`. */
  predicate IsA(c: ExceptionClass, ancestor: ExceptionClass)
  {
    Distance(c, ancestor).Some?
  }

  /** Every modelled class is an `Exception`; exactly the five below
      `RuntimeException` are unchecked. */
  lemma EveryClassIsAnException(c: ExceptionClass)
    ensures IsA(c, Exception)
    ensures IsA(c, RuntimeException) <==> c != Exception
  {
  }

  /** A `StripeException` as far as the backend reads it: its `getMessage()`. */
  datatype StripeException = StripeException(message: Option<string>)

  /** The cause chained to an exception. */
  datatype Cause = NoCause | StripeCause(stripe: StripeException) | OtherCause

  /** A thrown exception: its class, its `getMessage()` (possibly `null`) and its cause. */
  datatype JavaException = JavaException(cls: ExceptionClass, message: Option<string>, cause: Cause)

  /** Java's `prefix + s` for a possibly-`null` string: `null` is written "null". */
  function ConcatJava(prefix: string, s: Option<string>): (r: string)
    ensures |r| >= |prefix| && r[..|prefix|] == prefix
    ensures s.Some? ==> r[|prefix|..] == s.value
    ensures s.None? ==> r[|prefix|..] == "null"
  {
    prefix + match s case Some(v) => v case None => "null"
  }

  const MetricSerializationMessage := "Failed to serialize metric event metadata"

  /** `new MetricSerializationException(cause)` (metrics package): the message
      is always the class's fixed `MESSAGE`, whatever the cause. */
  function MetricSerializationFailure(cause: Cause): (e: JavaException)
    ensures e.cls == MetricSerializationException && e.cause == cause
    ensures e.message == Some(MetricSerializationMessage)
  {
    JavaException(MetricSerializationException, Some(MetricSerializationMessage), cause)
  }
}
