/**
 RestExceptionHandler: the four handlers, as one total function from the
 exception that reached the controller advice to the response it sends.
 The body's timestamp is the wall clock and is not modelled.
 */
module ExceptionHandler {
  import opened Nullable
  import opened Failures

  const BAD_REQUEST: int := 400
  const CONFLICT: int := 409

  const BAD_REQUEST_TITLE: string := "Bad Request! Consult the documentation"
  const CONFLICT_TITLE: string := "Conflict! Consult the documentation"

  /** The exceptions the advice handles, with what each handler reads from
      them. A DataAccessException is abstract, so it carries the simple name
      of its concrete class. */
  datatype Raised =
    | MethodArgumentNotValid(errors: seq<FieldError>)
    | DataAccess(className: string, cause: Option<string>, message: Option<string>)
    | Business(cause: Option<string>, message: Option<string>)
    | IllegalArgument(cause: Option<string>, message: Option<string>)

  /** ExceptionDetails without its timestamp. */
  datatype ExceptionDetails = ExceptionDetails(
    title: string,
    status: int,
    exception: string,
    details: map<string, Option<string>>)

  datatype Response = Response(httpStatus: int, body: ExceptionDetails)

  /** `exception.javaClass.simpleName` */
  function ExceptionName(r: Raised): string {
    match r
    case MethodArgumentNotValid(_) => "MethodArgumentNotValidException"
    case DataAccess(name, _, _) => name
    case Business(_, _) => "BusinessException"
    case IllegalArgument(_, _) => "IllegalArgumentException"
  }

  /** `exception.cause.toString()`: Kotlin renders a null cause as "null". */
  function CauseKey(cause: Option<string>): string {
    match cause
    case None => "null"
    case Some(s) => s
  }

  /** The fields that have at least one error. */
  function Fields(errors: seq<FieldError>): set<string> {
    set e | e in errors :: e.field
  }

  /** The validation handler's loop: each error in turn writes its message
      under its field, so a later error on a field replaces an earlier one. */
  function FieldDetails(errors: seq<FieldError>): (details: map<string, Option<string>>)
    ensures details.Keys == Fields(errors)
  {
    if |errors| == 0 then map[]
    else
      var init := errors[..|errors| - 1];
      var last := errors[|errors| - 1];
      assert errors == init + [last];
      FieldDetails(init)[last.field := last.defaultMessage]
  }

  /** The response each handler builds. */
  function Classify(r: Raised): (resp: Response)
    ensures resp.body.status == resp.httpStatus
    ensures resp.httpStatus == (if r.DataAccess? then CONFLICT else BAD_REQUEST)
    ensures resp.body.title == (if r.DataAccess? then CONFLICT_TITLE else BAD_REQUEST_TITLE)
    ensures resp.body.exception == ExceptionName(r)
    ensures r.MethodArgumentNotValid? ==> resp.body.details == FieldDetails(r.errors)
    ensures r.MethodArgumentNotValid? ==> resp.body.details.Keys == Fields(r.errors)
    ensures !r.MethodArgumentNotValid? ==>
      && |resp.body.details| == 1
      && CauseKey(r.cause) in resp.body.details
      && resp.body.details[CauseKey(r.cause)] == r.message
  {
    match r
    case MethodArgumentNotValid(errors) =>
      Response(BAD_REQUEST, ExceptionDetails(BAD_REQUEST_TITLE, BAD_REQUEST, ExceptionName(r), FieldDetails(errors)))
    case DataAccess(_, cause, message) =>
      Response(CONFLICT, ExceptionDetails(CONFLICT_TITLE, CONFLICT, ExceptionName(r), map[CauseKey(cause) := message]))
    case Business(cause, message) =>
      Response(BAD_REQUEST, ExceptionDetails(BAD_REQUEST_TITLE, BAD_REQUEST, ExceptionName(r), map[CauseKey(cause) := message]))
    case IllegalArgument(cause, message) =>
      Response(BAD_REQUEST, ExceptionDetails(BAD_REQUEST_TITLE, BAD_REQUEST, ExceptionName(r), map[CauseKey(cause) := message]))
  }

  /** In the validation details, every field maps to the message of the LAST
      error reported for it. */
  lemma {:induction false} FieldDetailsLastWins(errors: seq<FieldError>, i: int)
    requires 0 <= i < |errors|
    requires forall j :: i < j < |errors| ==> errors[j].field != errors[i].field
    ensures errors[i].field in FieldDetails(errors)
    ensures FieldDetails(errors)[errors[i].field] == errors[i].defaultMessage
  {
    var init := errors[..|errors| - 1];
    if i < |errors| - 1 {
      assert init[i] == errors[i];
      forall j | i < j < |init|
        ensures init[j].field != init[i].field
      {
        assert init[j] == errors[j];
      }
      FieldDetailsLastWins(init, i);
    }
  }

  /** A BusinessException and an IllegalArgumentException with the same cause
      and message get the same response except for the exception name. */
  lemma BusinessAndIllegalArgumentDifferOnlyInName(cause: Option<string>, message: Option<string>)
    ensures var b := Classify(Business(cause, message));
      var i := Classify(IllegalArgument(cause, message));
      && b.httpStatus == i.httpStatus == BAD_REQUEST
      && b.body.(exception := i.body.exception) == i.body
      && b.body.exception != i.body.exception
  {
  }

  /** How a service failure leaves the service: the exception the Kotlin code
      throws for it, with the message it was thrown with. The services
      throw their exceptions without a cause; the DataAccessException of a
      uniqueness clash is Spring's translation of the persistence exception,
      which it keeps as the cause, rendered here as `cause`. A
      NullPointerException has no handler here, so it yields None. */
  function Raise(e: ServiceError, message: string, cause: string): (r: Option<Raised>)
    ensures r.None? <==> e == MissingCustomerId
    ensures (e.DateBeyondWindow? || e.CustomerNotFound? || e.CreditCodeNotFound?) ==>
      r == Some(Business(None, Some(message)))
    ensures e == CustomerMismatch ==> r == Some(IllegalArgument(None, Some(message)))
    ensures e == Conflict ==>
      r.Some? && r.value.DataAccess? && r.value.cause == Some(cause) && r.value.message == Some(message)
  {
    match e
    case DateBeyondWindow => Some(Business(None, Some(message)))
    case CustomerNotFound(_) => Some(Business(None, Some(message)))
    case CreditCodeNotFound(_) => Some(Business(None, Some(message)))
    case CustomerMismatch => Some(IllegalArgument(None, Some(message)))
    case Conflict => Some(DataAccess("DataIntegrityViolationException", Some(cause), Some(message)))
    case MissingCustomerId => None
  }

  /** Every handled service failure is a 400 except a uniqueness conflict,
      which is a 409; each carries one detail entry holding its message,
      keyed "null" for the services' own exceptions and by the translated
      exception's cause for a conflict. */
  lemma ServiceFailureStatus(e: ServiceError, message: string, cause: string)
    requires e != MissingCustomerId
    ensures var resp := Classify(Raise(e, message, cause).value);
      && (resp.httpStatus == CONFLICT <==> e == Conflict)
      && (resp.httpStatus == BAD_REQUEST <==> e != Conflict)
      && (resp.body.exception == "IllegalArgumentException" <==> e == CustomerMismatch)
      && (e != Conflict ==> resp.body.details == map["null" := Some(message)])
      && (e == Conflict ==> resp.body.details == map[cause := Some(message)])
  {
  }
}
