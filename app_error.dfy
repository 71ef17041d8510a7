/**
 * The application's error value (`AppError`): an HTTP status code, a status
 * tag derived from it, an operational flag, the construction time and stack,
 * and the properties code attaches after construction (`errors` by the
 * validation factory, `key` by the storage gateway). `Thrown` is anything a
 * handler can throw: an `AppError` or a native JavaScript error.
 */
module AppErrors {
  import opened Wrappers
  import opened JsValues
  import opened Decimal

  /** What the runtime supplies when an error is built: `new Date().toISOString()` and the captured stack. */
  datatype Moment = Moment(time: string, stack: string)

  datatype AppError = AppError(
    message: string,
    statusCode: int,
    status: string,
    isOperational: bool,
    timestamp: string,
    stack: string,
    errors: Json,         // `undefined` unless attached after construction
    key: Option<string>)  // attached by the storage gateway's delete

  /** A thrown value: an `AppError`, or a native error such as a `TypeError`. */
  datatype Thrown =
    | App(err: AppError)
    | Native(name: string, message: string, nativeKey: Option<string>)
  {
    /** `err.message`. */
    function Message(): string {
      match this
      case App(e) => e.message
      case Native(_, m, _) => m
    }

    /** `err.key`. */
    function Key(): Option<string> {
      match this
      case App(e) => e.key
      case Native(_, _, k) => k
    }

    /** `err.key = k`: the same error, now carrying `k`. */
    function WithKey(k: string): (t: Thrown)
      ensures t.Key() == Some(k) && t.Message() == Message() && t.App? == App?
    {
      match this
      case App(e) => App(e.(key := Some(k)))
      case Native(n, m, _) => Native(n, m, Some(k))
    }
  }

  /** The status tag of an error built without a status argument: 'fail' when the code's text starts with '4'. */
  function DefaultStatus(statusCode: int): string {
    if StartsWith(IntText(statusCode), "4") then "fail" else "error"
  }

  /**
   * The status tag as the constructor computes it. `status || x ? 'fail' : 'error'`
   * parses as `(status || x) ? 'fail' : 'error'`, so any non-empty status
   * argument gives 'fail' and the argument's text is never kept.
   */
  function StatusAsWritten(status: Option<string>, statusCode: int): (r: string)
    ensures r == "fail" || r == "error"
    ensures (status.Some? && status.value != "") ==> r == "fail"
    ensures (status.None? || status == Some("")) ==> r == DefaultStatus(statusCode)
  {
    if (status.Some? && status.value != "") || StartsWith(IntText(statusCode), "4") then "fail" else "error"
  }

  /**
   * The status tag the constructor's documentation describes: the given status
   * when there is one, otherwise derived from the code.
   */
  function IntendedStatus(status: Option<string>, statusCode: int): (r: string)
    ensures (status.Some? && status.value != "") ==> r == status.value
    ensures (status.None? || status == Some("")) ==> r == DefaultStatus(statusCode)
  {
    if status.Some? && status.value != "" then status.value else DefaultStatus(statusCode)
  }

  /** The two readings disagree: a server error given the status 'error' is tagged 'fail' as written. */
  lemma PrecedenceCounterexample()
    ensures StatusAsWritten(Some("error"), 500) == "fail"
    ensures IntendedStatus(Some("error"), 500) == "error"
  {
  }

  /** Without a status argument both readings agree; every error the program builds is of this kind. */
  lemma StatusReadingsAgreeWithoutArgument(statusCode: int)
    ensures StatusAsWritten(None, statusCode) == IntendedStatus(None, statusCode)
  {
  }

  /** For a three-digit code and no status argument, the tag is 'fail' exactly for 4xx codes. */
  lemma DefaultStatusOfHttpCode(statusCode: int)
    requires 100 <= statusCode <= 999
    ensures DefaultStatus(statusCode) == (if 400 <= statusCode <= 499 then "fail" else "error")
  {
    StartsWithFourIffClientCode(statusCode);
  }

  /** `new AppError(message, statusCode, status, isOperational)`, with `isOperational` defaulting to true. */
  function NewAppError(message: string, statusCode: int, status: Option<string>, isOperational: Option<bool>, at: Moment): (e: AppError)
    ensures e.message == message && e.statusCode == statusCode
    ensures e.status == IntendedStatus(status, statusCode)
    ensures e.isOperational == isOperational.GetOr(true)
    ensures e.timestamp == at.time && e.errors == Undefined && e.key == None
  {
    AppError(message, statusCode, IntendedStatus(status, statusCode), isOperational.GetOr(true),
             at.time, at.stack, Undefined, None)
  }

  /** `new AppError(message, statusCode)`: the only form the program itself uses. */
  function Make(message: string, statusCode: int, at: Moment): (e: AppError)
    requires 100 <= statusCode <= 999
    ensures e.message == message && e.statusCode == statusCode && e.isOperational
    ensures e.status == (if 400 <= statusCode <= 499 then "fail" else "error")
    ensures e.errors == Undefined && e.key == None
  {
    AppError(message, statusCode, if 400 <= statusCode <= 499 then "fail" else "error", true,
             at.time, at.stack, Undefined, None)
  }

  /** `Make` is the constructor called with a message and a code only. */
  lemma MakeIsConstructor(message: string, statusCode: int, at: Moment)
    requires 100 <= statusCode <= 999
    ensures Make(message, statusCode, at) == NewAppError(message, statusCode, None, None, at)
  {
    DefaultStatusOfHttpCode(statusCode);
  }

  /** `AppError.badRequest(message = 'Invalid request')`. */
  function BadRequest(message: Option<string>, at: Moment): (e: AppError)
    ensures e.statusCode == 400 && e.status == "fail" && e.message == message.GetOr("Invalid request")
  {
    Make(message.GetOr("Invalid request"), 400, at)
  }

  /** `AppError.unauthorized(message = 'Not authorized')`. */
  function Unauthorized(message: Option<string>, at: Moment): (e: AppError)
    ensures e.statusCode == 401 && e.status == "fail" && e.message == message.GetOr("Not authorized")
  {
    Make(message.GetOr("Not authorized"), 401, at)
  }

  /** `AppError.forbidden(message = 'Forbidden')`. */
  function Forbidden(message: Option<string>, at: Moment): (e: AppError)
    ensures e.statusCode == 403 && e.status == "fail" && e.message == message.GetOr("Forbidden")
  {
    Make(message.GetOr("Forbidden"), 403, at)
  }

  /** `AppError.notFound(message = 'Resource not found')`. */
  function NotFound(message: Option<string>, at: Moment): (e: AppError)
    ensures e.statusCode == 404 && e.status == "fail" && e.message == message.GetOr("Resource not found")
  {
    Make(message.GetOr("Resource not found"), 404, at)
  }

  /** `AppError.conflict(message = 'Resource conflict')`. */
  function Conflict(message: Option<string>, at: Moment): (e: AppError)
    ensures e.statusCode == 409 && e.status == "fail" && e.message == message.GetOr("Resource conflict")
  {
    Make(message.GetOr("Resource conflict"), 409, at)
  }

  /** `AppError.validation(message = 'Validation failed', errors = {})`: the error then gets `errors` attached. */
  function Validation(message: Option<string>, errors: Json, at: Moment): (e: AppError)
    ensures e.statusCode == 422 && e.status == "fail" && e.message == message.GetOr("Validation failed")
    ensures e.errors == (if errors == Undefined then Obj(map[]) else errors)
  {
    var e := Make(message.GetOr("Validation failed"), 422, at);
    e.(errors := if errors == Undefined then Obj(map[]) else errors)
  }

  /** `AppError.internal(message = 'Internal server error')`. */
  function Internal(message: Option<string>, at: Moment): (e: AppError)
    ensures e.statusCode == 500 && e.status == "error" && e.message == message.GetOr("Internal server error")
  {
    Make(message.GetOr("Internal server error"), 500, at)
  }

  /** The development-only part of the JSON form. */
  datatype Debug = Debug(stack: string, timestamp: string)

  /** The JSON form of an error; absent optional members are `None`. */
  datatype ErrorJson = ErrorJson(status: string, statusCode: int, message: string, errors: Option<Json>, debug: Option<Debug>)

  /**
   * `toJSON()`: status, code and message always; `errors` when the attached
   * value is truthy; stack and timestamp only in development mode.
   */
  function ToJson(e: AppError, development: bool): (j: ErrorJson)
    ensures j.status == e.status && j.statusCode == e.statusCode && j.message == e.message
    ensures j.errors.Some? <==> Truthy(e.errors)
    ensures j.errors.Some? ==> j.errors.value == e.errors
    ensures j.debug.Some? <==> development
    ensures j.debug.Some? ==> j.debug.value == Debug(e.stack, e.timestamp)
  {
    ErrorJson(e.status, e.statusCode, e.message,
              if Truthy(e.errors) then Some(e.errors) else None,
              if development then Some(Debug(e.stack, e.timestamp)) else None)
  }

  /** A validation error's JSON form always lists its errors, `{}` by default. */
  lemma ValidationJsonListsErrors(message: Option<string>, at: Moment, development: bool)
    ensures ToJson(Validation(message, Undefined, at), development).errors == Some(Obj(map[]))
    ensures ToJson(Validation(message, Undefined, at), development).statusCode == 422
  {
  }

  /** Errors built by the constructor alone never list `errors`, and never leak debug data outside development. */
  lemma ConstructedJsonIsMinimal(message: string, statusCode: int, at: Moment)
    requires 100 <= statusCode <= 999
    ensures ToJson(Make(message, statusCode, at), false)
         == ErrorJson(if 400 <= statusCode <= 499 then "fail" else "error", statusCode, message, None, None)
  {
  }
}
