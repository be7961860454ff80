/**
 * The application's error type and the mapping from any thrown value to the message shown to the
 * user (src/errorHandler.ts).
 */
module ErrorHandler {
  import opened Wrappers

  /** A thrown value: an `AppError`, some other `Error` (its class name and message), or a value that
      is not an `Error` at all. */
  datatype Thrown =
    | AppError(message: string, code: Option<string>, statusCode: int)
    | JsError(name: string, message: string)
    | NonError

  /** The message shown for a value that is not an `Error`. */
  const UnexpectedMessage: string := "An unexpected error occurred. Please try again."

  /** `new AppError(message, code, statusCode)`; an omitted status code defaults to 500. */
  function NewAppError(message: string, code: Option<string>, statusCode: Option<int>): (e: Thrown)
    ensures e.AppError? && e.message == message && e.code == code
    ensures statusCode.None? ==> e.statusCode == 500
    ensures statusCode.Some? ==> e.statusCode == statusCode.value
  {
    AppError(message, code, statusCode.GetOr(500))
  }

  /** The `name` property of an error value. */
  function Name(e: Thrown): (n: Option<string>)
    ensures e.AppError? ==> n == Some("AppError")
    ensures e.NonError? ==> n.None?
  {
    match e
    case AppError(_, _, _) => Some("AppError")
    case JsError(name, _) => Some(name)
    case NonError => None
  }

  /** `handleError`: an error's own message, or the generic text for anything else. */
  function HandleError(e: Thrown): (m: string)
    ensures e.AppError? || e.JsError? ==> m == e.message
    ensures e.NonError? ==> m == UnexpectedMessage
  {
    match e
    case AppError(message, _, _) => message
    case JsError(_, message) => message
    case NonError => UnexpectedMessage
  }

  /** The message survives being wrapped in a new `Error` and handled again, which is how the client
      service hands its failures to the application. */
  lemma RethrowKeepsMessage(e: Thrown)
    ensures HandleError(JsError("Error", HandleError(e))) == HandleError(e)
  {
  }
}
