/**
 * kanban/middleware/errorHandler.js: the application error record with its factories,
 * the choice of status and body for a thrown error, and the 404 for unmatched routes.
 */
module Errors {
  import opened Wrappers

  /** One `{ field, message }` entry of a `details` list. */
  datatype Detail = Detail(field: string, message: string)

  /** An `AppError`: always operational, so only message, status and details vary. */
  datatype AppError = AppError(message: string, statusCode: int, details: Option<seq<Detail>>)

  /** `new AppError(message, statusCode = 500, details = null)`. */
  function NewAppError(message: string, statusCode: Option<int>, details: Option<seq<Detail>>): (e: AppError)
    ensures e.message == message && e.details == details
    ensures statusCode.None? ==> e.statusCode == 500
    ensures statusCode.Some? ==> e.statusCode == statusCode.value
  {
    AppError(message, if statusCode.Some? then statusCode.value else 500, details)
  }

  function BadRequest(message: string, details: Option<seq<Detail>>): (e: AppError)
    ensures e == AppError(message, 400, details)
  {
    NewAppError(message, Some(400), details)
  }

  /** `notFound(resource = 'Resource')`. */
  function NotFound(resource: Option<string>): (e: AppError)
    ensures e.statusCode == 404 && e.details.None?
    ensures e.message == (if resource.Some? then resource.value else "Resource") + " not found"
  {
    NewAppError((if resource.Some? then resource.value else "Resource") + " not found", Some(404), None)
  }

  function Conflict(message: string): (e: AppError)
    ensures e == AppError(message, 409, None)
  {
    NewAppError(message, Some(409), None)
  }

  /** `internal(message = 'Internal server error')`. */
  function Internal(message: Option<string>): (e: AppError)
    ensures e.statusCode == 500 && e.details.None?
    ensures e.message == if message.Some? then message.value else "Internal server error"
  {
    NewAppError(if message.Some? then message.value else "Internal server error", Some(500), None)
  }

  /**
   * The error value the handler receives: an `AppError`, or some other thrown object with
   * the properties the handler looks at. A status of `Some(0)` is present but falsy.
   */
  datatype Thrown =
    | App(err: AppError)
    | Other(message: string, isSyntaxError: bool, statusCode: Option<int>, status: Option<int>,
            hasBodyKey: bool, isOperational: bool)

  datatype ErrorBody = ErrorBody(error: string, details: Option<seq<Detail>>)

  /** What the handler does: pass the error on, or send a status with a JSON body. */
  datatype Outcome = Delegate | Respond(status: int, body: ErrorBody)

  /** `a || b` for optional numbers: absent and zero are falsy. */
  function OrStatus(a: Option<int>, b: int): int {
    if a.Some? && a.value != 0 then a.value else b
  }

  const ParseFailureDetail := Detail("body", "Request body must be valid JSON")

  /** `errorHandler(err, req, res, next)`; logging is not modelled. */
  function HandleError(err: Thrown, headersSent: bool): (o: Outcome)
    ensures headersSent <==> o.Delegate?
    ensures !headersSent && err.App? ==>
      o == Respond(err.err.statusCode, ErrorBody(err.err.message, err.err.details))
    ensures !headersSent && err.Other? && err.isSyntaxError && err.status == Some(400) && err.hasBodyKey ==>
      o == Respond(400, ErrorBody("Invalid JSON", Some([ParseFailureDetail])))
    ensures !headersSent && err.Other? && !(err.isSyntaxError && err.status == Some(400) && err.hasBodyKey) ==>
      && o.Respond? && o.body.details.None? && o.status != 0
      && (err.statusCode.Some? && err.statusCode.value != 0 ==> o.status == err.statusCode.value)
      && (!(err.statusCode.Some? && err.statusCode.value != 0) && err.status.Some? && err.status.value != 0 ==> o.status == err.status.value)
      && ((err.statusCode.None? || err.statusCode == Some(0)) && (err.status.None? || err.status == Some(0)) ==> o.status == 500)
      && (o.body.error == if err.isOperational then err.message else "Internal server error")
  {
    if headersSent then Delegate
    else match err
      case App(e) =>
        // `details` is copied only when truthy; an empty list is still truthy.
        Respond(e.statusCode, ErrorBody(e.message, e.details))
      case Other(message, isSyntaxError, statusCode, status, hasBodyKey, isOperational) =>
        if isSyntaxError && status == Some(400) && hasBodyKey then
          Respond(400, ErrorBody("Invalid JSON", Some([ParseFailureDetail])))
        else
          Respond(OrStatus(statusCode, OrStatus(status, 500)),
                  ErrorBody(if isOperational then message else "Internal server error", None))
  }

  /** A non-operational error never shows its own message. */
  lemma InternalMessagesHidden(err: Thrown, headersSent: bool)
    requires err.Other? && !err.isOperational && !headersSent
    ensures var o := HandleError(err, headersSent);
      o.body.error == "Internal server error" || o.body.error == "Invalid JSON"
  {
  }

  /** Each factory's error is answered with the factory's status and message. */
  lemma FactoriesRespond(message: string, details: Option<seq<Detail>>, resource: Option<string>)
    ensures HandleError(App(BadRequest(message, details)), false) == Respond(400, ErrorBody(message, details))
    ensures HandleError(App(NotFound(resource)), false).status == 404
    ensures HandleError(App(NotFound(None)), false).body == ErrorBody("Resource not found", None)
    ensures HandleError(App(Conflict(message)), false) == Respond(409, ErrorBody(message, None))
    ensures HandleError(App(Internal(None)), false) == Respond(500, ErrorBody("Internal server error", None))
  {
  }

  /** `notFoundHandler`: 404 naming the method and the full URL. */
  function RouteNotFound(httpMethod: string, originalUrl: string): (o: Outcome)
    ensures o.Respond? && o.status == 404 && o.body.details.None?
    ensures o.body.error == "Route not found: " + httpMethod + " " + originalUrl
  {
    Respond(404, ErrorBody("Route not found: " + httpMethod + " " + originalUrl, None))
  }
}
