/**
  The controller advice every service shares (GlobalControllerExceptionHandler):
  it turns the three API exceptions into an HTTP status and an error body that
  carries the request path and the exception's message.
 */
module ErrorHandling {
  import opened Api

  /** The exceptions that have a handler of their own. */
  predicate IsHandled(e: Exception)
  {
    e.BadRequest? || e.NotFound? || e.InvalidInput?
  }

  /** The status a handled exception is answered with. */
  function StatusFor(e: Exception): (status: int)
    requires IsHandled(e)
    ensures e.BadRequest? <==> status == BAD_REQUEST
    ensures e.NotFound? <==> status == NOT_FOUND
    ensures e.InvalidInput? <==> status == UNPROCESSABLE_ENTITY
  {
    match e
    case BadRequest(_) => BAD_REQUEST
    case NotFound(_) => NOT_FOUND
    case InvalidInput(_) => UNPROCESSABLE_ENTITY
  }

  /** The error body: the given status, the path within the application and
      the exception's message, all unchanged. */
  function CreateHttpErrorInfo(httpStatus: int, path: string, exception: Exception): (info: HttpErrorInfo)
    requires IsHandled(exception)
    ensures info.httpStatus == httpStatus
    ensures info.path == path
    ensures info.message == exception.message
  {
    HttpErrorInfo(httpStatus, path, exception.message)
  }

  function HandleBadRequestExceptions(path: string, exception: Exception): (info: HttpErrorInfo)
    requires exception.BadRequest?
    ensures info == HttpErrorInfo(400, path, exception.message)
  {
    CreateHttpErrorInfo(BAD_REQUEST, path, exception)
  }

  function HandleNotFoundExceptions(path: string, exception: Exception): (info: HttpErrorInfo)
    requires exception.NotFound?
    ensures info == HttpErrorInfo(404, path, exception.message)
  {
    CreateHttpErrorInfo(NOT_FOUND, path, exception)
  }

  function HandleInvalidInputException(path: string, exception: Exception): (info: HttpErrorInfo)
    requires exception.InvalidInput?
    ensures info == HttpErrorInfo(422, path, exception.message)
  {
    CreateHttpErrorInfo(UNPROCESSABLE_ENTITY, path, exception)
  }

  /** The handler the framework selects for an exception thrown while serving
      `path`; `None` when no handler of this advice applies. */
  function ErrorResponse(path: string, exception: Exception): (r: Option<HttpErrorInfo>)
    ensures r.Some? <==> IsHandled(exception)
  {
    match exception
    case BadRequest(_) => Some(HandleBadRequestExceptions(path, exception))
    case NotFound(_) => Some(HandleNotFoundExceptions(path, exception))
    case InvalidInput(_) => Some(HandleInvalidInputException(path, exception))
    case _ => None
  }

  /** Every handled exception is answered with its own status, the request
      path and its own message; the statuses of different kinds differ. */
  lemma ErrorResponseFaithful(path: string, exception: Exception)
    requires IsHandled(exception)
    ensures ErrorResponse(path, exception) == Some(HttpErrorInfo(StatusFor(exception), path, exception.message))
    ensures ErrorResponse(path, exception).value.httpStatus in {400, 404, 422}
  {
  }
}
