/** Exceptions as the services and controllers throw them, and the status and
    message that `AllExceptionsFilter.catch` derives from one. The filter's
    logging and the writing of the response are effects and are not modelled;
    the timestamp is left out of the response body. */
module Exceptions {
  import opened Common

  /** What `HttpException.getResponse()` returns: a string, an object (with
      its `message` property and its JSON serialisation), `null`, or any other
      value. */
  datatype ResponseBody =
    | TextBody(text: string)
    | ObjectBody(message: Option<string>, json: string)
    | NullBody
    | OtherBody

  /** The class of an HTTP exception, as `instanceof` sees it; the two
      classes the services throw carry their fixed status. */
  datatype HttpClass = NotFoundClass | UnauthorizedClass | OtherHttpClass(code: int)

  datatype Exception =
    | HttpException(cls: HttpClass, body: ResponseBody)
    | NonHttpError

  /** The completion of an operation that may throw. */
  datatype Thrown<+T> = Returned(value: T) | Threw(error: Exception)

  const NotFoundStatus := 404
  const UnauthorizedStatus := 401
  const InternalServerErrorStatus := 500
  const InternalServerErrorMessage := "Internal server error"

  /** `new NotFoundException(message)`: status 404 and an object body whose
      `message` is the given text. */
  function NotFoundException(message: string): Exception {
    HttpException(NotFoundClass,
      ObjectBody(Some(message), "{\"message\":\"" + message + "\",\"error\":\"Not Found\",\"statusCode\":404}"))
  }

  /** `new UnauthorizedException(message)`. */
  function UnauthorizedException(message: string): Exception {
    HttpException(UnauthorizedClass,
      ObjectBody(Some(message), "{\"message\":\"" + message + "\",\"error\":\"Unauthorized\",\"statusCode\":401}"))
  }

  predicate IsNotFoundException(e: Exception) {
    e.HttpException? && e.cls == NotFoundClass
  }

  /** `getStatus()` of an HTTP exception. */
  function HttpStatus(cls: HttpClass): int {
    match cls
    case NotFoundClass => NotFoundStatus
    case UnauthorizedClass => UnauthorizedStatus
    case OtherHttpClass(code) => code
  }

  /** The status the filter answers with. */
  function StatusOf(e: Exception): (status: int)
    ensures e.NonHttpError? ==> status == InternalServerErrorStatus
    ensures e.HttpException? ==> status == HttpStatus(e.cls)
  {
    if e.HttpException? then HttpStatus(e.cls) else InternalServerErrorStatus
  }

  /** The message the filter answers with: a string body verbatim, an object
      body's `message` when truthy and its JSON otherwise, and the generic
      message for anything else. */
  function MessageOf(e: Exception): (message: string)
    ensures e.NonHttpError? ==> message == InternalServerErrorMessage
    ensures e.HttpException? && e.body.TextBody? ==> message == e.body.text
    ensures e.HttpException? && e.body.ObjectBody? ==>
      message == (if TruthyText(e.body.message) then e.body.message.value else e.body.json)
    ensures e.HttpException? && (e.body.NullBody? || e.body.OtherBody?) ==> message == InternalServerErrorMessage
  {
    if e.HttpException? then
      match e.body
      case TextBody(text) => text
      case ObjectBody(m, json) => if m.Some? && m.value != "" then m.value else json
      case NullBody => InternalServerErrorMessage
      case OtherBody => InternalServerErrorMessage
    else InternalServerErrorMessage
  }

  /** The JSON body the filter sends. */
  datatype ErrorResponse = ErrorResponse(statusCode: int, path: string, httpMethod: string, message: string)

  /** `catch(exception, host)`: the body that goes out with the status. */
  function Catch(e: Exception, path: string, httpMethod: string): (r: ErrorResponse)
    ensures r.statusCode == StatusOf(e) && r.message == MessageOf(e)
    ensures r.path == path && r.httpMethod == httpMethod
  {
    ErrorResponse(StatusOf(e), path, httpMethod, MessageOf(e))
  }

  /** A NotFoundException with a non-empty message reaches the client as a
      404 carrying that message; likewise 401 for an UnauthorizedException. */
  lemma ServiceExceptionsReachClient(message: string, path: string, httpMethod: string)
    requires message != ""
    ensures Catch(NotFoundException(message), path, httpMethod) == ErrorResponse(404, path, httpMethod, message)
    ensures Catch(UnauthorizedException(message), path, httpMethod) == ErrorResponse(401, path, httpMethod, message)
  {
  }

  /** Any error that is not an HTTP exception becomes a 500 with the generic
      message, whatever it was. */
  lemma NonHttpErrorsAreInternal(path: string, httpMethod: string)
    ensures Catch(NonHttpError, path, httpMethod) == ErrorResponse(500, path, httpMethod, InternalServerErrorMessage)
  {
  }
}
