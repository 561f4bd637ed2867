/**
 * The global exception filter (src/common/filter/exception.filter.ts): every thrown value becomes
 * an HTTP status and a JSON body, and is logged with its trace.
 */
module ExceptionFilter {
  import opened Stores

  /** The `errors` record some exception responses carry. */
  type Details = map<string, string>

  /** `exception.getResponse()`: a string, or an object with an optional message and errors. */
  datatype HttpResponse =
    | TextResponse(text: string)
    | ObjectResponse(message: Option<string>, errors: Option<Details>)

  /** The thrown value: an HttpException, another Error, or anything else (`String(x)` of it). */
  datatype Thrown =
    | HttpError(status: nat, response: HttpResponse, name: string, message: string, stack: Option<string>)
    | PlainError(name: string, message: string, stack: Option<string>)
    | NonError(rendered: string)

  /** The request's `url` and `method` (the HTTP verb). */
  datatype Request = Request(url: string, verb: string)

  datatype ResponseBody = ResponseBody(
    statusCode: nat, timestamp: string, path: string, verb: string, message: string, details: Option<Details>)

  /** `contextDetails`, which is logged as JSON. */
  datatype Context = Context(statusCode: nat, path: string, verb: string, errorMessage: string)

  /** `logger.error(logMessage, traceMessage, contextMessage)`. */
  datatype LogEntry = LogEntry(message: string, trace: string, context: Context)

  const InternalServerError: nat := 500

  /** The status: the exception's own for an HttpException, 500 otherwise. */
  function Status(e: Thrown): (s: nat)
    ensures e.HttpError? ==> s == e.status
    ensures !e.HttpError? ==> s == 500
  {
    if e.HttpError? then e.status else InternalServerError
  }

  /** `getErrorMessage`. */
  function GetErrorMessage(e: Thrown): (m: string)
    ensures e.HttpError? && e.response.TextResponse? ==> m == e.response.text
    ensures e.HttpError? && e.response.ObjectResponse? ==>
      m == if Present(e.response.message) then e.response.message.value else "Unknown error occurred"
    ensures e.PlainError? ==> m == e.message
    ensures e.NonError? ==> m == e.rendered
  {
    match e
    case HttpError(_, response, _, _, _) =>
      (match response
       case TextResponse(text) => text
       case ObjectResponse(message, _) => if Present(message) then message.value else "Unknown error occurred")
    case PlainError(_, message, _) => message
    case NonError(rendered) => rendered
  }

  /** `getErrorDetails`: the `errors` of an object response when it is not nullish. */
  function GetErrorDetails(e: Thrown): (d: Option<Details>)
    ensures d.Some? <==> e.HttpError? && e.response.ObjectResponse? && e.response.errors.Some?
    ensures d.Some? ==> d == e.response.errors
  {
    if e.HttpError? && e.response.ObjectResponse? then e.response.errors else None
  }

  /** `Error.prototype.toString`: `name: message`, dropping an empty part. */
  function ErrorToString(name: string, message: string): string
  {
    if message == "" then name else if name == "" then message else name + ": " + message
  }

  /** `String(exception)`. */
  function Rendered(e: Thrown): string
  {
    match e
    case HttpError(_, _, name, message, _) => ErrorToString(name, message)
    case PlainError(name, message, _) => ErrorToString(name, message)
    case NonError(rendered) => rendered
  }

  /** The trace: the stack of an Error that has one, `String(exception)` otherwise. */
  function Trace(e: Thrown): (t: string)
    ensures !e.NonError? && e.stack.Some? ==> t == e.stack.value
    ensures e.NonError? ==> t == e.rendered
    ensures !e.NonError? && e.stack.None? ==> t == ErrorToString(e.name, e.message)
  {
    if !e.NonError? && e.stack.Some? then e.stack.value else Rendered(e)
  }

  /**
   * `catch`: builds the body, adds `details` when there are any, picks the trace and logs; the
   * reply is the body with the status. `timestamp` is `new Date().toISOString()`.
   */
  method Catch(exception: Thrown, request: Request, timestamp: string) returns (body: ResponseBody, status: nat, log: LogEntry)
    ensures status == Status(exception) && body.statusCode == status
    ensures body.path == request.url && body.verb == request.verb && body.timestamp == timestamp
    ensures body.message == GetErrorMessage(exception) && body.details == GetErrorDetails(exception)
    ensures log == LogEntry("Exception occurred", Trace(exception),
                            Context(status, request.url, request.verb, body.message))
  {
    var httpStatus := if exception.HttpError? then exception.status else InternalServerError;
    body := ResponseBody(httpStatus, timestamp, request.url, request.verb, GetErrorMessage(exception), None);
    var errorDetails := GetErrorDetails(exception);
    if errorDetails.Some? {
      body := body.(details := errorDetails);
    }
    var traceMessage: string;
    if !exception.NonError? && exception.stack.Some? {
      traceMessage := exception.stack.value;
    } else {
      traceMessage := Rendered(exception);
    }
    var contextDetails := Context(body.statusCode, body.path, body.verb, body.message);
    log := LogEntry("Exception occurred", traceMessage, contextDetails);
    status := httpStatus;
  }

  /**
   * How a service failure is thrown: the NestJS exception with its status and a response object
   * holding the message, or a runtime error of the JavaScript engine: the `SyntaxError` of
   * `JSON.parse` on a cached value that is not JSON, and the `TypeError` of reading `email` off a
   * missing row.
   */
  function ThrownFor(f: Failure, stack: Option<string>): Thrown
  {
    match f
    case Unauthorized(m) => HttpError(401, ObjectResponse(Some(m), None), "UnauthorizedException", m, stack)
    case Conflict(m) => HttpError(409, ObjectResponse(Some(m), None), "ConflictException", m, stack)
    case NotFound(m) => HttpError(404, ObjectResponse(Some(m), None), "NotFoundException", m, stack)
    case Internal(m) => PlainError(if m == "Unexpected token in JSON" then "SyntaxError" else "TypeError", m, stack)
  }

  /** The status each service failure is answered with. */
  function StatusOf(f: Failure): nat
  {
    match f
    case Unauthorized(_) => 401
    case Conflict(_) => 409
    case NotFound(_) => 404
    case Internal(_) => 500
  }

  /**
   * Every failure of the services reaches the client with its own status and, when it is not
   * empty, its own message, and without details.
   */
  lemma FailureResponse(f: Failure, stack: Option<string>)
    ensures Status(ThrownFor(f, stack)) == StatusOf(f)
    ensures f.message != "" ==> GetErrorMessage(ThrownFor(f, stack)) == f.message
    ensures f.message == "" && !f.Internal? ==> GetErrorMessage(ThrownFor(f, stack)) == "Unknown error occurred"
    ensures GetErrorDetails(ThrownFor(f, stack)) == None
  {
  }
}
