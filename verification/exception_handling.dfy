/**
 * The controller advice that turns an exception escaping a controller into an
 * HTTP response. Each of its six handlers writes one audit record and then
 * returns a status and a body. The logger call is dropped and the record is
 * returned instead; the clock reading is a parameter.
 */
module ExceptionHandling {
  import opened Wrappers
  import opened AuditLog

  /**
   * The handler that serves an exception. Spring picks the most specific
   * `@ExceptionHandler` for the exception's class; `Other` is the handler for
   * `Exception`, which catches whatever no other handler matches.
   */
  datatype FailureKind =
    | Other             // Exception
    | UserNotFound      // UserNotFoundException
    | NotReadable       // HttpMessageNotReadableException (malformed body)
    | AccessDenied      // AccessDeniedException
    | UsernameExists    // UsernameAlreadyExistsException
    | ConversionFailed  // ConversionFailedException

  /** A caught exception: the handler it resolves to, its runtime class name and its message, which may be null. */
  datatype CaughtException = CaughtException(kind: FailureKind, className: string, message: Option<string>)

  /** What the handlers read from the servlet request. */
  datatype Request = Request(remoteAddr: string, requestURI: string)

  /** The authenticated principal Spring passes in. */
  datatype Principal = Principal(name: string)

  /** The statuses the handlers use. */
  datatype HttpStatus = BadRequest | Forbidden | NotFound | Conflict | InternalServerError {
    function Code(): (code: int) {
      match this
      case BadRequest => 400
      case Forbidden => 403
      case NotFound => 404
      case Conflict => 409
      case InternalServerError => 500
    }

    function ReasonPhrase(): (phrase: string) {
      match this
      case BadRequest => "Bad Request"
      case Forbidden => "Forbidden"
      case NotFound => "Not Found"
      case Conflict => "Conflict"
      case InternalServerError => "Internal Server Error"
    }
  }

  /** A response: its body may be null. */
  datatype ResponseEntity = ResponseEntity(body: Option<string>, status: HttpStatus)

  /**
   * What a handler does: it returns its response with the one audit record it
   * wrote, or it fails with a NullPointerException while building the record.
   */
  datatype Outcome = Handled(response: ResponseEntity, log: LogRecord) | NullPointer

  const UserNotFoundDefault: string := "User not found in the database"
  const UsernameExistsDefault: string := "Username already exists"
  const AccessDeniedBody: string := "Access is denied"

  /** The audit record for a failure seen by a known user; its text is `FormatLog` of it. */
  function LogRecordFor(ex: CaughtException, request: Request, username: string, now: int): (r: LogRecord)
    ensures r.username == username && r.ip == request.remoteAddr && r.timestamp == now
    ensures r.exception == ex.className && r.message == ex.message && r.requestURI == request.requestURI
  {
    LogRecord(username, request.remoteAddr, now, ex.className, ex.message, request.requestURI)
  }

  /**
   * `generateLogMessage`. Spring passes `None` for the principal when the
   * request is anonymous. The principal's name is read unconditionally, so a
   * null principal yields no record (`None`: the NullPointerException).
   */
  function GenerateLogMessage(ex: CaughtException, request: Request, principal: Option<Principal>, now: int): (r: Option<LogRecord>)
    ensures r.Some? <==> principal.Some?
    ensures r.Some? ==> r.value == LogRecordFor(ex, request, principal.value.name, now)
  {
    match principal
    case None => None
    case Some(p) => Some(LogRecordFor(ex, request, p.name, now))
  }

  /** A handler's outcome writes exactly the record `generateLogMessage` builds, or fails where it fails. */
  predicate LogsFirst(o: Outcome, ex: CaughtException, request: Request, principal: Option<Principal>, now: int) {
    && (o.NullPointer? <==> principal.None?)
    && (o.Handled? ==> Some(o.log) == GenerateLogMessage(ex, request, principal, now))
  }

  /** Writes the record, then answers with `response`; nothing is answered if the record fails. */
  function LogThenRespond(ex: CaughtException, request: Request, principal: Option<Principal>, now: int,
                          response: ResponseEntity): (o: Outcome)
    ensures LogsFirst(o, ex, request, principal, now)
    ensures o.Handled? ==> o.response == response
  {
    match GenerateLogMessage(ex, request, principal, now)
    case None => NullPointer
    case Some(rec) => Handled(response, rec)
  }

  /** `getResponseEntity`: the given body, which may be null, with the given status. */
  function GetResponseEntity(exceptionMessage: Option<string>, status: HttpStatus): (r: ResponseEntity)
    ensures r.body == exceptionMessage && r.status == status
  {
    ResponseEntity(exceptionMessage, status)
  }

  /** `handleException`, the catch-all: 500, and the body is the message itself, null included. */
  function HandleException(ex: CaughtException, request: Request, principal: Option<Principal>, now: int): (o: Outcome)
    ensures LogsFirst(o, ex, request, principal, now)
    ensures o.Handled? ==> o.response.status.Code() == 500 && o.response.body == ex.message
  {
    LogThenRespond(ex, request, principal, now, GetResponseEntity(ex.message, InternalServerError))
  }

  /** `handleUserNotFoundException`: 404, the message, or a fixed text when it is null; never a null body. */
  function HandleUserNotFoundException(ex: CaughtException, request: Request, principal: Option<Principal>, now: int): (o: Outcome)
    ensures LogsFirst(o, ex, request, principal, now)
    ensures o.Handled? ==> o.response.status.Code() == 404 && o.response.body.Some?
    ensures o.Handled? && ex.message.Some? ==> o.response.body == ex.message
    ensures o.Handled? && ex.message.None? ==> o.response.body == Some(UserNotFoundDefault)
  {
    var exMessage := ex.message;
    LogThenRespond(ex, request, principal, now,
      GetResponseEntity(Some(if exMessage.None? then UserNotFoundDefault else exMessage.value), NotFound))
  }

  /** `handleHttpMessageNotReadableException`: 400 with the reason phrase; the message is never echoed. */
  function HandleHttpMessageNotReadableException(ex: CaughtException, request: Request, principal: Option<Principal>, now: int): (o: Outcome)
    ensures LogsFirst(o, ex, request, principal, now)
    ensures o.Handled? ==> o.response.status.Code() == 400 && o.response.body == Some("Bad Request")
  {
    var status := BadRequest;
    LogThenRespond(ex, request, principal, now, ResponseEntity(Some(status.ReasonPhrase()), status))
  }

  /** `handleAccessDeniedException`: 403 with a fixed body, whatever the message says. */
  function HandleAccessDeniedException(ex: CaughtException, request: Request, principal: Option<Principal>, now: int): (o: Outcome)
    ensures LogsFirst(o, ex, request, principal, now)
    ensures o.Handled? ==> o.response.status.Code() == 403 && o.response.body == Some("Access is denied")
  {
    LogThenRespond(ex, request, principal, now, GetResponseEntity(Some(AccessDeniedBody), Forbidden))
  }

  /** `handleUsernameAlreadyExistsException`: 409, the message, or a fixed text when it is null. */
  function HandleUsernameAlreadyExistsException(ex: CaughtException, request: Request, principal: Option<Principal>, now: int): (o: Outcome)
    ensures LogsFirst(o, ex, request, principal, now)
    ensures o.Handled? ==> o.response.status.Code() == 409 && o.response.body.Some?
    ensures o.Handled? && ex.message.Some? ==> o.response.body == ex.message
    ensures o.Handled? && ex.message.None? ==> o.response.body == Some(UsernameExistsDefault)
  {
    var exMessage := ex.message;
    LogThenRespond(ex, request, principal, now,
      GetResponseEntity(Some(if exMessage.None? then UsernameExistsDefault else exMessage.value), Conflict))
  }

  /** `handleConversionFailedException`: 400, and the message is echoed, null included. */
  function HandleConversionFailedException(ex: CaughtException, request: Request, principal: Option<Principal>, now: int): (o: Outcome)
    ensures LogsFirst(o, ex, request, principal, now)
    ensures o.Handled? ==> o.response.status.Code() == 400 && o.response.body == ex.message
  {
    LogThenRespond(ex, request, principal, now, GetResponseEntity(ex.message, BadRequest))
  }

  /** The status each handler answers with: the table the handlers implement. */
  function StatusFor(kind: FailureKind): (status: HttpStatus) {
    match kind
    case Other => InternalServerError
    case UserNotFound => NotFound
    case NotReadable => BadRequest
    case AccessDenied => Forbidden
    case UsernameExists => Conflict
    case ConversionFailed => BadRequest
  }

  /** The handlers whose body is the exception's message, possibly null. */
  predicate EchoesMessage(kind: FailureKind) {
    kind == Other || kind == ConversionFailed
  }

  /** Spring's dispatch: the exception goes to the handler its kind names, and to no other. */
  function HandleFailure(ex: CaughtException, request: Request, principal: Option<Principal>, now: int): (o: Outcome)
    ensures LogsFirst(o, ex, request, principal, now)
    ensures o.Handled? ==> o.response.status == StatusFor(ex.kind)
    ensures o.Handled? ==> (o.response.body.None? <==> EchoesMessage(ex.kind) && ex.message.None?)
    ensures o.Handled? && EchoesMessage(ex.kind) ==> o.response.body == ex.message
    ensures o.Handled? ==> o.log.message == ex.message
  {
    match ex.kind
    case Other => HandleException(ex, request, principal, now)
    case UserNotFound => HandleUserNotFoundException(ex, request, principal, now)
    case NotReadable => HandleHttpMessageNotReadableException(ex, request, principal, now)
    case AccessDenied => HandleAccessDeniedException(ex, request, principal, now)
    case UsernameExists => HandleUsernameAlreadyExistsException(ex, request, principal, now)
    case ConversionFailed => HandleConversionFailedException(ex, request, principal, now)
  }

  /** The status depends on the handler alone, never on the message, the request, the user or the clock. */
  lemma StatusIgnoresMessage(ex1: CaughtException, ex2: CaughtException, req1: Request, req2: Request,
                             p1: Principal, p2: Principal, now1: int, now2: int)
    requires ex1.kind == ex2.kind
    ensures HandleFailure(ex1, req1, Some(p1), now1).Handled?
    ensures HandleFailure(ex2, req2, Some(p2), now2).Handled?
    ensures HandleFailure(ex1, req1, Some(p1), now1).response.status
         == HandleFailure(ex2, req2, Some(p2), now2).response.status
  {
  }

  /**
   * A malformed body and a denied access answer the same whatever the
   * exception says, while the audit record keeps each message as it was.
   */
  lemma SanitizedHandlersHideMessage(ex1: CaughtException, ex2: CaughtException, request: Request, p: Principal, now: int)
    requires ex1.kind == ex2.kind && (ex1.kind == NotReadable || ex1.kind == AccessDenied)
    ensures HandleFailure(ex1, request, Some(p), now).response == HandleFailure(ex2, request, Some(p), now).response
    ensures HandleFailure(ex1, request, Some(p), now).log.message == ex1.message
    ensures HandleFailure(ex2, request, Some(p), now).log.message == ex2.message
  {
  }

  /**
   * An anonymous request whose registration fails because the name is taken
   * gets no 409: the handler dereferences the null principal first.
   */
  lemma AnonymousConflictIsLost(request: Request, now: int)
    ensures HandleFailure(CaughtException(UsernameExists, "es.vira.application.exception.UsernameAlreadyExistsException",
                                  Some("Username already exists")), request, None, now) == NullPointer
  {
  }

  /** The name recorded when there is no principal. */
  const AnonymousName: string := "anonymous"

  /**
   * The handlers as evidently intended: an anonymous request is logged under
   * `AnonymousName`, and every failure gets its response. An anonymous request
   * and a user whose name is `AnonymousName` get the same outcome, so the
   * audit log cannot tell the two apart.
   */
  function HandleFailureAnonymousSafe(ex: CaughtException, request: Request, principal: Option<Principal>, now: int): (o: Outcome)
    ensures o.Handled?
    ensures o.log == LogRecordFor(ex, request, if principal.Some? then principal.value.name else AnonymousName, now)
    ensures o.response == HandleFailure(ex, request, Some(Principal(AnonymousName)), now).response
    ensures principal.Some? ==> o == HandleFailure(ex, request, principal, now)
  {
    HandleFailure(ex, request, Some(principal.GetOr(Principal(AnonymousName))), now)
  }
}
