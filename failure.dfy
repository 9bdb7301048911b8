/** Failure.java: the failure value carried by a Left. */
module Failures {
  import opened Nullable
  import opened Exceptions

  /** Every field is nullable; `cause` is the original exception, kept for diagnostics. */
  datatype Failure = Failure(
    errorCode: Option<string>,
    message: Option<string>,
    statusCode: Option<int>,
    cause: Option<Fault>,
    details: Option<Details>)

  // ---- convenience constructors: the fields not taken stay null ----

  /** `new Failure(message)`. */
  function FailureWithMessage(message: Option<string>): (f: Failure)
    ensures f.message == message
    ensures f.errorCode == None && f.statusCode == None && f.cause == None && f.details == None
  {
    Failure(None, message, None, None, None)
  }

  /** `new Failure(errorCode, message)`. */
  function FailureWithCode(errorCode: Option<string>, message: Option<string>): (f: Failure)
    ensures f.errorCode == errorCode && f.message == message
    ensures f.statusCode == None && f.cause == None && f.details == None
  {
    Failure(errorCode, message, None, None, None)
  }

  /** `new Failure(errorCode, message, statusCode)`. */
  function FailureWithStatus(errorCode: Option<string>, message: Option<string>, statusCode: Option<int>): (f: Failure)
    ensures f.errorCode == errorCode && f.message == message && f.statusCode == statusCode
    ensures f.cause == None && f.details == None
  {
    Failure(errorCode, message, statusCode, None, None)
  }

  // ---- factories: `Failure.builder()` with code, message and status only ----

  /** `m != null ? m : fallback`. */
  function MessageOr(m: Option<string>, fallback: string): (r: Option<string>)
    ensures r.Some?
    ensures m.Some? ==> r == m
    ensures m.None? ==> r == Some(fallback)
  {
    Some(m.GetOr(fallback))
  }

  const NetworkDefaultMessage := "Network connection error. Please try again later."
  const ServerDefaultMessage := "Server error. Please try again later."
  const ValidationDefaultMessage := "Validation error. Please check your input."
  const BusinessDefaultMessage := "Business logic error."
  const NotFoundDefaultMessage := "Resource not found."
  const UnauthorizedDefaultMessage := "Unauthorized access."
  const ForbiddenDefaultMessage := "Access forbidden."
  const TimeoutDefaultMessage := "Request timeout. Please try again."

  function Network(message: Option<string>): (f: Failure)
    ensures f.errorCode == Some("NETWORK_ERROR") && f.statusCode == Some(503)
    ensures f.message == MessageOr(message, NetworkDefaultMessage)
    ensures f.cause == None && f.details == None
  {
    FailureWithStatus(Some("NETWORK_ERROR"), MessageOr(message, NetworkDefaultMessage), Some(503))
  }

  function Server(message: Option<string>): (f: Failure)
    ensures f.errorCode == Some("SERVER_ERROR") && f.statusCode == Some(500)
    ensures f.message == MessageOr(message, ServerDefaultMessage)
    ensures f.cause == None && f.details == None
  {
    FailureWithStatus(Some("SERVER_ERROR"), MessageOr(message, ServerDefaultMessage), Some(500))
  }

  function Validation(message: Option<string>): (f: Failure)
    ensures f.errorCode == Some("VALIDATION_ERROR") && f.statusCode == Some(400)
    ensures f.message == MessageOr(message, ValidationDefaultMessage)
    ensures f.cause == None && f.details == None
  {
    FailureWithStatus(Some("VALIDATION_ERROR"), MessageOr(message, ValidationDefaultMessage), Some(400))
  }

  /** `Failure.validation(errorCode, message)`: the caller's code with status 400. */
  function ValidationWithCode(errorCode: Option<string>, message: Option<string>): (f: Failure)
    ensures f.errorCode == errorCode && f.statusCode == Some(400)
    ensures f.message == MessageOr(message, ValidationDefaultMessage)
    ensures f.cause == None && f.details == None
  {
    FailureWithStatus(errorCode, MessageOr(message, ValidationDefaultMessage), Some(400))
  }

  function Business(errorCode: Option<string>, message: Option<string>): (f: Failure)
    ensures f.errorCode == errorCode && f.statusCode == Some(400)
    ensures f.message == MessageOr(message, BusinessDefaultMessage)
    ensures f.cause == None && f.details == None
  {
    FailureWithStatus(errorCode, MessageOr(message, BusinessDefaultMessage), Some(400))
  }

  function NotFound(message: Option<string>): (f: Failure)
    ensures f.errorCode == Some("NOT_FOUND") && f.statusCode == Some(404)
    ensures f.message == MessageOr(message, NotFoundDefaultMessage)
    ensures f.cause == None && f.details == None
  {
    FailureWithStatus(Some("NOT_FOUND"), MessageOr(message, NotFoundDefaultMessage), Some(404))
  }

  function Unauthorized(message: Option<string>): (f: Failure)
    ensures f.errorCode == Some("UNAUTHORIZED") && f.statusCode == Some(401)
    ensures f.message == MessageOr(message, UnauthorizedDefaultMessage)
    ensures f.cause == None && f.details == None
  {
    FailureWithStatus(Some("UNAUTHORIZED"), MessageOr(message, UnauthorizedDefaultMessage), Some(401))
  }

  function Forbidden(message: Option<string>): (f: Failure)
    ensures f.errorCode == Some("FORBIDDEN") && f.statusCode == Some(403)
    ensures f.message == MessageOr(message, ForbiddenDefaultMessage)
    ensures f.cause == None && f.details == None
  {
    FailureWithStatus(Some("FORBIDDEN"), MessageOr(message, ForbiddenDefaultMessage), Some(403))
  }

  function Timeout(message: Option<string>): (f: Failure)
    ensures f.errorCode == Some("TIMEOUT") && f.statusCode == Some(408)
    ensures f.message == MessageOr(message, TimeoutDefaultMessage)
    ensures f.cause == None && f.details == None
  {
    FailureWithStatus(Some("TIMEOUT"), MessageOr(message, TimeoutDefaultMessage), Some(408))
  }

  /** `Failure.custom`: all three values verbatim; unlike the other factories a null message stays null. */
  function Custom(errorCode: Option<string>, message: Option<string>, statusCode: Option<int>): (f: Failure)
    ensures f.errorCode == errorCode && f.message == message && f.statusCode == statusCode
    ensures f.cause == None && f.details == None
  {
    FailureWithStatus(errorCode, message, statusCode)
  }

  // ---- the taxonomy the fixed-code factories follow ----

  datatype Kind = NetworkKind | ServerKind | ValidationKind | NotFoundKind | UnauthorizedKind | ForbiddenKind | TimeoutKind

  function KindCode(k: Kind): string {
    match k
    case NetworkKind => "NETWORK_ERROR"
    case ServerKind => "SERVER_ERROR"
    case ValidationKind => "VALIDATION_ERROR"
    case NotFoundKind => "NOT_FOUND"
    case UnauthorizedKind => "UNAUTHORIZED"
    case ForbiddenKind => "FORBIDDEN"
    case TimeoutKind => "TIMEOUT"
  }

  function KindStatus(k: Kind): int {
    match k
    case NetworkKind => 503
    case ServerKind => 500
    case ValidationKind => 400
    case NotFoundKind => 404
    case UnauthorizedKind => 401
    case ForbiddenKind => 403
    case TimeoutKind => 408
  }

  /** The factory of each kind. */
  function FactoryOf(k: Kind, message: Option<string>): Failure {
    match k
    case NetworkKind => Network(message)
    case ServerKind => Server(message)
    case ValidationKind => Validation(message)
    case NotFoundKind => NotFound(message)
    case UnauthorizedKind => Unauthorized(message)
    case ForbiddenKind => Forbidden(message)
    case TimeoutKind => Timeout(message)
  }

  /**
   * Each fixed-code factory yields its kind's code and status, keeps a given
   * message, supplies a message for null, and sets neither cause nor details.
   */
  lemma FactoriesFollowTaxonomy(k: Kind, message: Option<string>)
    ensures FactoryOf(k, message).errorCode == Some(KindCode(k))
    ensures FactoryOf(k, message).statusCode == Some(KindStatus(k))
    ensures FactoryOf(k, message).message.Some?
    ensures message.Some? ==> FactoryOf(k, message).message == message
    ensures FactoryOf(k, message).cause == None && FactoryOf(k, message).details == None
  {
  }

  /** The code of a fixed-code failure determines its status: no two kinds share a code. */
  lemma KindCodesDistinct(k1: Kind, k2: Kind)
    requires KindCode(k1) == KindCode(k2)
    ensures k1 == k2
  {
  }

  /** `custom` is the only factory that lets the message stay null. */
  lemma OnlyCustomKeepsNullMessage(errorCode: Option<string>, statusCode: Option<int>)
    ensures Custom(errorCode, None, statusCode).message == None
    ensures Business(errorCode, None).message == Some(BusinessDefaultMessage)
    ensures ValidationWithCode(errorCode, None).message == Some(ValidationDefaultMessage)
  {
  }
}
