/**
 * The exceptions a use case can raise: BusinessException.java with its
 * subclasses ResourceNotFoundException, ValidationException and
 * NetworkException, and the framework exceptions the executor's catch chain
 * names (ResourceAccessException, HttpServerErrorException,
 * HttpClientErrorException, DataAccessException) plus any other Exception.
 */
module Exceptions {
  import opened Nullable
  import Text

  /** An exception's `Object details`, represented by its text. */
  type Details = string

  /** The run-time class of a BusinessException. */
  datatype BusinessClass = PlainBusiness | ResourceNotFound | Validation | Network

  /** A BusinessException object: its getters plus the class it was built as. */
  datatype BusinessException = BusinessException(
    exceptionClass: BusinessClass,
    errorCode: Option<string>,
    message: Option<string>,
    statusCode: Option<int>,
    details: Option<Details>,
    cause: Option<Fault>)

  /**
   * A raised exception. `bodyMessage` of the two HTTP exceptions is what reading the
   * "message" field of the upstream response body yields (None when the body is
   * missing, is not JSON or has no such field).
   */
  datatype Fault =
    | Business(ex: BusinessException)
    | ResourceAccess(message: Option<string>)
    | HttpServerError(status: int, message: Option<string>, bodyMessage: Option<string>)
    | HttpClientError(status: int, message: Option<string>, bodyMessage: Option<string>)
    | DataAccess(message: Option<string>)
    | OtherException(message: Option<string>)

  /** A computation that either returns a value or raises an exception. */
  datatype Attempt<T> = Returned(value: T) | Raised(fault: Fault)

  // ---- BusinessException constructors ----

  /** `new BusinessException(message)`. */
  function NewBusiness(message: Option<string>): (ex: BusinessException)
    ensures ex.exceptionClass == PlainBusiness
    ensures ex.errorCode == Some("BUSINESS_ERROR") && ex.statusCode == Some(400)
    ensures ex.message == message && ex.details == None && ex.cause == None
  {
    BusinessException(PlainBusiness, Some("BUSINESS_ERROR"), message, Some(400), None, None)
  }

  /** `new BusinessException(errorCode, message)`. */
  function NewBusinessWithCode(errorCode: Option<string>, message: Option<string>): (ex: BusinessException)
    ensures ex.exceptionClass == PlainBusiness
    ensures ex.errorCode == errorCode && ex.statusCode == Some(400)
    ensures ex.message == message && ex.details == None && ex.cause == None
  {
    BusinessException(PlainBusiness, errorCode, message, Some(400), None, None)
  }

  /** `new BusinessException(errorCode, message, statusCode)`. */
  function NewBusinessWithStatus(errorCode: Option<string>, message: Option<string>, statusCode: Option<int>): (ex: BusinessException)
    ensures ex.exceptionClass == PlainBusiness
    ensures ex.errorCode == errorCode && ex.statusCode == statusCode
    ensures ex.message == message && ex.details == None && ex.cause == None
  {
    BusinessException(PlainBusiness, errorCode, message, statusCode, None, None)
  }

  /** `new BusinessException(errorCode, message, statusCode, details)`. */
  function NewBusinessWithDetails(errorCode: Option<string>, message: Option<string>, statusCode: Option<int>, details: Option<Details>): (ex: BusinessException)
    ensures ex.exceptionClass == PlainBusiness
    ensures ex.errorCode == errorCode && ex.statusCode == statusCode
    ensures ex.message == message && ex.details == details && ex.cause == None
  {
    BusinessException(PlainBusiness, errorCode, message, statusCode, details, None)
  }

  /** `new BusinessException(errorCode, message, cause)`: the status is 400 whatever the cause. */
  function NewBusinessWithCause(errorCode: Option<string>, message: Option<string>, cause: Option<Fault>): (ex: BusinessException)
    ensures ex.exceptionClass == PlainBusiness
    ensures ex.errorCode == errorCode && ex.statusCode == Some(400)
    ensures ex.message == message && ex.details == None && ex.cause == cause
  {
    BusinessException(PlainBusiness, errorCode, message, Some(400), None, cause)
  }

  // ---- ResourceNotFoundException ----

  /** `String.format("%s", x)` prints a null reference as "null". */
  function FormatNullable(x: Option<string>): string {
    x.GetOr("null")
  }

  /** The message "<name> với ID <id> không tồn tại" ("<name> with ID <id> does not exist"). */
  function NotFoundMessage(resourceName: Option<string>, idText: string): (m: string)
    ensures Text.Contains(m, idText)
    ensures Text.StartsWith(m, FormatNullable(resourceName))
  {
    var name := FormatNullable(resourceName);
    Text.ContainsInfix(name + " với ID ", idText, " không tồn tại");
    assert (name + " với ID " + idText + " không tồn tại")[..|name|] == name;
    name + " với ID " + idText + " không tồn tại"
  }

  /** `new ResourceNotFoundException(message)`. */
  function NewNotFound(message: Option<string>): (ex: BusinessException)
    ensures ex.exceptionClass == ResourceNotFound
    ensures ex.errorCode == Some("NOT_FOUND") && ex.statusCode == Some(404)
    ensures ex.message == message && ex.details == None && ex.cause == None
  {
    NewBusinessWithStatus(Some("NOT_FOUND"), message, Some(404)).(exceptionClass := ResourceNotFound)
  }

  /** `new ResourceNotFoundException(resourceName, Long id)`: the id is printed with `%d`. */
  function NewNotFoundForLongId(resourceName: Option<string>, id: Option<int>): (ex: BusinessException)
    ensures ex.exceptionClass == ResourceNotFound
    ensures ex.errorCode == Some("NOT_FOUND") && ex.statusCode == Some(404)
    ensures ex.details == None && ex.cause == None
    ensures id.Some? ==> ex.message == Some(NotFoundMessage(resourceName, Text.IntToString(id.value)))
    ensures id.None? ==> ex.message == Some(NotFoundMessage(resourceName, "null"))
  {
    var idText := if id.Some? then Text.IntToString(id.value) else "null";
    NewBusinessWithStatus(Some("NOT_FOUND"), Some(NotFoundMessage(resourceName, idText)), Some(404))
      .(exceptionClass := ResourceNotFound)
  }

  /** `new ResourceNotFoundException(resourceName, Object id)`: the id is printed by its `toString()`, given as `idText`. */
  function NewNotFoundForId(resourceName: Option<string>, idText: string): (ex: BusinessException)
    ensures ex.exceptionClass == ResourceNotFound
    ensures ex.errorCode == Some("NOT_FOUND") && ex.statusCode == Some(404)
    ensures ex.details == None && ex.cause == None
    ensures ex.message == Some(NotFoundMessage(resourceName, idText))
  {
    NewBusinessWithStatus(Some("NOT_FOUND"), Some(NotFoundMessage(resourceName, idText)), Some(404))
      .(exceptionClass := ResourceNotFound)
  }

  // ---- ValidationException ----

  /** `new ValidationException(message)`. */
  function NewValidation(message: Option<string>): (ex: BusinessException)
    ensures ex.exceptionClass == Validation
    ensures ex.errorCode == Some("VALIDATION_ERROR") && ex.statusCode == Some(400)
    ensures ex.message == message && ex.details == None && ex.cause == None
  {
    NewBusinessWithStatus(Some("VALIDATION_ERROR"), message, Some(400)).(exceptionClass := Validation)
  }

  /** `new ValidationException(message, details)`. */
  function NewValidationWithDetails(message: Option<string>, details: Option<Details>): (ex: BusinessException)
    ensures ex.exceptionClass == Validation
    ensures ex.errorCode == Some("VALIDATION_ERROR") && ex.statusCode == Some(400)
    ensures ex.message == message && ex.details == details && ex.cause == None
  {
    NewBusinessWithDetails(Some("VALIDATION_ERROR"), message, Some(400), details).(exceptionClass := Validation)
  }

  // ---- NetworkException ----

  /** `new NetworkException(message)`: status 503. */
  function NewNetwork(message: Option<string>): (ex: BusinessException)
    ensures ex.exceptionClass == Network
    ensures ex.errorCode == Some("NETWORK_ERROR") && ex.statusCode == Some(503)
    ensures ex.message == message && ex.details == None && ex.cause == None
  {
    NewBusinessWithStatus(Some("NETWORK_ERROR"), message, Some(503)).(exceptionClass := Network)
  }

  /** `new NetworkException(message, cause)`: delegates to the cause constructor, so the status is 400. */
  function NewNetworkWithCause(message: Option<string>, cause: Option<Fault>): (ex: BusinessException)
    ensures ex.exceptionClass == Network
    ensures ex.errorCode == Some("NETWORK_ERROR") && ex.statusCode == Some(400)
    ensures ex.message == message && ex.details == None && ex.cause == cause
  {
    NewBusinessWithCause(Some("NETWORK_ERROR"), message, cause).(exceptionClass := Network)
  }

  /** The two NetworkException constructors disagree on the status although both say NETWORK_ERROR. */
  lemma NetworkStatusDependsOnConstructor(message: Option<string>, cause: Option<Fault>)
    ensures NewNetwork(message).errorCode == NewNetworkWithCause(message, cause).errorCode
    ensures NewNetwork(message).statusCode != NewNetworkWithCause(message, cause).statusCode
  {
  }

  /** Every ResourceNotFoundException, however built, says NOT_FOUND/404 and has no details. */
  lemma NotFoundAlwaysNotFound(ex: BusinessException, message: Option<string>, name: Option<string>, id: Option<int>, idText: string)
    requires ex == NewNotFound(message) || ex == NewNotFoundForLongId(name, id) || ex == NewNotFoundForId(name, idText)
    ensures ex.exceptionClass == ResourceNotFound
    ensures ex.errorCode == Some("NOT_FOUND") && ex.statusCode == Some(404) && ex.details == None
  {
  }
}
