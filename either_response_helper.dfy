/**
 * EitherResponseHelper.java: folds a use case's `Either<Failure, T>` into an
 * HTTP status and an ApiResponse body. `isKnownStatus` stands for the table of
 * `HttpStatus.valueOf`, which throws for a code it does not know.
 */
module EitherResponseHelper {
  import opened Nullable
  import opened Eithers
  import opened Exceptions
  import opened Failures

  /** The body: `success`, `message` and `data` (the timestamp is left out). */
  datatype ApiResponse<T> = ApiResponse(success: bool, message: Option<string>, data: Option<T>)

  datatype ResponseEntity<T> = ResponseEntity(status: int, body: ApiResponse<T>)

  const Ok := 200
  const InternalServerError := 500

  /** `resolveHttpStatus`: null and unknown codes become 500, any other code is kept. */
  function ResolveHttpStatus(statusCode: Option<int>, isKnownStatus: int -> bool): (s: int)
    ensures s == InternalServerError || (statusCode == Some(s) && isKnownStatus(s))
    ensures statusCode.Some? && isKnownStatus(statusCode.value) ==> s == statusCode.value
    ensures statusCode.None? ==> s == InternalServerError
  {
    if statusCode.None? then InternalServerError
    else if isKnownStatus(statusCode.value) then statusCode.value
    else InternalServerError
  }

  /** The Left branch shared by every `toResponse` variant, with the message to show. */
  function ErrorResponse<T>(failure: Failure, message: Option<string>, isKnownStatus: int -> bool): ResponseEntity<T> {
    ResponseEntity(ResolveHttpStatus(failure.statusCode, isKnownStatus), ApiResponse(false, message, None))
  }

  /** `ApiResponse.success(message, data)`. */
  function SuccessBody<T>(message: string, data: T): ApiResponse<T> {
    ApiResponse(true, Some(message), Some(data))
  }

  /** `toResponse(either, successMessage)`. */
  function ToResponse<T>(either: Either<Failure, T>, successMessage: string, isKnownStatus: int -> bool): (r: ResponseEntity<T>)
    ensures r.body.success <==> either.IsRight()
    ensures r.body.data.Some? <==> either.IsRight()
    ensures either.Left? ==> r.status == ResolveHttpStatus(either.left.statusCode, isKnownStatus)
    ensures either.Left? ==> r.body.message == either.left.message
    ensures either.Right? ==> r.status == Ok && r.body == SuccessBody(successMessage, either.right)
  {
    either.Fold(
      (failure: Failure) => ErrorResponse(failure, failure.message, isKnownStatus),
      data => ResponseEntity(Ok, SuccessBody(successMessage, data)))
  }

  /** `toResponse(either)`: the success message is "Operation successful". */
  function ToResponseDefault<T>(either: Either<Failure, T>, isKnownStatus: int -> bool): (r: ResponseEntity<T>)
    ensures either.Right? ==> r.body.message == Some("Operation successful")
    ensures r == ToResponse(either, "Operation successful", isKnownStatus)
  {
    ToResponse(either, "Operation successful", isKnownStatus)
  }

  /** `toResponse(either, successMessage, successStatus)`. */
  function ToResponseWithStatus<T>(either: Either<Failure, T>, successMessage: string, successStatus: int, isKnownStatus: int -> bool): (r: ResponseEntity<T>)
    ensures either.Right? ==> r.status == successStatus && r.body == SuccessBody(successMessage, either.right)
    ensures either.Left? ==> r == ToResponse(either, successMessage, isKnownStatus)
  {
    either.Fold(
      (failure: Failure) => ErrorResponse(failure, failure.message, isKnownStatus),
      data => ResponseEntity(successStatus, SuccessBody(successMessage, data)))
  }

  /** `toResponseWithErrorMapper`: the Left's message is the mapper's, the rest as in `toResponse`. */
  function ToResponseWithErrorMapper<T>(either: Either<Failure, T>, successMessage: string, errorMessageMapper: Failure -> Option<string>, isKnownStatus: int -> bool): (r: ResponseEntity<T>)
    ensures either.Left? ==> r.body.message == errorMessageMapper(either.left)
    ensures either.Left? ==> r.status == ToResponse(either, successMessage, isKnownStatus).status && !r.body.success && r.body.data == None
    ensures either.Right? ==> r == ToResponse(either, successMessage, isKnownStatus)
  {
    either.Fold(
      (failure: Failure) => ErrorResponse(failure, errorMessageMapper(failure), isKnownStatus),
      data => ResponseEntity(Ok, SuccessBody(successMessage, data)))
  }

  function IsSuccess<T>(either: Either<Failure, T>): (b: bool)
    ensures b <==> either.Right?
  {
    either.IsRight()
  }

  function IsFailure<T>(either: Either<Failure, T>): (b: bool)
    ensures b <==> either.Left?
  {
    either.IsLeft()
  }

  lemma SuccessAndFailureComplementary<T>(either: Either<Failure, T>)
    ensures IsSuccess(either) != IsFailure(either)
  {
  }

  /** `getOrThrow`: a Right's data, or a RuntimeException carrying the failure's message. */
  function GetOrThrow<T>(either: Either<Failure, T>): (r: Attempt<T>)
    ensures either.Right? ==> r == Returned(either.right)
    ensures either.Left? ==> r == Raised(OtherException(either.left.message))
  {
    either.Fold(
      (failure: Failure) => Raised(OtherException(failure.message)),
      (data: T) => Returned(data))
  }

  /** A failure whose status is a known code reaches the client with that very status and message. */
  lemma KnownFailureStatusReachesClient<T>(failure: Failure, successMessage: string, isKnownStatus: int -> bool)
    requires failure.statusCode.Some? && isKnownStatus(failure.statusCode.value)
    ensures var r := ToResponse<T>(Left(failure), successMessage, isKnownStatus);
      r.status == failure.statusCode.value && r.body == ApiResponse(false, failure.message, None)
  {
  }
}
