/**
 * ExecuteUseCase.java: runs a use case and turns any exception it raises into
 * a Left Failure. The try/catch is modelled as Java runs it: the catch clauses
 * are tried in source order and the first whose type the exception is an
 * instance of handles it.
 */
module ExecuteUseCase {
  import opened Nullable
  import opened Eithers
  import opened Exceptions
  import opened Failures
  import Text

  /** The catch clauses of `execute`, one per caught exception class. */
  datatype CatchClause =
    | CatchBusiness | CatchResourceAccess | CatchHttpServerError
    | CatchHttpClientError | CatchDataAccess | CatchException

  /** The catch clauses in source order. */
  const CatchChain: seq<CatchClause> := [
    CatchBusiness, CatchResourceAccess, CatchHttpServerError,
    CatchHttpClientError, CatchDataAccess, CatchException
  ]

  /**
   * Java's `instanceof` against a clause's type. Every subclass of
   * BusinessException is a BusinessException, and every fault is an Exception.
   */
  predicate InstanceOf(f: Fault, c: CatchClause) {
    match c
    case CatchBusiness => f.Business?
    case CatchResourceAccess => f.ResourceAccess?
    case CatchHttpServerError => f.HttpServerError?
    case CatchHttpClientError => f.HttpClientError?
    case CatchDataAccess => f.DataAccess?
    case CatchException => true
  }

  /** The first clause of `chain` that catches `f`, if any. */
  function FirstCatch(f: Fault, chain: seq<CatchClause>): (c: Option<CatchClause>)
    ensures c.Some? ==> c.value in chain && InstanceOf(f, c.value)
    ensures c.None? ==> forall k :: 0 <= k < |chain| ==> !InstanceOf(f, chain[k])
    ensures CatchException in chain ==> c.Some?
  {
    if chain == [] then None
    else if InstanceOf(f, chain[0]) then Some(chain[0])
    else FirstCatch(f, chain[1..])
  }

  /** The clause written for the fault's own class. */
  function OwnClause(f: Fault): CatchClause {
    match f
    case Business(_) => CatchBusiness
    case ResourceAccess(_) => CatchResourceAccess
    case HttpServerError(_, _, _) => CatchHttpServerError
    case HttpClientError(_, _, _) => CatchHttpClientError
    case DataAccess(_) => CatchDataAccess
    case OtherException(_) => CatchException
  }

  /**
   * The chain is ordered most specific first: every fault is handled by the
   * clause of its own class, and only faults of no listed class reach the
   * catch-all `Exception` clause.
   */
  lemma {:induction false} FirstCatchIsOwnClause(f: Fault)
    ensures FirstCatch(f, CatchChain) == Some(OwnClause(f))
  {
    var c := CatchChain;
    var c1 := [CatchResourceAccess, CatchHttpServerError, CatchHttpClientError, CatchDataAccess, CatchException];
    var c2 := [CatchHttpServerError, CatchHttpClientError, CatchDataAccess, CatchException];
    var c3 := [CatchHttpClientError, CatchDataAccess, CatchException];
    var c4 := [CatchDataAccess, CatchException];
    var c5 := [CatchException];
    assert c[1..] == c1 && c1[1..] == c2 && c2[1..] == c3 && c3[1..] == c4 && c4[1..] == c5;
    if !f.Business? {
      assert FirstCatch(f, c) == FirstCatch(f, c1);
      if !f.ResourceAccess? {
        assert FirstCatch(f, c1) == FirstCatch(f, c2);
        if !f.HttpServerError? {
          assert FirstCatch(f, c2) == FirstCatch(f, c3);
          if !f.HttpClientError? {
            assert FirstCatch(f, c3) == FirstCatch(f, c4);
            if !f.DataAccess? {
              assert FirstCatch(f, c4) == FirstCatch(f, c5);
            }
          }
        }
      }
    }
  }

  /**
   * The first catching clause is the earliest one: every clause before it
   * lets the fault pass.
   */
  lemma {:induction false} FirstCatchIsEarliest(f: Fault, chain: seq<CatchClause>)
    ensures FirstCatch(f, chain).Some? ==>
      exists i :: 0 <= i < |chain| && chain[i] == FirstCatch(f, chain).value && (forall j :: 0 <= j < i ==> !InstanceOf(f, chain[j]))
  {
    if chain != [] && !InstanceOf(f, chain[0]) {
      FirstCatchIsEarliest(f, chain[1..]);
      if FirstCatch(f, chain).Some? {
        var i :| 0 <= i < |chain[1..]| && chain[1..][i] == FirstCatch(f, chain).value &&
          forall j :: 0 <= j < i ==> !InstanceOf(f, chain[1..][j]);
        assert chain[i + 1] == FirstCatch(f, chain).value;
        assert forall j :: 0 <= j < i + 1 ==> !InstanceOf(f, chain[j]) by {
          forall j | 0 <= j < i + 1
            ensures !InstanceOf(f, chain[j])
          {
            if j > 0 {
              assert chain[j] == chain[1..][j - 1];
            }
          }
        }
      }
    } else if chain != [] {
      assert chain[0] == FirstCatch(f, chain).value;
    }
  }

  /**
   * The order of the clauses matters: with the catch-all `Exception` clause
   * moved to the front, it would catch every fault and no specific handler
   * would ever run.
   */
  lemma CatchAllFirstShadowsTheRest(f: Fault)
    ensures FirstCatch(f, [CatchException] + CatchChain[..5]) == Some(CatchException)
    ensures f.Business? ==> FirstCatch(f, CatchChain) != FirstCatch(f, [CatchException] + CatchChain[..5])
  {
    FirstCatchIsOwnClause(f);
  }

  const NetworkErrorMessage := "Network connection error. Please try again later."
  const UpstreamServerErrorMessage := "The system is experiencing issues. Please try again later."
  const DatabaseErrorMessage := "Database access error. Please try again later."

  /** The message of an HTTP 4xx fault whose body carried none. */
  function ClientErrorMessage(status: int, defaultErrorMessage: Option<string>): Option<string> {
    if status == 400 then Some("Bad request. Please check your input and try again.")
    else if status == 401 then Some("You are not authenticated or session has expired.")
    else if status == 403 then Some("You are not authorized to perform this action.")
    else if status == 404 then Some("Resource not found.")
    else defaultErrorMessage
  }

  /** The body of catch clause `c` for the fault `f` it caught. */
  function Handle<T>(
    c: CatchClause, f: Fault, defaultErrorMessage: Option<string>,
    onBusinessException: Option<BusinessException -> Option<Either<Failure, T>>>,
    onOtherException: Option<Fault -> Option<Either<Failure, T>>>): Either<Failure, T>
    requires InstanceOf(f, c)
  {
    match c
    case CatchBusiness =>
      var handled := if onBusinessException.Some? then onBusinessException.value(f.ex) else None;
      if handled.Some? then handled.value
      else Left(Failure(f.ex.errorCode, f.ex.message, f.ex.statusCode, Some(f), f.ex.details))
    case CatchResourceAccess =>
      Left(Failures.Network(Some(NetworkErrorMessage)))
    case CatchHttpServerError =>
      Left(Failures.Server(Some(f.bodyMessage.GetOr(UpstreamServerErrorMessage))))
    case CatchHttpClientError =>
      var message := if f.bodyMessage.Some? then f.bodyMessage else ClientErrorMessage(f.status, defaultErrorMessage);
      Left(Failures.Custom(Some("HTTP_" + Text.IntToString(f.status)), message, Some(f.status)))
    case CatchDataAccess =>
      Left(Failures.Server(Some(DatabaseErrorMessage)))
    case CatchException =>
      var handled := if onOtherException.Some? then onOtherException.value(f) else None;
      if handled.Some? then handled.value
      else Left(Failure(Some("UNKNOWN_ERROR"), defaultErrorMessage, Some(500), Some(f), None))
  }

  /**
   * `execute` (overload 3): `func` is what running the supplier did, `funcTitle`
   * only names the operation in log lines. No fault escapes: every fault is
   * caught by some clause.
   */
  function Execute<T>(
    func: Attempt<Either<Failure, T>>, funcTitle: string, defaultErrorMessage: Option<string>,
    onBusinessException: Option<BusinessException -> Option<Either<Failure, T>>>,
    onOtherException: Option<Fault -> Option<Either<Failure, T>>>): (r: Either<Failure, T>)
    ensures func.Returned? ==> r == func.value
  {
    match func
    case Returned(result) => result
    case Raised(f) =>
      Handle(FirstCatch(f, CatchChain).value, f, defaultErrorMessage, onBusinessException, onOtherException)
  }

  /** `execute` overload 1: no handlers. */
  function ExecuteDefault<T>(func: Attempt<Either<Failure, T>>, funcTitle: string, defaultErrorMessage: Option<string>): (r: Either<Failure, T>)
    ensures r == Execute(func, funcTitle, defaultErrorMessage, None, None)
    ensures func.Returned? ==> r == func.value
    ensures func.Raised? ==> r.Left?
  {
    Execute(func, funcTitle, defaultErrorMessage, None, None)
  }

  /** `execute` overload 2: a BusinessException handler only. */
  function ExecuteWithBusinessHandler<T>(
    func: Attempt<Either<Failure, T>>, funcTitle: string, defaultErrorMessage: Option<string>,
    onBusinessException: Option<BusinessException -> Option<Either<Failure, T>>>): (r: Either<Failure, T>)
    ensures r == Execute(func, funcTitle, defaultErrorMessage, onBusinessException, None)
  {
    Execute(func, funcTitle, defaultErrorMessage, onBusinessException, None)
  }

  // ---- the classification, one lemma per catch clause ----

  /**
   * A BusinessException (any subclass): a non-null handler result wins;
   * otherwise a Left with the exception's own code, message, status and details,
   * and the exception as cause.
   */
  lemma ExecuteBusiness<T>(
    ex: BusinessException, title: string, defaultErrorMessage: Option<string>,
    onBusinessException: Option<BusinessException -> Option<Either<Failure, T>>>,
    onOtherException: Option<Fault -> Option<Either<Failure, T>>>)
    ensures var r := Execute(Raised(Business(ex)), title, defaultErrorMessage, onBusinessException, onOtherException);
      && (onBusinessException.Some? && onBusinessException.value(ex).Some? ==> r == onBusinessException.value(ex).value)
      && (onBusinessException.None? || onBusinessException.value(ex).None? ==>
            && r.Left?
            && r.left.errorCode == ex.errorCode && r.left.message == ex.message
            && r.left.statusCode == ex.statusCode && r.left.details == ex.details
            && r.left.cause == Some(Business(ex)))
  {
    FirstCatchIsOwnClause(Business(ex));
  }

  /** A ResourceAccessException: NETWORK_ERROR/503 with a fixed message, whatever the exception says. */
  lemma ExecuteResourceAccess<T>(
    m: Option<string>, title: string, defaultErrorMessage: Option<string>,
    onBusinessException: Option<BusinessException -> Option<Either<Failure, T>>>,
    onOtherException: Option<Fault -> Option<Either<Failure, T>>>)
    ensures var r := Execute(Raised(ResourceAccess(m)), title, defaultErrorMessage, onBusinessException, onOtherException);
      r == Left(Failures.Network(Some(NetworkErrorMessage)))
      && r.left.errorCode == Some("NETWORK_ERROR") && r.left.statusCode == Some(503)
  {
    FirstCatchIsOwnClause(ResourceAccess(m));
  }

  /** An HttpServerErrorException: SERVER_ERROR/500 whatever the upstream status; the body's message, else a fixed one. */
  lemma ExecuteHttpServerError<T>(
    status: int, m: Option<string>, bodyMessage: Option<string>, title: string, defaultErrorMessage: Option<string>,
    onBusinessException: Option<BusinessException -> Option<Either<Failure, T>>>,
    onOtherException: Option<Fault -> Option<Either<Failure, T>>>)
    ensures var r := Execute(Raised(HttpServerError(status, m, bodyMessage)), title, defaultErrorMessage, onBusinessException, onOtherException);
      && r.Left?
      && r.left.errorCode == Some("SERVER_ERROR") && r.left.statusCode == Some(500)
      && r.left.message == Some(bodyMessage.GetOr(UpstreamServerErrorMessage))
      && r.left.cause == None
  {
    FirstCatchIsOwnClause(HttpServerError(status, m, bodyMessage));
  }

  /**
   * An HttpClientErrorException: code "HTTP_<status>", the upstream status kept;
   * the message is the body's, else fixed text for 400/401/403/404, else the
   * caller's default message.
   */
  lemma ExecuteHttpClientError<T>(
    status: int, m: Option<string>, bodyMessage: Option<string>, title: string, defaultErrorMessage: Option<string>,
    onBusinessException: Option<BusinessException -> Option<Either<Failure, T>>>,
    onOtherException: Option<Fault -> Option<Either<Failure, T>>>)
    ensures var r := Execute(Raised(HttpClientError(status, m, bodyMessage)), title, defaultErrorMessage, onBusinessException, onOtherException);
      && r.Left?
      && r.left.errorCode == Some("HTTP_" + Text.IntToString(status))
      && r.left.statusCode == Some(status)
      && (bodyMessage.Some? ==> r.left.message == bodyMessage)
      && (bodyMessage.None? && status in {400, 401, 403, 404} ==>
            r.left.message.Some? && r.left.message == ClientErrorMessage(status, None))
      && (bodyMessage.None? && status !in {400, 401, 403, 404} ==> r.left.message == defaultErrorMessage)
  {
    FirstCatchIsOwnClause(HttpClientError(status, m, bodyMessage));
  }

  /** A DataAccessException: SERVER_ERROR/500 with a fixed message; nothing of the exception reaches the Failure. */
  lemma ExecuteDataAccess<T>(
    m: Option<string>, title: string, defaultErrorMessage: Option<string>,
    onBusinessException: Option<BusinessException -> Option<Either<Failure, T>>>,
    onOtherException: Option<Fault -> Option<Either<Failure, T>>>)
    ensures var r := Execute(Raised(DataAccess(m)), title, defaultErrorMessage, onBusinessException, onOtherException);
      && r == Left(Failures.Server(Some(DatabaseErrorMessage)))
      && r.left.errorCode == Some("SERVER_ERROR") && r.left.statusCode == Some(500)
      && r.left.cause == None
  {
    FirstCatchIsOwnClause(DataAccess(m));
  }

  /**
   * Any other Exception: a non-null handler result wins; otherwise UNKNOWN_ERROR
   * with the caller's default message and status 500, the exception kept as cause.
   */
  lemma ExecuteOther<T>(
    m: Option<string>, title: string, defaultErrorMessage: Option<string>,
    onBusinessException: Option<BusinessException -> Option<Either<Failure, T>>>,
    onOtherException: Option<Fault -> Option<Either<Failure, T>>>)
    ensures var r := Execute(Raised(OtherException(m)), title, defaultErrorMessage, onBusinessException, onOtherException);
      && (onOtherException.Some? && onOtherException.value(OtherException(m)).Some? ==> r == onOtherException.value(OtherException(m)).value)
      && (onOtherException.None? || onOtherException.value(OtherException(m)).None? ==>
            r == Left(Failure(Some("UNKNOWN_ERROR"), defaultErrorMessage, Some(500), Some(OtherException(m)), None)))
  {
    FirstCatchIsOwnClause(OtherException(m));
  }

  /**
   * A NetworkException is a BusinessException, so it keeps its own status
   * (503, or 400 when built with a cause) instead of becoming `Failure.network`.
   */
  lemma NetworkExceptionIsBusiness<T>(m: Option<string>, cause: Option<Fault>, title: string, defaultErrorMessage: Option<string>)
    ensures var r := Execute<T>(Raised(Business(NewNetwork(m))), title, defaultErrorMessage, None, None);
      r.Left? && r.left.statusCode == Some(503) && r.left.message == m
    ensures var r := Execute<T>(Raised(Business(NewNetworkWithCause(m, cause))), title, defaultErrorMessage, None, None);
      r.Left? && r.left.statusCode == Some(400) && r.left.errorCode == Some("NETWORK_ERROR")
  {
    ExecuteBusiness<T>(NewNetwork(m), title, defaultErrorMessage, None, None);
    ExecuteBusiness<T>(NewNetworkWithCause(m, cause), title, defaultErrorMessage, None, None);
  }

  /** A ResourceNotFoundException reaches the caller as NOT_FOUND/404 with its own message. */
  lemma NotFoundExceptionIsNotFound<T>(m: Option<string>, title: string, defaultErrorMessage: Option<string>)
    ensures var r := Execute<T>(Raised(Business(NewNotFound(m))), title, defaultErrorMessage, None, None);
      r.Left? && r.left.errorCode == Some("NOT_FOUND") && r.left.statusCode == Some(404) && r.left.message == m
  {
    ExecuteBusiness<T>(NewNotFound(m), title, defaultErrorMessage, None, None);
  }
}
