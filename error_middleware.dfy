/**
 * HTTP error classification (common/infrastructure/server/fastapi/middleware/error_middleware.py):
 * handlers that claim an exception and turn it into a JSON error response, and
 * the middleware that tries them in order.
 */
module HttpErrorHandling {
  import opened Errors

  /** A JSON response `{"error": ..., "detail": ...}` with its status code. */
  datatype Response = Response(status: int, error: string, detail: string)

  /**
   * The handler kinds. An application handler carries its class-level status
   * map; `exactTypeOnly` marks a subclass whose `can_handle` is exact-type
   * membership in that map instead of `isinstance(exc, ApplicationError)`.
   */
  datatype Handler =
    | DomainErrorHandler
    | ApplicationErrorHandler(statusMap: map<ErrorClass, int>, exactTypeOnly: bool)
    | RepositoryErrorHandler

  const BadRequest := 400
  const NotFound := 404
  const Conflict := 409
  const InternalServerError := 500

  /** `ApplicationErrorHandler.ERROR_STATUS_MAP` */
  const ApplicationStatusMap: map<ErrorClass, int> := map[NotFoundError := NotFound]

  /** `RepositoryErrorHandler.ERROR_STATUS_MAP` */
  const RepositoryStatusMap: map<ErrorClass, int> := map[DuplicateEntryError := Conflict, OptimisticLockError := Conflict]

  /** The application handler as the base class defines it. */
  const StandardApplicationHandler := ApplicationErrorHandler(ApplicationStatusMap, false)

  /** The handlers the application registers, in order: repository errors before the application errors they derive from. */
  const StandardHandlers := [RepositoryErrorHandler, StandardApplicationHandler, DomainErrorHandler]

  /** `can_handle` */
  predicate CanHandle(h: Handler, e: Error)
  {
    match h
    case DomainErrorHandler => Is(e, DomainError)
    case ApplicationErrorHandler(m, exact) => if exact then e.cls in m else Is(e, ApplicationError)
    case RepositoryErrorHandler => Is(e, RepositoryError)
  }

  /** `.get(type(exc), default)`: a status map consulted with the exact class. */
  function StatusOf(m: map<ErrorClass, int>, c: ErrorClass, default: int): (s: int)
    ensures c in m ==> s == m[c]
    ensures c !in m ==> s == default
  {
    if c in m then m[c] else default
  }

  /** The response body every handler but the optimistic-lock branch uses. */
  function Described(status: int, e: Error): (r: Response)
    ensures r.status == status && r.error == ClassName(e.cls) && r.detail == Str(e)
  {
    Response(status, ClassName(e.cls), Str(e))
  }

  /** `handle` */
  function Handle(h: Handler, e: Error): Response
  {
    match h
    case DomainErrorHandler => Described(BadRequest, e)
    case ApplicationErrorHandler(m, _) => Described(StatusOf(m, e.cls, BadRequest), e)
    case RepositoryErrorHandler =>
      if Is(e, OptimisticLockError) then Response(Conflict, "OptimisticLockError", "Retry later: " + Str(e))
      else Described(StatusOf(RepositoryStatusMap, e.cls, InternalServerError), e)
  }

  /** The response when no handler claims the exception. */
  function InternalError(e: Error): Response
  {
    Response(InternalServerError, "InternalError", Str(e))
  }

  /** The loop in `dispatch`: the first handler that claims the exception answers. */
  function FirstMatch(handlers: seq<Handler>, e: Error): (r: Response)
    ensures (forall i :: 0 <= i < |handlers| ==> !CanHandle(handlers[i], e)) ==> r == InternalError(e)
    ensures forall i :: (0 <= i < |handlers| && CanHandle(handlers[i], e)
                         && (forall j :: 0 <= j < i ==> !CanHandle(handlers[j], e))) ==> r == Handle(handlers[i], e)
  {
    if handlers == [] then InternalError(e)
    else if CanHandle(handlers[0], e) then Handle(handlers[0], e)
    else
      var r := FirstMatch(handlers[1..], e);
      assert forall i :: 1 <= i < |handlers| ==> handlers[i] == handlers[1..][i - 1];
      r
  }

  /** What the downstream application did: return a response, or raise. */
  datatype Downstream = Returned(response: Response) | Raised(error: Error)

  /** `ErrorHandlingMiddleware.dispatch` */
  function Dispatch(handlers: seq<Handler>, downstream: Downstream): (r: Response)
    ensures downstream.Returned? ==> r == downstream.response
  {
    match downstream
    case Returned(response) => response
    case Raised(e) => FirstMatch(handlers, e)
  }

  /** Any domain error, an invariant violation included, is a 400 carrying its class name and message. */
  lemma {:induction false} DomainErrorsAreBadRequests(e: Error)
    requires Is(e, DomainError)
    ensures CanHandle(DomainErrorHandler, e)
    ensures Handle(DomainErrorHandler, e) == Response(400, ClassName(e.cls), Str(e))
  {
  }

  /**
   * The application handler claims every application error and looks its class
   * up exactly: `NotFoundError` itself is a 404, everything else, subclasses of
   * `NotFoundError` included, a 400.
   */
  lemma {:induction false} ApplicationStatusIsExact(e: Error)
    requires Is(e, ApplicationError)
    ensures CanHandle(StandardApplicationHandler, e)
    ensures Handle(StandardApplicationHandler, e) == Described(if e.cls == NotFoundError then 404 else 400, e)
  {
  }

  /** A class derived from `NotFoundError` is answered with 400, not 404. */
  lemma {:induction false} NotFoundSubclassIsBadRequest(name: string, args: seq<string>)
    ensures var e := Error(Subclass(name, NotFoundError), args, NoDriverError);
            CanHandle(StandardApplicationHandler, e) && Handle(StandardApplicationHandler, e).status == 400
  {
    var e := Error(Subclass(name, NotFoundError), args, NoDriverError);
    SubclassIsA(name, NotFoundError, ApplicationError);
    HierarchyFacts();
  }

  /**
   * The repository handler: any optimistic-lock error is a 409 whose detail is
   * prefixed "Retry later: ", exactly `DuplicateEntryError` a 409, any other
   * repository error a 500.
   */
  lemma {:induction false} RepositoryStatuses(e: Error)
    requires Is(e, RepositoryError)
    ensures CanHandle(RepositoryErrorHandler, e)
    ensures Is(e, OptimisticLockError) ==>
              Handle(RepositoryErrorHandler, e) == Response(409, "OptimisticLockError", "Retry later: " + Str(e))
    ensures !Is(e, OptimisticLockError) && e.cls == DuplicateEntryError ==>
              Handle(RepositoryErrorHandler, e) == Described(409, e)
    ensures !Is(e, OptimisticLockError) && e.cls != DuplicateEntryError ==>
              Handle(RepositoryErrorHandler, e) == Described(500, e)
  {
    if !Is(e, OptimisticLockError) {
      assert e.cls != OptimisticLockError;
    }
  }

  /**
   * With the registered order, every exception gets the answer of the most
   * specific handler that applies: repository errors never reach the
   * application handler, and an exception no handler claims is a 500.
   */
  lemma {:induction false} StandardDispatch(e: Error)
    ensures Is(e, RepositoryError) ==> Dispatch(StandardHandlers, Raised(e)) == Handle(RepositoryErrorHandler, e)
    ensures Is(e, ApplicationError) && !Is(e, RepositoryError) ==>
              Dispatch(StandardHandlers, Raised(e)) == Described(if e.cls == NotFoundError then 404 else 400, e)
    ensures Is(e, DomainError) ==> Dispatch(StandardHandlers, Raised(e)) == Described(400, e)
    ensures !Is(e, ApplicationError) && !Is(e, DomainError) ==> Dispatch(StandardHandlers, Raised(e)) == InternalError(e)
  {
    HierarchyFacts();
    if Is(e, DomainError) && Is(e, ApplicationError) {
      AncestorsAreChained(e.cls, DomainError, ApplicationError);
    }
    if Is(e, DomainError) && Is(e, RepositoryError) {
      AncestorsAreChained(e.cls, DomainError, RepositoryError);
    }
    var hs := StandardHandlers;
    if Is(e, RepositoryError) {
      IsATransitive(e.cls, RepositoryError, ApplicationError);
      assert CanHandle(hs[0], e);
    } else if Is(e, ApplicationError) {
      assert !CanHandle(hs[0], e) && CanHandle(hs[1], e);
    } else if Is(e, DomainError) {
      assert !CanHandle(hs[0], e) && !CanHandle(hs[1], e) && CanHandle(hs[2], e);
    }
  }

  /** A duplicate entry is a 409 conflict at the application's boundary, not a 400. */
  lemma {:induction false} DuplicateEntryIsConflict(args: seq<string>)
    ensures Dispatch(StandardHandlers, Raised(Error(DuplicateEntryError, args, NoDriverError))).status == 409
  {
    HierarchyFacts();
    StandardDispatch(Error(DuplicateEntryError, args, NoDriverError));
  }
}
