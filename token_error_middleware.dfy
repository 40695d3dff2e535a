/**
 * The token error handler (auth/infrastructure/server/fastapi/middleware/token_error_middleware.py):
 * an application error handler with its own status map that claims only the
 * exact token-error classes in it.
 */
module TokenErrorHandling {
  import opened Errors
  import opened HttpErrorHandling

  const Unauthorized := 401

  /** `TokenErrorHandler.ERROR_STATUS_MAP` */
  const TokenStatusMap: map<ErrorClass, int> :=
    map[TokenExpiredError := Unauthorized, TokenRevokedError := Unauthorized, InvalidTokenError := Unauthorized]

  /** `TokenErrorHandler`: the inherited `handle` reading this map, and `can_handle` by exact type. */
  const TokenErrorHandler := ApplicationErrorHandler(TokenStatusMap, true)

  /** The handlers the auth application registers. */
  const AuthHandlers := [TokenErrorHandler]

  /** The handler claims exactly the three token-error classes, and answers each of them with 401. */
  lemma {:induction false} TokenHandlerClaims(e: Error)
    ensures CanHandle(TokenErrorHandler, e) <==>
              e.cls == TokenExpiredError || e.cls == TokenRevokedError || e.cls == InvalidTokenError
    ensures CanHandle(TokenErrorHandler, e) ==> Handle(TokenErrorHandler, e) == Described(401, e)
  {
  }

  /** A class derived from a token error is not claimed: membership is by exact type. */
  lemma {:induction false} TokenSubclassNotClaimed(name: string, base: ErrorClass, args: seq<string>)
    ensures !CanHandle(TokenErrorHandler, Error(Subclass(name, base), args, NoDriverError))
  {
  }

  /**
   * In the auth application every exception other than the three token errors,
   * `NotFoundError` and the other application errors included, is answered 500.
   */
  lemma {:induction false} AuthDispatch(e: Error)
    ensures e.cls in TokenStatusMap ==> Dispatch(AuthHandlers, Raised(e)) == Described(401, e)
    ensures e.cls !in TokenStatusMap ==> Dispatch(AuthHandlers, Raised(e)) == InternalError(e)
  {
    if e.cls in TokenStatusMap {
      assert CanHandle(AuthHandlers[0], e);
    }
  }

  /** `NotFoundError` is left to other handlers, even though it is an application error. */
  lemma {:induction false} NotFoundNotClaimed(args: seq<string>)
    ensures Is(Error(NotFoundError, args, NoDriverError), ApplicationError)
    ensures !CanHandle(TokenErrorHandler, Error(NotFoundError, args, NoDriverError))
  {
    HierarchyFacts();
  }
}
