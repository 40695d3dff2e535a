/**
 * The exception classes the core raises, catches and classifies, with the
 * subclass relation that `isinstance` consults, and the failure-carrying
 * result types that stand for "returns a value or raises".
 */
module Errors {

  /**
   * Exception classes. `Subclass(name, base)` is any further class a caller
   * derives from one of them; `Exception` is Python's root of all of them.
   */
  datatype ErrorClass =
    | Exception
    | DomainError | InvariantViolationError
    | ApplicationError | NotFoundError | RepositoryError | DuplicateEntryError | OptimisticLockError
    | InvalidTokenError | TokenExpiredError | TokenRevokedError
    | UsernameAlreadyTakenError | InvalidUsernameError | InvalidPasswordError
    | ValueError | TypeError
    | IntegrityError                                   // sqlite3.IntegrityError
    | SQLAlchemyError | DatabaseError | StaleDataError  // sqlalchemy.exc / sqlalchemy.orm.exc
    | Subclass(name: string, base: ErrorClass)

  /** Distance from the root `Exception`; it bounds the walk up the hierarchy. */
  function Depth(c: ErrorClass): nat
  {
    match c
    case Exception => 0
    case DomainError | ApplicationError | ValueError | TypeError | IntegrityError | SQLAlchemyError => 1
    case InvariantViolationError | NotFoundError | RepositoryError => 2
    case InvalidTokenError | TokenExpiredError | TokenRevokedError => 2
    case UsernameAlreadyTakenError | InvalidUsernameError | InvalidPasswordError => 2
    case DatabaseError | StaleDataError => 2
    case DuplicateEntryError | OptimisticLockError => 3
    case Subclass(_, b) => Depth(b) + 1
  }

  /** The direct base class of every class other than the root. */
  function Parent(c: ErrorClass): (p: ErrorClass)
    requires c != Exception
    ensures Depth(p) + 1 == Depth(c)
  {
    match c
    case DomainError | ApplicationError | ValueError | TypeError | IntegrityError | SQLAlchemyError => Exception
    case InvariantViolationError => DomainError
    case NotFoundError | RepositoryError => ApplicationError
    case InvalidTokenError | TokenExpiredError | TokenRevokedError => ApplicationError
    case UsernameAlreadyTakenError | InvalidUsernameError | InvalidPasswordError => ApplicationError
    case DatabaseError | StaleDataError => SQLAlchemyError
    case DuplicateEntryError | OptimisticLockError => RepositoryError
    case Subclass(_, b) => b
  }

  /** `issubclass(c, k)`: `k` is `c` or one of its ancestors. */
  predicate IsA(c: ErrorClass, k: ErrorClass)
    decreases Depth(c)
  {
    c == k || (c != Exception && IsA(Parent(c), k))
  }

  /** `type(exc).__name__` */
  function ClassName(c: ErrorClass): string
  {
    match c
    case Exception => "Exception"
    case DomainError => "DomainError"
    case InvariantViolationError => "InvariantViolationError"
    case ApplicationError => "ApplicationError"
    case NotFoundError => "NotFoundError"
    case RepositoryError => "RepositoryError"
    case DuplicateEntryError => "DuplicateEntryError"
    case OptimisticLockError => "OptimisticLockError"
    case InvalidTokenError => "InvalidTokenError"
    case TokenExpiredError => "TokenExpiredError"
    case TokenRevokedError => "TokenRevokedError"
    case UsernameAlreadyTakenError => "UsernameAlreadyTakenError"
    case InvalidUsernameError => "InvalidUsernameError"
    case InvalidPasswordError => "InvalidPasswordError"
    case ValueError => "ValueError"
    case TypeError => "TypeError"
    case IntegrityError => "IntegrityError"
    case SQLAlchemyError => "SQLAlchemyError"
    case DatabaseError => "DatabaseError"
    case StaleDataError => "StaleDataError"
    case Subclass(n, _) => n
  }

  /** The driver-level exception a SQLAlchemy `DatabaseError` wraps (its `orig`). */
  datatype Driver = NoDriverError | UniqueViolation(text: string) | OtherDriverError(text: string)

  /** A raised exception: its class, its constructor arguments and, for database errors, its `orig`. */
  datatype Error = Error(cls: ErrorClass, args: seq<string>, orig: Driver)

  /** An exception raised with one message argument. */
  function Raise(cls: ErrorClass, message: string): (e: Error)
    ensures e.cls == cls && Str(e) == message
  {
    Error(cls, [message], NoDriverError)
  }

  /** `str(exc)` for an exception class that keeps Python's default `__str__`. */
  function Str(e: Error): string
  {
    if |e.args| == 0 then ""
    else if |e.args| == 1 then e.args[0]
    else "(" + QuotedList(e.args) + ")"
  }

  function QuotedList(args: seq<string>): string
  {
    if args == [] then ""
    else if |args| == 1 then "'" + args[0] + "'"
    else "'" + args[0] + "', " + QuotedList(args[1..])
  }

  /** `isinstance(exc, k)` */
  predicate Is(e: Error, k: ErrorClass)
  {
    IsA(e.cls, k)
  }

  /** A call that returns a `T` or raises an `Error`. */
  datatype Result<+T> = Ok(value: T) | Err(error: Error) {

    predicate IsFailure() {
      Err?
    }

    function PropagateFailure<U>(): Result<U>
      requires Err?
    {
      Err(error)
    }

    function Extract(): T
      requires Ok?
    {
      value
    }
  }

  /** A call that returns `None` or raises an `Error`. */
  datatype Outcome = Pass | Fail(error: Error) {

    predicate IsFailure() {
      Fail?
    }

    function PropagateFailure<U>(): Result<U>
      requires Fail?
    {
      Err(error)
    }
  }

  /** The application and domain branches of the hierarchy, as the error middleware relies on them. */
  lemma {:induction false} HierarchyFacts()
    ensures IsA(InvariantViolationError, DomainError)
    ensures IsA(DuplicateEntryError, RepositoryError) && IsA(DuplicateEntryError, ApplicationError)
    ensures IsA(OptimisticLockError, RepositoryError) && IsA(OptimisticLockError, ApplicationError)
    ensures IsA(NotFoundError, ApplicationError) && !IsA(NotFoundError, RepositoryError)
    ensures !IsA(InvariantViolationError, ApplicationError) && !IsA(RepositoryError, DomainError)
    ensures !IsA(DomainError, ApplicationError) && !IsA(ApplicationError, DomainError)
    ensures !IsA(ApplicationError, RepositoryError) && !IsA(DomainError, RepositoryError)
  {
  }

  /** The storage branch of the hierarchy, as the unit of work relies on it. */
  lemma {:induction false} StorageHierarchyFacts()
    ensures IsA(StaleDataError, SQLAlchemyError) && IsA(DatabaseError, SQLAlchemyError)
    ensures !IsA(StaleDataError, DatabaseError) && !IsA(DatabaseError, StaleDataError)
    ensures !IsA(IntegrityError, SQLAlchemyError)
  {
  }

  /** A derived class is an instance of everything its base is an instance of, and of nothing unrelated. */
  lemma {:induction false} SubclassIsA(n: string, b: ErrorClass, k: ErrorClass)
    ensures IsA(Subclass(n, b), k) <==> Subclass(n, b) == k || IsA(b, k)
  {
  }

  /** `issubclass` is transitive. */
  lemma {:induction false} IsATransitive(a: ErrorClass, b: ErrorClass, c: ErrorClass)
    requires IsA(a, b) && IsA(b, c)
    ensures IsA(a, c)
    decreases Depth(a)
  {
    if a != b {
      IsATransitive(Parent(a), b, c);
    }
  }

  /**
   * Single inheritance: two classes that are both ancestors of one class are
   * ancestors of each other one way or the other, so siblings share no instance.
   */
  lemma {:induction false} AncestorsAreChained(c: ErrorClass, a: ErrorClass, b: ErrorClass)
    requires IsA(c, a) && IsA(c, b)
    ensures IsA(a, b) || IsA(b, a)
    decreases Depth(c)
  {
    if c != a && c != b {
      AncestorsAreChained(Parent(c), a, b);
    }
  }

  /** Every class is an `Exception`. */
  lemma {:induction false} EverythingIsException(c: ErrorClass)
    ensures IsA(c, Exception)
    decreases Depth(c)
  {
    if c != Exception {
      EverythingIsException(Parent(c));
    }
  }
}
