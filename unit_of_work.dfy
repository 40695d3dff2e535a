/**
 * The SQLAlchemy unit of work (common/infrastructure/database/sqlalchemy/unit_of_work.py):
 * a nesting-counted transaction where only the outermost scope commits or rolls
 * back and releases the session, the translation of storage exceptions at the
 * scope's exit, and the parsing of duplicate-key messages.
 */
module Transactions {
  import opened Wrappers
  import opened Errors

  /** The three calls the unit of work makes on a session. */
  datatype SessionCall = CommitCall | RollbackCall | CloseCall

  /** An `AsyncSession`, seen through the calls made on it. */
  class Session {
    /** `session.is_active` */
    var isActive: bool
    /** The calls the database will refuse (they raise). */
    var rejects: set<SessionCall>
    /** The calls made so far, in order. */
    var calls: seq<SessionCall>

    /** `session_factory.create()`: a new, active session. */
    constructor ()
      ensures isActive && rejects == {} && calls == []
    {
      isActive, rejects, calls := true, {}, [];
    }

    /** One call on the session; it raises when the database refuses it. */
    method Call(c: SessionCall) returns (ok: bool)
      modifies this
      ensures calls == old(calls) + [c]
      ensures ok == (c !in rejects)
      ensures isActive == old(isActive) && rejects == old(rejects)
    {
      calls := calls + [c];
      ok := c !in rejects;
    }
  }

  /** `Transaction`: a session and how deeply scopes are nested inside the outermost one. */
  class Transaction {
    var session: Session
    var nestingLevel: int

    constructor (session: Session, nestingLevel: int)
      ensures this.session == session && this.nestingLevel == nestingLevel
    {
      this.session, this.nestingLevel := session, nestingLevel;
    }

    /** `should_commit`: only the outermost scope commits. */
    predicate ShouldCommit()
      reads this
    {
      nestingLevel == 0
    }

    /** `enter` */
    method Enter()
      modifies this
      ensures nestingLevel == old(nestingLevel) + 1 && session == old(session)
    {
      nestingLevel := nestingLevel + 1;
    }

    /** `exit` */
    method Exit()
      modifies this
      ensures nestingLevel == old(nestingLevel) - 1 && session == old(session)
    {
      nestingLevel := nestingLevel - 1;
    }
  }

  /** The unit of work's state: no current transaction, or one with its session and level. */
  datatype TxState = NoTransaction | InTransaction(session: Session, level: int)

  const TransactionNotFound: Error := Raise(ValueError, "Transaction not found")
  const SessionInactive: Error := Raise(ValueError, "Session is inactive")
  const CommitFailed: Error := Raise(RepositoryError, "Unnable to commit transaction")
  const RollbackFailed: Error := Raise(RepositoryError, "Unnable to rollback transaction")
  const CloseFailed: Error := Raise(RepositoryError, "Unnable to close session connection")

  /** What the end of a scope does to the current transaction. */
  datatype Next = Reset | Decrement | Keep

  /** The session calls, the outcome and the effect on the current transaction of `_finalize_transaction`. */
  datatype Finish = Finish(calls: seq<SessionCall>, outcome: Outcome, next: Next)

  /**
   * `_finalize_transaction` on a transaction at `level`: roll back on error at
   * any level, commit without error at level 0 (an inactive session is rolled
   * back and refused), then close and reset at level 0 or decrement otherwise.
   * A call that raises stops it where it is.
   */
  function FinalizePlan(level: int, hasError: bool, isActive: bool, rejects: set<SessionCall>): Finish
  {
    if hasError then
      if RollbackCall in rejects then Finish([RollbackCall], Fail(RollbackFailed), Keep)
      else Release(level, [RollbackCall], rejects)
    else if level == 0 then
      if !isActive then
        Finish([RollbackCall], Fail(if RollbackCall in rejects then RollbackFailed else SessionInactive), Keep)
      else if CommitCall in rejects then Finish([CommitCall], Fail(CommitFailed), Keep)
      else Release(level, [CommitCall], rejects)
    else Release(level, [], rejects)
  }

  /** The last step of `_finalize_transaction`: close and reset at level 0, `tx.exit()` otherwise. */
  function Release(level: int, calls: seq<SessionCall>, rejects: set<SessionCall>): Finish
  {
    if level == 0 then
      if CloseCall in rejects then Finish(calls + [CloseCall], Fail(CloseFailed), Keep)
      else Finish(calls + [CloseCall], Pass, Reset)
    else Finish(calls, Pass, Decrement)
  }

  /** The state after a finish. */
  function After(st: TxState, next: Next): TxState
  {
    match next
    case Reset => NoTransaction
    case Decrement => if st.InTransaction? then st.(level := st.level - 1) else st
    case Keep => st
  }

  /** Without an error, only the outermost scope commits; inner scopes make no session call at all. */
  lemma {:induction false} CommitOnlyAtOutermost(level: int, isActive: bool, rejects: set<SessionCall>)
    ensures CommitCall in FinalizePlan(level, false, isActive, rejects).calls <==> level == 0 && isActive
    ensures level != 0 ==> FinalizePlan(level, false, isActive, rejects) == Finish([], Pass, Decrement)
  {
  }

  /** With an error, every scope rolls back first, and none commits. */
  lemma {:induction false} ErrorRollsBackAtAnyLevel(level: int, isActive: bool, rejects: set<SessionCall>)
    ensures FinalizePlan(level, true, isActive, rejects).calls[0] == RollbackCall
    ensures CommitCall !in FinalizePlan(level, true, isActive, rejects).calls
  {
  }

  /** When the session refuses nothing, the outermost scope ends by closing it and clearing the transaction. */
  lemma {:induction false} OutermostReleases(hasError: bool, isActive: bool)
    requires hasError || isActive
    ensures var f := FinalizePlan(0, hasError, isActive, {});
            f.outcome == Pass && f.next == Reset && f.calls[|f.calls| - 1] == CloseCall
  {
  }

  /**
   * A refused commit (or rollback) at the outermost scope leaves the session
   * open and the transaction installed: nothing releases it.
   */
  lemma {:induction false} FailedCommitKeepsTransaction(isActive: bool, rejects: set<SessionCall>)
    requires CommitCall in rejects
    ensures var f := FinalizePlan(0, false, isActive, rejects);
            f.outcome.Fail? && f.next == Keep && CloseCall !in f.calls
  {
  }

  /**
   * What the kept transaction does to the scopes that follow in the same
   * context: a scope entered afterwards runs at level 1, so ending it without
   * error makes no session call at all, and its writes are never committed.
   */
  lemma {:induction false} LaterScopesNeverCommit(session: Session, isActive: bool, rejects: set<SessionCall>)
    requires CommitCall in rejects
    ensures var kept := After(InTransaction(session, 0), FinalizePlan(0, false, isActive, rejects).next);
            kept == InTransaction(session, 0)
    ensures FinalizePlan(0 + 1, false, isActive, rejects) == Finish([], Pass, Decrement)
  {
  }

  /**
   * `_finalize_transaction` with the closing step in a `finally`: the first
   * step (rollback on error, commit at level 0) is as before, but the scope is
   * always released, and a refused close replaces the first step's exception.
   */
  function FinalizePlanReleasing(level: int, hasError: bool, isActive: bool, rejects: set<SessionCall>): (f: Finish)
    ensures f.next == (if level == 0 then Reset else Decrement)
    ensures level == 0 ==> |f.calls| > 0 && f.calls[|f.calls| - 1] == CloseCall
  {
    var (calls, first) :=
      if hasError then ([RollbackCall], if RollbackCall in rejects then Fail(RollbackFailed) else Pass)
      else if level != 0 then ([], Pass)
      else if !isActive then ([RollbackCall], Fail(if RollbackCall in rejects then RollbackFailed else SessionInactive))
      else ([CommitCall], if CommitCall in rejects then Fail(CommitFailed) else Pass);
    if level == 0 then
      Finish(calls + [CloseCall], if CloseCall in rejects then Fail(CloseFailed) else first, Reset)
    else Finish(calls, first, Decrement)
  }

  /**
   * The releasing plan differs from the code only where the code keeps the
   * transaction: whenever the code resets or decrements, both make the same
   * calls with the same outcome.
   */
  lemma {:induction false} ReleasingAgreesUnlessKept(level: int, hasError: bool, isActive: bool, rejects: set<SessionCall>)
    ensures FinalizePlan(level, hasError, isActive, rejects).next != Keep ==>
              FinalizePlanReleasing(level, hasError, isActive, rejects) == FinalizePlan(level, hasError, isActive, rejects)
    ensures FinalizePlan(level, hasError, isActive, rejects).next == Keep ==>
              FinalizePlanReleasing(level, hasError, isActive, rejects).outcome.Fail?
  {
  }

  /** `\w` for the characters this model covers: ASCII letters, digits and `_`. */
  predicate IsWordChar(c: char)
  {
    ('a' <= c <= 'z') || ('A' <= c <= 'Z') || ('0' <= c <= '9') || c == '_'
  }

  /** Length of the run of word characters starting at `i`. */
  function WordRun(s: string, i: nat): (n: nat)
    requires i <= |s|
    ensures i + n <= |s|
    ensures forall k :: i <= k < i + n ==> IsWordChar(s[k])
    ensures i + n < |s| ==> !IsWordChar(s[i + n])
    decreases |s| - i
  {
    if i < |s| && IsWordChar(s[i]) then 1 + WordRun(s, i + 1) else 0
  }

  /** Where the lazy `(.*?)\)` starting at `j` stops: the first `)`, provided no newline comes first. */
  function CloseParen(s: string, j: nat): (r: Option<nat>)
    requires j <= |s|
    ensures r.Some? ==> j <= r.value < |s| && s[r.value] == ')'
    ensures r.Some? ==> forall k :: j <= k < r.value ==> s[k] != ')' && s[k] != '\n'
    decreases |s| - j
  {
    if j == |s| || s[j] == '\n' then None
    else if s[j] == ')' then Some(j)
    else CloseParen(s, j + 1)
  }

  /** `\((\w+)\)=\((.*?)\)` matched at position `i`: its two groups, if it matches there. */
  function MatchAt(s: string, i: nat): (r: Option<(string, string)>)
    requires i <= |s|
  {
    if i < |s| && s[i] == '(' then
      var n := WordRun(s, i + 1);
      var k := i + 1 + n;
      if n > 0 && k + 3 <= |s| && s[k] == ')' && s[k + 1] == '=' && s[k + 2] == '(' then
        match CloseParen(s, k + 3)
        case Some(p) => Some((s[i + 1..k], s[k + 3..p]))
        case None => None
      else None
    else None
  }

  /** `re.search`: the match at the leftmost position where there is one. */
  function Search(s: string, i: nat): (r: Option<(string, string)>)
    requires i <= |s|
    decreases |s| - i
  {
    if i == |s| then None
    else if MatchAt(s, i).Some? then MatchAt(s, i)
    else Search(s, i + 1)
  }

  /** `_extract_duplicate_info`: the first `(field)=(value)` pair, or the two placeholders. */
  function ExtractDuplicateInfo(message: string): (string, string)
  {
    match Search(message, 0)
    case Some(pair) => pair
    case None => ("unknown_field", "unknown_value")
  }

  /** What a match yields: a non-empty word as the field, and a value holding no `)` and no newline. */
  lemma {:induction false} SearchResultShape(s: string, i: nat)
    requires i <= |s|
    ensures var r := Search(s, i);
            r.Some? ==> && r.value.0 != "" && (forall k :: 0 <= k < |r.value.0| ==> IsWordChar(r.value.0[k]))
                        && (forall k :: 0 <= k < |r.value.1| ==> r.value.1[k] != ')' && r.value.1[k] != '\n')
    decreases |s| - i
  {
    if i < |s| && MatchAt(s, i).None? {
      SearchResultShape(s, i + 1);
    }
  }

  /** A text without any `(` yields the placeholders. */
  lemma {:induction false} NoParenNoMatch(s: string, i: nat)
    requires i <= |s|
    requires forall k :: i <= k < |s| ==> s[k] != '('
    ensures Search(s, i).None?
    decreases |s| - i
  {
    if i < |s| {
      NoParenNoMatch(s, i + 1);
    }
  }

  /** A word followed by a non-word character occupies exactly its own run. */
  lemma {:induction false} WordRunOfWord(s: string, i: nat, w: string)
    requires i + |w| < |s| && s[i..i + |w|] == w && !IsWordChar(s[i + |w|])
    requires forall k :: 0 <= k < |w| ==> IsWordChar(w[k])
    ensures WordRun(s, i) == |w|
    decreases |w|
  {
    if w != [] {
      assert s[i] == w[0];
      WordRunOfWord(s, i + 1, w[1..]);
    }
  }

  /** The lazy group ends at the first `)` after a value that holds none. */
  lemma {:induction false} CloseParenAfter(s: string, j: nat, v: string)
    requires j + |v| < |s| && s[j..j + |v|] == v && s[j + |v|] == ')'
    requires forall k :: 0 <= k < |v| ==> v[k] != ')' && v[k] != '\n'
    ensures CloseParen(s, j) == Some(j + |v|)
    decreases |v|
  {
    if v != [] {
      assert s[j] == v[0];
      CloseParenAfter(s, j + 1, v[1..]);
    }
  }

  /** No match can start on a stretch without `(`: the search moves past it. */
  lemma {:induction false} SearchSkipsNoParen(s: string, i: nat, j: nat)
    requires i <= j <= |s|
    requires forall k :: i <= k < j ==> s[k] != '('
    ensures Search(s, i) == Search(s, j)
    decreases j - i
  {
    if i < j {
      SearchSkipsNoParen(s, i + 1, j);
    }
  }

  /**
   * The text of a unique violation, `... DETAIL:  Key (field)=(value) already exists.`,
   * gives back its field and value, whatever comes before the first `(`.
   */
  lemma {:induction false} ExtractFromUniqueViolation(prefix: string, field: string, value: string, tail: string)
    requires forall k :: 0 <= k < |prefix| ==> prefix[k] != '('
    requires field != [] && forall k :: 0 <= k < |field| ==> IsWordChar(field[k])
    requires forall k :: 0 <= k < |value| ==> value[k] != ')' && value[k] != '\n'
    ensures ExtractDuplicateInfo(prefix + "(" + field + ")=(" + value + ")" + tail) == (field, value)
  {
    var s := prefix + "(" + field + ")=(" + value + ")" + tail;
    var i := |prefix|;
    assert s[i] == '(';
    assert s[i + 1..i + 1 + |field|] == field;
    WordRunOfWord(s, i + 1, field);
    var k := i + 1 + |field|;
    assert s[k] == ')' && s[k + 1] == '=' && s[k + 2] == '(';
    assert s[k + 3..k + 3 + |value|] == value;
    CloseParenAfter(s, k + 3, value);
    assert MatchAt(s, i) == Some((field, value));
    assert forall j :: 0 <= j < i ==> s[j] == prefix[j];
    SearchSkipsNoParen(s, 0, i);
  }

  /**
   * `_handle_exception`: the exception a scope's exit raises for the one raised
   * inside it. The tests run in this order and the first that applies decides.
   */
  function HandleException(e: Error): (r: Error)
    ensures Is(e, ApplicationError) ==> r == e
    ensures !Is(e, ApplicationError) && Is(e, StaleDataError) ==> r == Error(OptimisticLockError, [], NoDriverError)
  {
    if Is(e, ApplicationError) then e
    else if Is(e, StaleDataError) then Error(OptimisticLockError, [], NoDriverError)
    else if Is(e, DatabaseError) then
      if e.orig.UniqueViolation? then
        var (field, value) := ExtractDuplicateInfo(e.orig.text);
        Error(DuplicateEntryError, [field, value], NoDriverError)
      else Error(IntegrityError, [], NoDriverError)
    else if Is(e, SQLAlchemyError) then Raise(RepositoryError, Str(e))
    else e
  }

  /**
   * Every storage exception leaves the unit of work as an application error or
   * an `IntegrityError`; one that is neither stale data nor a database error
   * becomes a `RepositoryError` with its text; anything else passes unchanged.
   */
  lemma {:induction false} TranslationTable(e: Error)
    ensures Is(e, SQLAlchemyError) && !Is(e, ApplicationError) ==>
              Is(HandleException(e), ApplicationError) || HandleException(e).cls == IntegrityError
    ensures Is(e, SQLAlchemyError) && !Is(e, ApplicationError) && !Is(e, StaleDataError) && !Is(e, DatabaseError) ==>
              HandleException(e) == Raise(RepositoryError, Str(e))
    ensures !Is(e, SQLAlchemyError) ==> HandleException(e) == e
  {
    StorageHierarchyFacts();
    HierarchyFacts();
    if Is(e, ApplicationError) {
    } else if Is(e, StaleDataError) {
      IsATransitive(e.cls, StaleDataError, SQLAlchemyError);
    } else if Is(e, DatabaseError) {
      IsATransitive(e.cls, DatabaseError, SQLAlchemyError);
    }
  }

  /**
   * A database error that is not also stale data becomes a `DuplicateEntryError`
   * carrying the field and value of a unique violation, and an `IntegrityError`
   * otherwise.
   */
  lemma {:induction false} DatabaseErrorTranslation(e: Error)
    requires Is(e, DatabaseError) && !Is(e, ApplicationError)
    ensures e.orig.UniqueViolation? ==>
              HandleException(e) == Error(DuplicateEntryError, [ExtractDuplicateInfo(e.orig.text).0,
                                                                ExtractDuplicateInfo(e.orig.text).1], NoDriverError)
    ensures !e.orig.UniqueViolation? ==> HandleException(e).cls == IntegrityError
  {
    StorageHierarchyFacts();
    if Is(e, StaleDataError) {
      AncestorsAreChained(e.cls, DatabaseError, StaleDataError);
    }
  }

  /** `UnitOfWork`, with its context-local current transaction as one field. */
  class UnitOfWork {
    var current: Transaction?

    constructor ()
      ensures current == null
    {
      current := null;
    }

    function State(): TxState
      reads this, current
    {
      if current == null then NoTransaction else InTransaction(current.session, current.nestingLevel)
    }

    /** The objects a scope's entry or exit may change. */
    function Footprint(): set<object>
      reads this, current
    {
      if current == null then {this} else {this, current as Transaction, current.session}
    }

    /** `_get_session` */
    method GetSession() returns (r: Result<Session>)
      ensures current == null ==> r == Err(TransactionNotFound)
      ensures current != null ==> r == Ok(current.session)
    {
      if current == null {
        return Err(TransactionNotFound);
      }
      return Ok(current.session);
    }

    /** `rollback` */
    method Rollback() returns (r: Outcome)
      modifies if current == null then {} else {current.session}
      ensures State() == old(State())
      ensures current != null ==> && current.session.isActive == old(current.session.isActive)
                                  && current.session.rejects == old(current.session.rejects)
      ensures current == null ==> r == Fail(TransactionNotFound)
      ensures current != null ==> && current.session.calls == old(current.session.calls) + [RollbackCall]
                                  && r == (if RollbackCall in current.session.rejects then Fail(RollbackFailed) else Pass)
    {
      var s := GetSession();
      if s.Err? {
        return Fail(s.error);
      }
      var ok := s.value.Call(RollbackCall);
      return if ok then Pass else Fail(RollbackFailed);
    }

    /** `commit`: an inactive session is rolled back and refused; a refused commit becomes a `RepositoryError`. */
    method Commit() returns (r: Outcome)
      modifies if current == null then {} else {current.session}
      ensures State() == old(State())
      ensures current != null ==> && current.session.isActive == old(current.session.isActive)
                                  && current.session.rejects == old(current.session.rejects)
      ensures current == null ==> r == Fail(TransactionNotFound)
      ensures current != null && !current.session.isActive ==>
                && current.session.calls == old(current.session.calls) + [RollbackCall]
                && r == Fail(if RollbackCall in current.session.rejects then RollbackFailed else SessionInactive)
      ensures current != null && current.session.isActive ==>
                && current.session.calls == old(current.session.calls) + [CommitCall]
                && r == (if CommitCall in current.session.rejects then Fail(CommitFailed) else Pass)
    {
      var s := GetSession();
      if s.Err? {
        return Fail(s.error);
      }
      if !s.value.isActive {
        var rolledBack := Rollback();
        if rolledBack.Fail? {
          return rolledBack;
        }
        return Fail(SessionInactive);
      }
      var ok := s.value.Call(CommitCall);
      return if ok then Pass else Fail(CommitFailed);
    }

    /** `close` */
    method Close() returns (r: Outcome)
      modifies if current == null then {} else {current.session}
      ensures State() == old(State())
      ensures current != null ==> && current.session.isActive == old(current.session.isActive)
                                  && current.session.rejects == old(current.session.rejects)
      ensures current == null ==> r == Fail(TransactionNotFound)
      ensures current != null ==> && current.session.calls == old(current.session.calls) + [CloseCall]
                                  && r == (if CloseCall in current.session.rejects then Fail(CloseFailed) else Pass)
    {
      var s := GetSession();
      if s.Err? {
        return Fail(s.error);
      }
      var ok := s.value.Call(CloseCall);
      return if ok then Pass else Fail(CloseFailed);
    }

    /** `__aenter__`: the first scope opens a fresh session at level 0; a nested one reuses it one level deeper. */
    method Enter()
      modifies this, current
      ensures old(State()).NoTransaction? ==> && State().InTransaction? && State().level == 0
                                                && fresh(current) && fresh(State().session)
                                                && State().session.calls == [] && State().session.isActive
                                                && State().session.rejects == {}
      ensures old(State()).InTransaction? ==> State() == old(State()).(level := old(State()).level + 1)
                                               && current == old(current)
    {
      if current == null {
        var session := new Session();
        current := new Transaction(session, 0);
      } else {
        current.Enter();
      }
    }

    /** `_finalize_transaction`, as `FinalizePlan` describes it. */
    method Finalize(hasError: bool) returns (r: Outcome)
      modifies Footprint()
      ensures old(State()).NoTransaction? ==> r == Pass && State() == NoTransaction
      ensures old(State()).InTransaction? ==>
                var s := old(State()).session;
                var f := FinalizePlan(old(State()).level, hasError, old(s.isActive), old(s.rejects));
                && s.calls == old(s.calls) + f.calls
                && s.isActive == old(s.isActive) && s.rejects == old(s.rejects)
                && r == f.outcome
                && State() == After(old(State()), f.next)
    {
      if current == null {
        return Pass;
      }
      var tx := current;
      ghost var s := tx.session;
      if hasError {
        r := Rollback();
        if r.Fail? {
          return;
        }
      } else if tx.ShouldCommit() {
        r := Commit();
        if r.Fail? {
          return;
        }
      }
      if tx.ShouldCommit() {
        r := Close();
        if r.Fail? {
          return;
        }
        current := null;
      } else {
        tx.Exit();
        r := Pass;
      }
    }

    /** `__aexit__`: finish the scope, then raise the translated exception if the body raised one. */
    method Exit(exc: Option<Error>) returns (r: Outcome)
      modifies Footprint()
      ensures old(State()).NoTransaction? ==>
                && State() == NoTransaction
                && r == (if exc.Some? then Fail(HandleException(exc.value)) else Pass)
      ensures old(State()).InTransaction? ==>
                var s := old(State()).session;
                var f := FinalizePlan(old(State()).level, exc.Some?, old(s.isActive), old(s.rejects));
                && s.calls == old(s.calls) + f.calls
                && s.isActive == old(s.isActive) && s.rejects == old(s.rejects)
                && State() == After(old(State()), f.next)
                && r == (if f.outcome.Fail? then f.outcome
                         else if exc.Some? then Fail(HandleException(exc.value)) else Pass)
    {
      r := Finalize(exc.Some?);
      if r.Fail? {
        return;
      }
      if exc.Some? {
        return Fail(HandleException(exc.value));
      }
    }

    /**
     * Entering `get_session`: inside a transaction it yields the current session
     * and changes nothing; otherwise it opens a scope of its own (`owns`).
     */
    method OpenSessionScope() returns (session: Session, owns: bool)
      modifies Footprint()
      ensures owns == old(State()).NoTransaction?
      ensures !owns ==> session == old(State()).session && State() == old(State())
      ensures owns ==> && fresh(session) && State() == InTransaction(session, 0)
                       && session.calls == [] && session.isActive && session.rejects == {}
    {
      if current != null {
        return current.session, false;
      }
      Enter();
      return current.session, true;
    }

    /**
     * Leaving `get_session`: a scope it opened is exited as `__aexit__` does it
     * (commit or roll back, close and reset at the outermost level); otherwise an
     * exception passes through as it is.
     */
    method CloseSessionScope(owns: bool, exc: Option<Error>) returns (r: Outcome)
      modifies Footprint()
      ensures !owns ==> State() == old(State()) && r == (if exc.Some? then Fail(exc.value) else Pass)
      ensures owns && old(State()).NoTransaction? ==>
                && State() == NoTransaction
                && r == (if exc.Some? then Fail(HandleException(exc.value)) else Pass)
      ensures owns && old(State()).InTransaction? ==>
                var s := old(State()).session;
                var f := FinalizePlan(old(State()).level, exc.Some?, old(s.isActive), old(s.rejects));
                && s.calls == old(s.calls) + f.calls
                && s.isActive == old(s.isActive) && s.rejects == old(s.rejects)
                && State() == After(old(State()), f.next)
                && r == (if f.outcome.Fail? then f.outcome
                         else if exc.Some? then Fail(HandleException(exc.value)) else Pass)
    {
      if owns {
        r := Exit(exc);
      } else {
        r := if exc.Some? then Fail(exc.value) else Pass;
      }
    }
  }

  /**
   * `depth + 1` nested scopes that raise nothing, on a session that refuses
   * nothing: the inner exits make no session call, the outermost one commits
   * and closes, and the unit of work is back to having no transaction.
   */
  method NestedScopes(uow: UnitOfWork, depth: nat) returns (session: Session)
    requires uow.State() == NoTransaction
    modifies uow
    ensures uow.State() == NoTransaction
    ensures session.calls == [CommitCall, CloseCall]
  {
    uow.Enter();
    session := uow.current.session;
    var level := 0;
    while level < depth
      invariant 0 <= level <= depth
      invariant uow.State() == InTransaction(session, level)
      invariant fresh(uow.current) && fresh(session)
      invariant session.calls == [] && session.isActive && session.rejects == {}
    {
      uow.Enter();
      level := level + 1;
    }
    while level > 0
      invariant 0 <= level <= depth
      invariant uow.State() == InTransaction(session, level)
      invariant fresh(uow.current) && fresh(session)
      invariant session.calls == [] && session.isActive && session.rejects == {}
    {
      var inner := uow.Exit(None);
      level := level - 1;
    }
    var outer := uow.Exit(None);
  }
}
