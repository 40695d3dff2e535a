/**
 * `IdentityService` (identity/application/services/identity_service.py):
 * creating an identity under a free username, and checking a password.
 */
module IdentityServices {
  import opened Wrappers
  import opened Errors
  import opened Ids
  import opened Identities

  /**
   * The identity repository as the service sees it: identities by username,
   * and the exception a lookup or an insert raises instead of completing, if
   * the database raises one.
   */
  class IdentityStore {
    var identities: map<string, IdentityData>
    var lookupFault: Option<Error>
    var insertFault: Option<Error>

    constructor (identities: map<string, IdentityData>, lookupFault: Option<Error>, insertFault: Option<Error>)
      ensures this.identities == identities && this.lookupFault == lookupFault && this.insertFault == insertFault
    {
      this.identities, this.lookupFault, this.insertFault := identities, lookupFault, insertFault;
    }

    /** An identity is stored under `username`. */
    predicate HasUsername(username: string)
      reads this
    {
      username in identities
    }

    /** `exists_by_username`: whether the name is taken, or the lookup's own exception. */
    function ExistsByUsername(username: string): (r: Result<bool>)
      reads this
      ensures lookupFault.Some? ==> r == Err(lookupFault.value)
      ensures lookupFault.None? ==> r == Ok(HasUsername(username))
    {
      if lookupFault.Some? then Err(lookupFault.value) else Ok(username in identities)
    }

    /**
     * `get_by_username`: the identity, `NotFoundError` when there is none (its
     * message is not part of this model), or the lookup's own exception.
     */
    function GetByUsername(username: string): (r: Result<IdentityData>)
      reads this
      ensures lookupFault.Some? ==> r == Err(lookupFault.value)
      ensures lookupFault.None? && username !in identities ==> r.Err? && r.error.cls == NotFoundError
      ensures lookupFault.None? && username in identities ==> r == Ok(identities[username])
    {
      if lookupFault.Some? then Err(lookupFault.value)
      else if username !in identities then Err(Error(NotFoundError, [], NoDriverError))
      else Ok(identities[username])
    }

    /** `add`: stores the identity under its username, or raises the insert's exception and stores nothing. */
    method Add(identity: IdentityData) returns (r: Outcome)
      modifies this
      ensures lookupFault == old(lookupFault) && insertFault == old(insertFault)
      ensures old(insertFault).Some? ==> r == Fail(old(insertFault).value) && identities == old(identities)
      ensures old(insertFault).None? ==> r == Pass && identities == old(identities)[identity.username.value := identity]
    {
      if insertFault.Some? {
        return Fail(insertFault.value);
      }
      identities := identities[identity.username.value := identity];
      return Pass;
    }
  }

  /** `CreateIdentityCommand` */
  datatype CreateIdentityCommand = CreateIdentityCommand(username: string, password: Option<string>)

  /** `VerifyPasswordCommand` */
  datatype VerifyPasswordCommand = VerifyPasswordCommand(username: string, password: string)

  function UsernameTaken(username: string): Error
  {
    Error(UsernameAlreadyTakenError, [username], NoDriverError)
  }

  /**
   * `create_identity`. A lookup that raises, or a taken username, raises at once. Otherwise the password
   * is hashed, the factory draws the next id and builds the identity, and the
   * identity is inserted once; a duplicate entry at insert time means the
   * username was taken meanwhile, and raises as a taken username too.
   */
  method CreateIdentity(store: IdentityStore, gen: IdGenerator, hash: Option<string> -> string,
                        cmd: CreateIdentityCommand)
    returns (r: Result<Uuid>, next: IdGenerator)
    modifies store
    ensures store.lookupFault == old(store.lookupFault) && store.insertFault == old(store.insertFault)
    ensures old(store.lookupFault).Some? ==>
              r == Err(old(store.lookupFault).value) && next == gen && store.identities == old(store.identities)
    ensures old(store.lookupFault).None? && old(store.HasUsername(cmd.username)) ==>
              r == Err(UsernameTaken(cmd.username)) && next == gen && store.identities == old(store.identities)
    ensures old(store.lookupFault).None? && !old(store.HasUsername(cmd.username)) ==>
              var identity := NewIdentity(gen.Next().0, cmd.username, Some(hash(cmd.password)));
              && next == gen.Next().1
              && (old(store.insertFault).None? ==>
                    r == Ok(identity.identityId)
                    && store.identities == old(store.identities)[cmd.username := identity])
              && (old(store.insertFault).Some? ==>
                    store.identities == old(store.identities)
                    && r == Err(if Is(old(store.insertFault).value, DuplicateEntryError) then UsernameTaken(cmd.username)
                                else old(store.insertFault).value))
  {
    var taken := store.ExistsByUsername(cmd.username);
    if taken.Err? {
      return Err(taken.error), gen;
    }
    if taken.value {
      return Err(UsernameTaken(cmd.username)), gen;
    }
    var passwordHash := hash(cmd.password);
    var (id, after) := gen.Next();
    var identity := NewIdentity(id, cmd.username, Some(passwordHash));
    var added := store.Add(identity);
    next := after;
    if added.Fail? {
      if Is(added.error, DuplicateEntryError) {
        return Err(UsernameTaken(cmd.username)), next;
      }
      return Err(added.error), next;
    }
    r := Ok(identity.identityId);
  }

  /**
   * `verify_password`: a lookup that raises, an unknown username, an identity without a password,
   * or a password the hasher does not match, each raises; otherwise the
   * identity's id is the answer. It reads the store and changes nothing.
   */
  function VerifyPassword(store: IdentityStore, verify: (string, string) -> bool, cmd: VerifyPasswordCommand)
    : (r: Result<Uuid>)
    reads store
    ensures store.lookupFault.Some? ==> r == Err(store.lookupFault.value)
    ensures store.lookupFault.None? && !store.HasUsername(cmd.username) ==>
              r == Err(Error(InvalidUsernameError, [cmd.username], NoDriverError))
    ensures store.lookupFault.None? && store.HasUsername(cmd.username) ==>
              var identity := store.identities[cmd.username];
              && (identity.password.None? ==> r == Err(Error(InvalidPasswordError, [identity.identityId], NoDriverError)))
              && (identity.password.Some? ==>
                    (r.Ok? <==> verify(cmd.password, identity.password.value.value))
                    && (r.Ok? ==> r.value == identity.identityId)
                    && (r.Err? ==> r.error == Error(InvalidPasswordError, [identity.identityId], NoDriverError)))
  {
    match store.ExistsByUsername(cmd.username)
    case Err(e) => Err(e)
    case Ok(known) =>
      if !known then Err(Error(InvalidUsernameError, [cmd.username], NoDriverError))
      else
        // After a lookup that answered, the second lookup cannot raise in this model.
        var identity := store.GetByUsername(cmd.username).value;
        if identity.password.None? then Err(Error(InvalidPasswordError, [identity.identityId], NoDriverError))
        else if !verify(cmd.password, identity.password.value.value) then
          Err(Error(InvalidPasswordError, [identity.identityId], NoDriverError))
        else Ok(identity.identityId)
  }

  /**
   * A password checked right after the identity was created under a free
   * username is accepted exactly when the hasher matches it against the stored
   * hash, provided the hash is not the empty string.
   */
  method CreateThenVerify(store: IdentityStore, gen: IdGenerator, hash: Option<string> -> string,
                          verify: (string, string) -> bool, username: string, password: string)
    returns (created: Result<Uuid>, verified: Result<Uuid>)
    requires !store.HasUsername(username) && store.insertFault.None? && store.lookupFault.None?
    requires hash(Some(password)) != ""
    modifies store
    ensures created.Ok?
    ensures verified.Ok? <==> verify(password, hash(Some(password)))
    ensures verified.Ok? ==> verified.value == created.value
  {
    var next;
    created, next := CreateIdentity(store, gen, hash, CreateIdentityCommand(username, Some(password)));
    verified := VerifyPassword(store, verify, VerifyPasswordCommand(username, password));
  }
}
