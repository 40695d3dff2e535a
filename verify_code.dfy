/**
 * `VerifyCodeUseCase.execute` (auth/application/usecases/command/verify_code_use_case.py):
 * log in by phone number, creating an identity for an unknown number. The
 * code itself is not checked.
 */
module VerifyCode {
  import opened Wrappers
  import opened Errors
  import opened Ids
  import opened Identities
  import opened IdentityServices
  import opened TokenRefresh

  /** `VerifyCodeCommand` */
  datatype VerifyCodeCommand = VerifyCodeCommand(phoneNumber: string, code: string)

  /**
   * An identity found under the phone number gets tokens. `NotFoundError`, or
   * an instance of a class derived from it, creates one with the number as its
   * username; the command carries no password, so the stored password is
   * whatever the hasher returns for `None`. The new identity then gets tokens,
   * and a failed creation raises its error with no tokens issued. Any other
   * lookup exception propagates; a lookup fault that is itself a `NotFoundError`
   * is raised again by the creation's own lookup.
   */
  method Execute(store: IdentityStore, services: TokenServices, gen: IdGenerator, hash: Option<string> -> string,
                 issue: Uuid -> AuthTokens, cmd: VerifyCodeCommand)
    returns (r: Result<AuthTokens>, next: IdGenerator)
    modifies store, services
    ensures var found := old(store.GetByUsername(cmd.phoneNumber));
            && (found.Ok? ==> && r == Ok(issue(found.value.identityId))
                              && store.identities == old(store.identities) && next == gen
                              && services.tokens == Issued(old(services.tokens), found.value.identityId, r.value)
                              && services.calls == old(services.calls) + [IssueCall(found.value.identityId)])
            && (found.Err? && !Is(found.error, NotFoundError) ==>
                  && r == Err(found.error) && store.identities == old(store.identities) && next == gen
                  && services.tokens == old(services.tokens) && services.calls == old(services.calls))
    ensures var found := old(store.GetByUsername(cmd.phoneNumber));
            found.Err? && Is(found.error, NotFoundError) && old(store.lookupFault).Some? ==>
              && r == Err(old(store.lookupFault).value)
              && store.identities == old(store.identities) && next == gen
              && services.tokens == old(services.tokens) && services.calls == old(services.calls)
    ensures var found := old(store.GetByUsername(cmd.phoneNumber));
            found.Err? && old(store.lookupFault).None? && old(store.insertFault).None? ==>
              var identity := NewIdentity(gen.Next().0, cmd.phoneNumber, Some(hash(None)));
              && r == Ok(issue(identity.identityId))
              && store.identities == old(store.identities)[cmd.phoneNumber := identity]
              && next == gen.Next().1
              && services.tokens == Issued(old(services.tokens), identity.identityId, r.value)
              && services.calls == old(services.calls) + [IssueCall(identity.identityId)]
    ensures var found := old(store.GetByUsername(cmd.phoneNumber));
            found.Err? && old(store.lookupFault).None? && old(store.insertFault).Some? ==>
              var fault := old(store.insertFault).value;
              && r == Err(if Is(fault, DuplicateEntryError) then UsernameTaken(cmd.phoneNumber) else fault)
              && store.identities == old(store.identities) && next == gen.Next().1
              && services.tokens == old(services.tokens) && services.calls == old(services.calls)
  {
    var found := store.GetByUsername(cmd.phoneNumber);
    var identityId: Uuid;
    next := gen;
    if found.Ok? {
      identityId := found.value.identityId;
    } else if Is(found.error, NotFoundError) {
      var created;
      created, next := CreateIdentity(store, gen, hash, CreateIdentityCommand(cmd.phoneNumber, None));
      if created.Err? {
        return Err(created.error), next;
      }
      identityId := created.value;
    } else {
      return Err(found.error), next;
    }
    var tokens := services.Issue(identityId, issue);
    r := Ok(tokens);
  }
}
