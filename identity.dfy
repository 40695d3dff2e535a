/** The `Identity` entity (identity/domain/entity/identity.py), with its username and password wrappers. */
module Identities {
  import opened Wrappers
  import opened Ids

  /** `Username`: its checks are not part of this model, so it wraps any string. */
  datatype Username = Username(value: string)

  /** `Password` (a password hash): its checks are not part of this model, so it wraps any string. */
  datatype Password = Password(value: string)

  datatype IdentityData = IdentityData(identityId: Uuid, username: Username, password: Option<Password>) {

    /** What `Identity.create` guarantees: a stored password is never the empty string. */
    predicate Valid()
    {
      password.Some? ==> password.value.value != ""
    }
  }

  /** `Password(p) if p else None`: the empty string and `None` both mean no password. */
  function PasswordIfGiven(p: Option<string>): (r: Option<Password>)
    ensures r.None? <==> p.None? || p.value == ""
    ensures r.Some? ==> r.value.value == p.value
  {
    if p.None? || p.value == "" then None else Some(Password(p.value))
  }

  /** `Identity.create`: the identity holds the id and username given, and a password only if one is non-empty. */
  function NewIdentity(identityId: Uuid, username: string, password: Option<string>): (r: IdentityData)
    ensures r.Valid()
    ensures r.identityId == identityId && r.username.value == username
    ensures r.password.None? <==> password.None? || password.value == ""
  {
    IdentityData(identityId, Username(username), PasswordIfGiven(password))
  }
}
