/** `IdentityMapper` (identity/infrastructure/database/postgres/sqlalchemy/mappers/identity_mapper.py). */
module IdentityMapping {
  import opened Wrappers
  import opened Ids
  import opened Identities

  /** An `identities` row; the password column is nullable. */
  datatype IdentityRow = IdentityRow(identityId: Uuid, username: string, password: Option<string>)

  /** `to_domain`: a NULL or empty password column loads as no password. */
  function IdentityToDomain(row: IdentityRow): (i: IdentityData)
    ensures i.Valid()
    ensures i.identityId == row.identityId && i.username.value == row.username
    ensures i.password.None? <==> row.password.None? || row.password.value == ""
    ensures i.password.Some? ==> i.password.value.value == row.password.value
  {
    IdentityData(row.identityId, Username(row.username), PasswordIfGiven(row.password))
  }

  /** `to_persistence`: no password is written as NULL, any password as its string. */
  function IdentityToPersistence(i: IdentityData): (row: IdentityRow)
    ensures row.identityId == i.identityId && row.username == i.username.value
    ensures row.password.None? <==> i.password.None?
    ensures row.password.Some? ==> row.password.value == i.password.value.value
  {
    IdentityRow(i.identityId, i.username.value, if i.password.Some? then Some(i.password.value.value) else None)
  }

  /** Saving an identity and loading it back gives the same identity. */
  lemma {:induction false} IdentityDomainRowDomain(i: IdentityData)
    requires i.Valid()
    ensures IdentityToDomain(IdentityToPersistence(i)) == i
  {
  }

  /** Loading a row and saving it again gives the same row, unless its password column held the empty string. */
  lemma {:induction false} IdentityRowDomainRow(row: IdentityRow)
    ensures row.password != Some("") ==> IdentityToPersistence(IdentityToDomain(row)) == row
    ensures row.password == Some("") ==> IdentityToPersistence(IdentityToDomain(row)).password.None?
  {
  }
}
