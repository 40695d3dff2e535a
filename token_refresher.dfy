/** `JWTTokenRefresher.refresh_tokens` (auth/infrastructure/services/jwt/token_refresher.py). */
module TokenRefresh {
  import opened Wrappers
  import opened Errors
  import opened Ids

  /** A stored refresh token: whose it is and whether it was revoked. Its expiry test is a parameter. */
  datatype RefreshToken = RefreshToken(identityId: Uuid, revoked: bool)

  /** The token pair the issuer hands out; how it is built is not part of this model. */
  datatype AuthTokens = AuthTokens(accessToken: string, refreshToken: string)

  /** The calls the refresher makes on the revoker and the issuer. */
  datatype TokenCall = RevokeCall(token: string) | IssueCall(identityId: Uuid)

  /** The store after `token` is revoked: its entry, if there is one, is marked revoked. */
  function Revoked(tokens: map<string, RefreshToken>, token: string): (r: map<string, RefreshToken>)
  {
    if token in tokens then tokens[token := tokens[token].(revoked := true)] else tokens
  }

  /** The store after tokens are issued for `identityId`: the new refresh token is stored, not revoked. */
  function Issued(tokens: map<string, RefreshToken>, identityId: Uuid, t: AuthTokens): (r: map<string, RefreshToken>)
  {
    tokens[t.refreshToken := RefreshToken(identityId, false)]
  }

  /**
   * The refresh-token repository, the revoker and the issuer, seen through the
   * calls made on them and the tokens they store.
   */
  class TokenServices {
    var tokens: map<string, RefreshToken>
    var calls: seq<TokenCall>

    constructor (tokens: map<string, RefreshToken>)
      ensures this.tokens == tokens && calls == []
    {
      this.tokens, calls := tokens, [];
    }

    /** `token_revoker.revoke_refresh_token`: the stored token is marked revoked. */
    method Revoke(token: string)
      modifies this
      ensures tokens == Revoked(old(tokens), token) && calls == old(calls) + [RevokeCall(token)]
    {
      if token in tokens {
        tokens := tokens[token := tokens[token].(revoked := true)];
      }
      calls := calls + [RevokeCall(token)];
    }

    /** `token_issuer.issue_tokens`: the issued refresh token is stored for the identity. */
    method Issue(identityId: Uuid, issue: Uuid -> AuthTokens) returns (t: AuthTokens)
      modifies this
      ensures tokens == Issued(old(tokens), identityId, t) && calls == old(calls) + [IssueCall(identityId)]
      ensures t == issue(identityId)
    {
      t := issue(identityId);
      tokens := tokens[t.refreshToken := RefreshToken(identityId, false)];
      calls := calls + [IssueCall(identityId)];
    }
  }

  /**
   * The checks before a refresh: an unknown token, then expiry against the one
   * clock reading, then revocation. The first that applies raises.
   */
  function CheckRefreshToken(tokens: map<string, RefreshToken>, token: string, now: Timestamp,
                             isExpired: (RefreshToken, Timestamp) -> bool): (r: Result<RefreshToken>)
    ensures r.Ok? <==> token in tokens && !isExpired(tokens[token], now) && !tokens[token].revoked
    ensures r.Ok? ==> r.value == tokens[token]
    ensures token !in tokens ==> r == Err(Error(InvalidTokenError, [], NoDriverError))
    ensures token in tokens && isExpired(tokens[token], now) ==> r == Err(Error(TokenExpiredError, [], NoDriverError))
    ensures token in tokens && !isExpired(tokens[token], now) && tokens[token].revoked ==>
              r == Err(Error(TokenRevokedError, [], NoDriverError))
  {
    if token !in tokens then Err(Error(InvalidTokenError, [], NoDriverError))
    else if isExpired(tokens[token], now) then Err(Error(TokenExpiredError, [], NoDriverError))
    else if tokens[token].revoked then Err(Error(TokenRevokedError, [], NoDriverError))
    else Ok(tokens[token])
  }

  /** A token both expired and revoked is reported as expired. */
  lemma {:induction false} ExpiryReportedBeforeRevocation(tokens: map<string, RefreshToken>, token: string, now: Timestamp,
                                                          isExpired: (RefreshToken, Timestamp) -> bool)
    requires token in tokens && tokens[token].revoked && isExpired(tokens[token], now)
    ensures CheckRefreshToken(tokens, token, now, isExpired).error.cls == TokenExpiredError
  {
  }

  /**
   * `refresh_tokens`: after the checks pass, the presented token is revoked and
   * then new tokens are issued for its identity. A failed check revokes and
   * issues nothing.
   */
  method RefreshTokens(services: TokenServices, token: string, now: Timestamp,
                       isExpired: (RefreshToken, Timestamp) -> bool, issue: Uuid -> AuthTokens)
    returns (r: Result<AuthTokens>)
    modifies services
    ensures var check := CheckRefreshToken(old(services.tokens), token, now, isExpired);
            && (check.Err? ==> && r == Err(check.error)
                               && services.tokens == old(services.tokens) && services.calls == old(services.calls))
            && (check.Ok? ==> && r == Ok(issue(check.value.identityId))
                              && services.tokens == Refreshed(old(services.tokens), token, issue(check.value.identityId))
                              && services.calls == old(services.calls)
                                                   + [RevokeCall(token), IssueCall(check.value.identityId)])
  {
    var checked := CheckRefreshToken(services.tokens, token, now, isExpired);
    if checked.Err? {
      return Err(checked.error);
    }
    services.Revoke(token);
    var issued := services.Issue(checked.value.identityId, issue);
    return Ok(issued);
  }

  /** The store after a successful refresh of `token` that issued `t`. */
  function Refreshed(tokens: map<string, RefreshToken>, token: string, t: AuthTokens): (r: map<string, RefreshToken>)
    requires token in tokens
  {
    Issued(Revoked(tokens, token), tokens[token].identityId, t)
  }

  /**
   * A refresh token cannot be used twice: once refreshed, presenting it again
   * is refused as revoked, or as expired if it has expired by then. The issuer
   * is assumed to hand out a different refresh token.
   */
  lemma {:induction false} RefreshedTokenRefused(tokens: map<string, RefreshToken>, token: string, now: Timestamp,
                                                 later: Timestamp, isExpired: (RefreshToken, Timestamp) -> bool,
                                                 t: AuthTokens)
    requires CheckRefreshToken(tokens, token, now, isExpired).Ok?
    requires t.refreshToken != token
    ensures var after := Refreshed(tokens, token, t);
            CheckRefreshToken(after, token, later, isExpired)
              == Err(Error(if isExpired(after[token], later) then TokenExpiredError else TokenRevokedError,
                           [], NoDriverError))
    ensures Refreshed(tokens, token, t)[token] == tokens[token].(revoked := true)
  {
    var revoked := Revoked(tokens, token);
    assert revoked[token].revoked;
    assert Refreshed(tokens, token, t)[token] == revoked[token];
  }

  /** The refresh token handed out by a refresh can itself be refreshed, for the same identity, until it expires. */
  lemma {:induction false} IssuedTokenRefreshable(tokens: map<string, RefreshToken>, token: string, later: Timestamp,
                                                  isExpired: (RefreshToken, Timestamp) -> bool, t: AuthTokens)
    requires token in tokens
    ensures var after := Refreshed(tokens, token, t);
            var issued := RefreshToken(tokens[token].identityId, false);
            CheckRefreshToken(after, t.refreshToken, later, isExpired)
              == if isExpired(issued, later) then Err(Error(TokenExpiredError, [], NoDriverError)) else Ok(issued)
  {
  }

  /** The same token presented twice: a first refresh that succeeds makes the second fail. */
  method RefreshTwice(services: TokenServices, token: string, now: Timestamp, later: Timestamp,
                      isExpired: (RefreshToken, Timestamp) -> bool, issue: Uuid -> AuthTokens)
    returns (first: Result<AuthTokens>, second: Result<AuthTokens>)
    requires forall id :: issue(id).refreshToken != token
    modifies services
    ensures first.Ok? ==> second.Err? && second.error.cls in {TokenExpiredError, TokenRevokedError}
  {
    ghost var before := services.tokens;
    first := RefreshTokens(services, token, now, isExpired, issue);
    if first.Ok? {
      RefreshedTokenRefused(before, token, now, later, isExpired, issue(before[token].identityId));
    }
    second := RefreshTokens(services, token, later, isExpired, issue);
  }
}
