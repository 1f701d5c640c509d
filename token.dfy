/**
 * The instance identity token cache (`idToken` and IDToken): the cached
 * token, its expiry, and the refresh rule.
 *
 * Times are nanoseconds since the Unix epoch. The identity request and
 * jws.Decode are parameters: `response` is what the metadata server returns
 * for the token path, and `claims` decodes a token into its exp claim, in
 * seconds.
 */
module TokenCache {
  import opened Common
  import opened ConfigModel

  const SecondNanos := 1_000_000_000
  const TenMinutesNanos := 600 * SecondNanos

  /** The identity request: the token text, or the transport error. */
  datatype TokenResponse = TokenResponse(data: string, err: Option<TransportError>)

  /** jws.Decode: the exp claim of a token, or why the token could not be read. */
  datatype ClaimSet = Claims(exp: int) | ClaimsFailed(reason: string)

  /**
   * A cached token is refreshed when there is no expiry yet, or when `now`
   * is strictly after ten minutes before the expiry.
   */
  predicate NeedsRefresh(exp: Option<int>, now: int) {
    exp.None? || now > exp.value - TenMinutesNanos
  }

  /** The cache. */
  class IdToken {
    var raw: string
    var exp: Option<int>

    /** The zero value `idToken{}`: no token, no expiry. */
    constructor ()
      ensures raw == "" && exp.None?
    {
      raw := "";
      exp := None;
    }

    /**
     * idToken.get: request a token and read its exp claim. A failed request
     * or decode changes nothing; a success stores the token and its expiry.
     */
    method Get(response: TokenResponse, claims: string -> ClaimSet) returns (err: Option<Error>)
      modifies this
      ensures response.err.Some? ==>
                err == Some(TokenFetch(response.err.value)) && raw == old(raw) && exp == old(exp)
      ensures response.err.None? && claims(response.data).ClaimsFailed? ==>
                err == Some(Decode(claims(response.data).reason)) && raw == old(raw) && exp == old(exp)
      ensures response.err.None? && claims(response.data).Claims? ==>
                err.None? && raw == response.data && exp == Some(claims(response.data).exp * SecondNanos)
    {
      if response.err.Some? {
        return Some(TokenFetch(response.err.value));
      }
      var cs := claims(response.data);
      if cs.ClaimsFailed? {
        return Some(Decode(cs.reason));
      }
      raw := response.data;
      exp := Some(cs.exp * SecondNanos);
      return None;
    }

    /**
     * IDToken: the cached token while it is fresh; otherwise a refresh, and
     * on failure the empty token with the error.
     */
    method IDToken(now: int, response: TokenResponse, claims: string -> ClaimSet)
      returns (token: string, err: Option<Error>)
      modifies this
      ensures !NeedsRefresh(old(exp), now) ==>
                token == old(raw) && err.None? && raw == old(raw) && exp == old(exp)
      ensures NeedsRefresh(old(exp), now) && response.err.Some? ==>
                token == "" && err == Some(TokenFetch(response.err.value)) && raw == old(raw) && exp == old(exp)
      ensures NeedsRefresh(old(exp), now) && response.err.None? && claims(response.data).ClaimsFailed? ==>
                token == "" && err == Some(Decode(claims(response.data).reason))
                && raw == old(raw) && exp == old(exp)
      ensures NeedsRefresh(old(exp), now) && response.err.None? && claims(response.data).Claims? ==>
                token == response.data && err.None?
                && raw == response.data && exp == Some(claims(response.data).exp * SecondNanos)
    {
      if NeedsRefresh(exp, now) {
        err := Get(response, claims);
        if err.Some? {
          return "", err;
        }
      }
      return raw, None;
    }
  }

  /** The boundary is strict: exactly ten minutes before expiry the token is still used. */
  lemma RefreshBoundary(e: int)
    ensures !NeedsRefresh(Some(e), e - TenMinutesNanos)
    ensures NeedsRefresh(Some(e), e - TenMinutesNanos + 1)
  {
  }

  /** Whether a refresh is due is monotone in time: once due, it stays due. */
  lemma NeedsRefreshMonotone(exp: Option<int>, now: int, later: int)
    requires now <= later && NeedsRefresh(exp, now)
    ensures NeedsRefresh(exp, later)
  {
  }

  /**
   * A token whose expiry claim is `claimSeconds` is served from the cache at
   * every instant up to ten minutes before that claim.
   */
  lemma FreshTokenIsCached(claimSeconds: int, later: int)
    requires later <= claimSeconds * SecondNanos - TenMinutesNanos
    ensures !NeedsRefresh(Some(claimSeconds * SecondNanos), later)
  {
  }
}
