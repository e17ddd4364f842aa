/** The client's single-slot access-token cache.
    Time is whole seconds since the epoch; the credential source is an oracle
    from a scope to a token (or the error it raises). Every step returns the
    scopes it asked the credential source for, so "not consulted" is the empty log.
 */
module TokenCache {
  import opened Wrappers

  /** The five-minute safety margin, in seconds. */
  const ExpiryBufferSeconds := 300

  /** A bearer token and the absolute time (seconds) at which it expires. */
  datatype AccessToken = AccessToken(token: string, expiresOn: int)

  /** Whatever the credential source raises when it cannot produce a token. */
  datatype CredentialError = CredentialError(message: string)

  type CredentialSource = string -> Result<AccessToken, CredentialError>

  /** A cached token may be reused only while strictly more than the buffer remains. */
  predicate Usable(t: AccessToken, now: int)
  {
    ExpiryBufferSeconds < t.expiresOn - now
  }

  predicate IsHit(cache: Option<AccessToken>, now: int)
  {
    cache.Some? && Usable(cache.value, now)
  }

  /** Outcome of one token request: the token string (or the raised error),
      the cache slot afterwards, and the scopes passed to the credential source. */
  datatype TokenStep = TokenStep(token: Result<string, CredentialError>,
                                 cache: Option<AccessToken>,
                                 calls: seq<string>)

  /** Returns the cached token while it is usable; otherwise acquires a new one
      and replaces the whole slot with it. A failed acquisition leaves the slot alone. */
  function GetAccessToken(cache: Option<AccessToken>, now: int, scope: string,
                          credential: CredentialSource): (r: TokenStep)
    // cache hit: the cached token, untouched slot, no credential call
    ensures IsHit(cache, now) ==> r == TokenStep(Success(cache.value.token), cache, [])
    // the credential source is consulted exactly when the slot is empty or near expiry,
    // and then exactly once, for the configured scope
    ensures r.calls == [] <==> IsHit(cache, now)
    ensures r.calls != [] ==> r.calls == [scope]
    // corollary: an expiry exactly at the buffer (or closer) is already a miss
    ensures cache.Some? && cache.value.expiresOn - now <= ExpiryBufferSeconds ==> r.calls == [scope]
    // refresh: the slot becomes the credential source's answer, token and expiry together
    ensures !IsHit(cache, now) && credential(scope).Success? ==>
              r.cache == Some(credential(scope).value)
    // a failed refresh propagates the error and stores nothing
    ensures !IsHit(cache, now) && credential(scope).Failure? ==>
              r.token == Failure(credential(scope).error) && r.cache == cache
    // whatever is returned is the token now held in the slot
    ensures r.token.Success? <==> r.cache.Some? && (IsHit(cache, now) || credential(scope).Success?)
    ensures r.token.Success? ==> r.token.value == r.cache.value.token
  {
    if IsHit(cache, now) then
      TokenStep(Success(cache.value.token), cache, [])
    else
      match credential(scope)
      case Success(acquired) => TokenStep(Success(acquired.token), Some(acquired), [scope])
      case Failure(e) => TokenStep(Failure(e), cache, [scope])
  }

  /** A refresh does not re-check the acquired token: it is stored and returned
      even when it already lies within the buffer, so the next call misses again. */
  lemma RefreshKeepsNearExpiryToken(cache: Option<AccessToken>, now: int, scope: string,
                                    credential: CredentialSource, t: AccessToken)
    requires !IsHit(cache, now)
    requires credential(scope) == Success(t) && !Usable(t, now)
    ensures GetAccessToken(cache, now, scope, credential).token == Success(t.token)
    ensures GetAccessToken(cache, now, scope, credential).cache == Some(t)
    ensures !IsHit(GetAccessToken(cache, now, scope, credential).cache, now)
  {
  }
}
