/**
 * The adapter that serves the request pipeline from the legacy token cache. It holds the
 * collaborators it injects into the cache it is bound to; every query goes to that cache
 * when there is one, and yields nothing when there is none.
 */
module V1Adapter {
  import opened Wrappers
  import opened Text
  import opened Schema
  import opened TokenCaches

  const WrongCacheType := "V1TokenCacheAdapter interacts directly with TokenCache instance types only"

  /** The token response a legacy read assembles; expiry durations are not part of this model. */
  datatype LegacyTokenResponse = LegacyTokenResponse(
    accessToken: Option<string>, scope: Option<string>, idToken: Option<string>, refreshToken: Option<string>)

  /** The account a legacy read returns: home account id, username and environment. */
  datatype LegacyAccount = LegacyAccount(homeAccountId: string, username: string, environment: string)

  /** A save's result: from the request alone when unbound, from the cache's items when bound. */
  datatype AuthenticationResult =
    | FromRequest(parameters: AuthParameters, response: TokenResponse)
    | FromCacheItems(accessTokenItem: AccessTokenItem, idTokenItem: IdTokenItem)

  /** The id-token key of an access-token item: its environment, tenant, home account and client. */
  function IdTokenKeyOf(item: AccessTokenItem): IdTokenKey {
    IdTokenKey(item.environment, item.tenantId, item.homeAccountId, item.clientId)
  }

  class V1TokenCacheAdapter {
    const telemetryManager: TelemetryManager
    const aadInstanceDiscovery: AadInstanceDiscovery
    const validatedAuthoritiesCache: ValidatedAuthoritiesCache
    const clientId: NStr
    var tokenCache: TokenCache?

    constructor (
      telemetryManager: TelemetryManager, aadInstanceDiscovery: AadInstanceDiscovery,
      validatedAuthoritiesCache: ValidatedAuthoritiesCache, clientId: NStr)
      ensures this.telemetryManager == telemetryManager && this.aadInstanceDiscovery == aadInstanceDiscovery
      ensures this.validatedAuthoritiesCache == validatedAuthoritiesCache && this.clientId == clientId
      ensures tokenCache == null
    {
      this.telemetryManager := telemetryManager;
      this.aadInstanceDiscovery := aadInstanceDiscovery;
      this.validatedAuthoritiesCache := validatedAuthoritiesCache;
      this.clientId := clientId;
      tokenCache := null;
    }

    /** The token-cache property as read: the last legacy cache assigned, never a structured one. */
    function TokenCache(): (r: CacheBinding)
      reads this
      ensures !r.StructuredCache?
      ensures r.NoCache? <==> tokenCache == null
      ensures r.LegacyCache? ==> r.legacy == tokenCache
    {
      if tokenCache == null then NoCache else LegacyCache(tokenCache)
    }

    /**
     * The token-cache property as assigned: a structured cache is refused before anything is
     * assigned; a legacy cache is stored and receives this adapter's client id, telemetry and
     * instance discovery; no cache unbinds without touching any cache.
     */
    method SetTokenCache(value: CacheBinding) returns (r: Result<(), CacheException>)
      modifies this, value.Objects()
      ensures value.StructuredCache? ==> r == Err(InvalidOperationException(WrongCacheType)) && tokenCache == old(tokenCache)
      ensures value.StructuredCache? ==> unchanged(this) && unchanged(value.structured)
      ensures !value.StructuredCache? ==> r == Ok(()) && TokenCache() == value
      ensures value.LegacyCache? ==>
                && value.legacy.clientId == clientId
                && value.legacy.telemetryManager == telemetryManager
                && value.legacy.aadInstanceDiscovery == aadInstanceDiscovery
                && value.legacy.received == old(value.legacy.received)
    {
      match value {
        case StructuredCache(_) =>
          return Err(InvalidOperationException(WrongCacheType));
        case NoCache =>
          tokenCache := null;
        case LegacyCache(c) =>
          tokenCache := c;
          c.clientId := clientId;
          c.telemetryManager := telemetryManager;
          c.aadInstanceDiscovery := aadInstanceDiscovery;
      }
      r := Ok(());
    }

    /** The bound cache's access token for the request, or null when unbound. */
    function FindAccessToken(parameters: AuthParameters): (r: Option<AccessTokenItem>)
      reads this
      ensures tokenCache == null ==> r.None?
      ensures tokenCache != null ==> r == tokenCache.accessTokenLookup(parameters)
    {
      if tokenCache == null then None else tokenCache.accessTokenLookup(parameters)
    }

    /** The bound cache's refresh token for the request, or null when unbound. */
    function FindRefreshToken(parameters: AuthParameters): (r: Option<RefreshTokenItem>)
      reads this
      ensures tokenCache == null ==> r.None?
      ensures tokenCache != null ==> r == tokenCache.refreshTokenLookup(parameters)
    {
      if tokenCache == null then None else tokenCache.refreshTokenLookup(parameters)
    }

    /** The bound cache's id-token item for the key, or null when unbound. */
    function GetIdTokenCacheItem(key: IdTokenKey): (r: Option<IdTokenItem>)
      reads this
      ensures tokenCache == null ==> r.None?
      ensures tokenCache != null ==> r == tokenCache.idTokenLookup(key)
    {
      if tokenCache == null then None else tokenCache.idTokenLookup(key)
    }

    /**
     * A legacy read. It finds something exactly when an access token or a refresh token is
     * found; a refresh token found is always returned, even beside an access token; an access
     * token brings its scopes, the id token stored for it, and the account that id token names.
     * The id-token item is used without a null check, so it must exist when an access token does.
     */
    method TryReadCache(parameters: AuthParameters, joinScopes: seq<string> -> string)
      returns (found: bool, response: Option<LegacyTokenResponse>, account: Option<LegacyAccount>)
      requires FindAccessToken(parameters).Some? ==> GetIdTokenCacheItem(IdTokenKeyOf(FindAccessToken(parameters).value)).Some?
      ensures found <==> FindAccessToken(parameters).Some? || FindRefreshToken(parameters).Some?
      ensures found <==> response.Some?
      ensures account.Some? ==> FindAccessToken(parameters).Some?
      ensures found ==>
                response.value.refreshToken == (if FindRefreshToken(parameters).Some? then Some(FindRefreshToken(parameters).value.secret) else None)
      ensures found && FindAccessToken(parameters).None? ==>
                response.value.accessToken.None? && response.value.scope.None? && response.value.idToken.None?
      ensures FindAccessToken(parameters).Some? ==>
                var at := FindAccessToken(parameters).value;
                var id := GetIdTokenCacheItem(IdTokenKeyOf(at)).value;
                && response.value.accessToken == Some(at.secret)
                && response.value.scope == Some(joinScopes(at.scopeSet))
                && response.value.idToken == Some(id.secret)
                && account == Some(LegacyAccount(id.homeAccountId, id.preferredUsername, id.environment))
    {
      response := None;
      account := None;

      var atItem := FindAccessToken(parameters);
      var rtItem := FindRefreshToken(parameters);
      if atItem.None? && rtItem.None? {
        return false, None, None;
      }

      var tokenResponse := LegacyTokenResponse(None, None, None, None);
      if atItem.Some? {
        tokenResponse := tokenResponse.(accessToken := Some(atItem.value.secret));
        tokenResponse := tokenResponse.(scope := Some(joinScopes(atItem.value.scopeSet)));
        var idTokenItem := GetIdTokenCacheItem(IdTokenKeyOf(atItem.value)).value;
        tokenResponse := tokenResponse.(idToken := Some(idTokenItem.secret));
        account := Some(LegacyAccount(idTokenItem.homeAccountId, idTokenItem.preferredUsername, idTokenItem.environment));
      }
      if rtItem.Some? {
        tokenResponse := tokenResponse.(refreshToken := Some(rtItem.value.secret));
      }
      response := Some(tokenResponse);
      found := true;
    }

    /** Unbound: a result built from the request, nothing saved. Bound: the save goes to the cache. */
    method SaveAccessAndRefreshToken(parameters: AuthParameters, response: TokenResponse) returns (result: AuthenticationResult)
      modifies if tokenCache == null then {} else {tokenCache}
      ensures tokenCache == old(tokenCache)
      ensures old(tokenCache) == null ==> result == FromRequest(parameters, response)
      ensures old(tokenCache) != null ==>
                && tokenCache.clientId == old(tokenCache.clientId)
                && tokenCache.telemetryManager == old(tokenCache.telemetryManager)
                && tokenCache.aadInstanceDiscovery == old(tokenCache.aadInstanceDiscovery)
      ensures old(tokenCache) != null ==>
                && result == FromCacheItems(tokenCache.saveReply(parameters, response).0, tokenCache.saveReply(parameters, response).1)
                && tokenCache.received == old(tokenCache.received) + [DelegatedCall.SaveAccessAndRefreshToken(validatedAuthoritiesCache, aadInstanceDiscovery, parameters, response)]
    {
      if tokenCache == null {
        return FromRequest(parameters, response);
      }
      var _ := tokenCache.Receive(DelegatedCall.SaveAccessAndRefreshToken(validatedAuthoritiesCache, aadInstanceDiscovery, parameters, response));
      var items := tokenCache.saveReply(parameters, response);
      result := FromCacheItems(items.0, items.1);
    }

    /**
     * The null-safe delegation every other operation shares: with no cache bound it answers
     * null and nothing happens; with one bound the call is forwarded unchanged and its reply
     * returned.
     */
    method Delegate(call: DelegatedCall) returns (reply: Option<Reply>)
      modifies if tokenCache == null then {} else {tokenCache}
      ensures tokenCache == old(tokenCache)
      ensures old(tokenCache) == null ==> reply.None?
      ensures old(tokenCache) != null ==>
                && tokenCache.clientId == old(tokenCache.clientId)
                && tokenCache.telemetryManager == old(tokenCache.telemetryManager)
                && tokenCache.aadInstanceDiscovery == old(tokenCache.aadInstanceDiscovery)
      ensures old(tokenCache) != null ==>
                && reply == Some(tokenCache.replies(call))
                && tokenCache.received == old(tokenCache.received) + [call]
    {
      if tokenCache == null {
        return None;
      }
      var answer := tokenCache.Receive(call);
      reply := Some(answer);
    }
  }
}
