/**
 * The adapter that serves the request pipeline from the structured cache. It holds a storage
 * manager and an optional `TokenCacheV2` binding; reads and writes go through a fresh cache
 * manager over that storage manager.
 */
module V2Adapter {
  import opened Wrappers
  import opened Schema
  import opened Worker
  import opened Storage
  import opened Cache
  import opened TokenCaches

  const WrongCacheType := "V2TokenCacheAdapter interacts directly with TokenCacheV2 instance types only"

  /** The result handed back to the request pipeline after a save. */
  datatype AuthenticationResult = AuthenticationResult(parameters: AuthParameters, response: TokenResponse, account: Option<Account>)

  /** The adapter operations that are declared but unsupported. */
  datatype UnsupportedOperation =
    | GetAccounts | FindAccessToken | GetIdTokenCacheItem | FindRefreshToken
    | GetAllAccessTokensForClient | GetAllAccountCacheItems | GetAllIdTokensForClient
    | GetAllIdTokenCacheItems | GetAllRefreshTokensForClient | GetAllRefreshTokenCacheItems

  class V2TokenCacheAdapter {
    const storageManager: StorageManager
    var tokenCache: TokenCacheV2?

    constructor (storageManager: StorageManager)
      ensures this.storageManager == storageManager && tokenCache == null
    {
      this.storageManager := storageManager;
      tokenCache := null;
    }

    /** The token-cache property as read: the last structured cache assigned, never a legacy one. */
    function TokenCache(): (r: CacheBinding)
      reads this
      ensures !r.LegacyCache?
      ensures r.NoCache? <==> tokenCache == null
      ensures r.StructuredCache? ==> r.structured == tokenCache
    {
      if tokenCache == null then NoCache else StructuredCache(tokenCache)
    }

    /**
     * The token-cache property as assigned: a legacy cache is refused before anything is
     * assigned; a structured cache is stored and bound to this adapter's storage manager;
     * no cache unbinds.
     */
    method SetTokenCache(value: CacheBinding) returns (r: Result<(), CacheException>)
      modifies this, value.Objects()
      ensures value.LegacyCache? ==> r == Err(InvalidOperationException(WrongCacheType)) && tokenCache == old(tokenCache)
      ensures value.LegacyCache? ==> unchanged(this) && unchanged(value.legacy)
      ensures !value.LegacyCache? ==> r == Ok(()) && TokenCache() == value
      ensures value.StructuredCache? ==> value.structured.storageManager == storageManager
    {
      match value {
        case LegacyCache(_) =>
          return Err(InvalidOperationException(WrongCacheType));
        case NoCache =>
          tokenCache := null;
        case StructuredCache(c) =>
          tokenCache := c;
          c.BindToStorageManager(storageManager);
      }
      r := Ok(());
    }

    /** Deletes by the caller's home account id under placeholder environment and realm values. */
    method RemoveAccount(account: AccountRef, context: RequestContext, fault: Fault)
      modifies storageManager.worker
      ensures storageManager.worker.Snapshot() ==
                if fault.Some? then old(storageManager.worker.Snapshot())
                else old(storageManager.worker.Snapshot()).(accounts :=
                       RemoveAccounts(old(storageManager.worker.accounts), AccountQuery(Some(account.homeAccountId), "environment", Some("realm"))))
      // the placeholders mean that no account stored under a real environment is ever removed
      ensures forall a :: a in old(storageManager.worker.accounts) && a.environment != "environment" ==>
                a in storageManager.worker.accounts
      ensures storageManager.worker.credentials == old(storageManager.worker.credentials)
    {
      var status := storageManager.DeleteAccount(context.telemetryRequestId, Some(account.homeAccountId), "environment", "realm", fault);
    }

    method SaveAccessAndRefreshToken(
      parameters: AuthParameters, response: TokenResponse, joinScopes: seq<string> -> string,
      nowTicks: int, nowSeconds: int, faults: WriteFaults)
      returns (result: AuthenticationResult)
      modifies storageManager.worker
      ensures var w := WriteCache(parameters, response, joinScopes(response.grantedScopes), nowTicks, nowSeconds,
                                  old(storageManager.worker.Snapshot()), faults);
              && result == AuthenticationResult(parameters, response, w.account)
              && storageManager.worker.Snapshot() == w.store
    {
      var cacheManager := new CacheManager(storageManager, parameters);
      var account := cacheManager.CacheTokenResponse(response, joinScopes, nowTicks, nowSeconds, faults);
      result := AuthenticationResult(parameters, response, account);
    }

    method TryReadCache(parameters: AuthParameters, now: int, faults: ReadFaults)
      returns (found: bool, tokens: Option<CachedTokens>, account: Option<Account>)
      modifies storageManager.worker
      ensures var r := ReadCache(parameters, old(storageManager.worker.Snapshot()), now, faults);
              && ReadOutcome(found, tokens, account) == r.outcome
              && storageManager.worker.Snapshot() == r.store
    {
      var cacheManager := new CacheManager(storageManager, parameters);
      found, tokens, account := cacheManager.TryReadCache(now, faults);
    }

    /** Every declared but unsupported operation raises NotImplementedException and changes nothing. */
    method Unsupported(operation: UnsupportedOperation) returns (r: Result<(), CacheException>)
      ensures r == Err(NotImplementedException)
    {
      r := Err(NotImplementedException);
    }

    /** Issues a read of every access token of the context's client, then raises NotImplementedException. */
    method GetAllAccessTokenCacheItems(context: RequestContext, fault: Fault) returns (r: Result<seq<string>, CacheException>)
      ensures r == Err(NotImplementedException)
    {
      var _ := storageManager.ReadCredentials(context.telemetryRequestId, Some(""), "", "", context.clientId, "", "", {AccessToken}, fault);
      r := Err(NotImplementedException);
    }

    /** Asks the storage manager for every account, which raises NotImplementedException. */
    method GetAllAccounts(context: RequestContext) returns (r: Result<seq<Account>, CacheException>)
      ensures r == Err(NotImplementedException)
    {
      var all := storageManager.ReadAllAccounts(context.telemetryRequestId);
      r := match all
           case Ok(_) => Err(NotImplementedException)
           case Err(e) => Err(e);
    }

    method RemoveMsalAccount(user: AccountRef, context: RequestContext, fault: Fault)
      modifies storageManager.worker
      ensures storageManager.worker.Snapshot() ==
                if fault.Some? then old(storageManager.worker.Snapshot())
                else old(storageManager.worker.Snapshot()).(accounts :=
                       RemoveAccounts(old(storageManager.worker.accounts), AccountQuery(Some(user.homeAccountId), user.environment, Some(""))))
      // only an account stored with an empty realm can be removed
      ensures forall a :: a in old(storageManager.worker.accounts) && a.realm != "" ==> a in storageManager.worker.accounts
      ensures storageManager.worker.credentials == old(storageManager.worker.credentials)
    {
      var status := storageManager.DeleteAccount(context.telemetryRequestId, Some(user.homeAccountId), user.environment, "", fault);
    }
  }
}
