/**
 * The token caches an adapter can be bound to and the request-side values the adapters pass
 * around. The structured cache (`TokenCacheV2`) is bound to a storage manager; the legacy
 * cache (`TokenCache`) is a collaborator whose internals are outside this model: its
 * lookups are fixed functions and the calls delegated to it are recorded in order.
 */
module TokenCaches {
  import opened Wrappers
  import opened Text
  import opened Schema
  import opened Storage

  /** The per-request context: its telemetry correlation id and the client id. */
  datatype RequestContext = RequestContext(telemetryRequestId: string, clientId: NStr)

  /** An account as a caller names it: the string form of its home account id, and its environment. */
  datatype AccountRef = AccountRef(homeAccountId: string, environment: string)

  /** The collaborators the legacy cache needs; they carry no state of interest here. */
  class TelemetryManager {}

  class AadInstanceDiscovery {}

  class ValidatedAuthoritiesCache {}

  /** The structured cache: it only remembers the storage manager it was bound to. */
  class TokenCacheV2 {
    var storageManager: StorageManager?

    constructor ()
      ensures storageManager == null
    {
      storageManager := null;
    }

    method BindToStorageManager(storageManager: StorageManager)
      modifies this
      ensures this.storageManager == storageManager
    {
      this.storageManager := storageManager;
    }
  }

  /** A legacy access-token item, as far as the adapter reads it. */
  datatype AccessTokenItem = AccessTokenItem(
    secret: string, environment: string, tenantId: string, homeAccountId: string, clientId: string,
    scopeSet: seq<string>, expiresOn: int, extendedExpiresOn: int)

  datatype RefreshTokenItem = RefreshTokenItem(secret: string)

  /** The key a legacy id-token item is looked up by. */
  datatype IdTokenKey = IdTokenKey(environment: string, tenantId: string, homeAccountId: string, clientId: string)

  datatype IdTokenItem = IdTokenItem(secret: string, homeAccountId: string, environment: string, preferredUsername: string)

  /** A call the legacy adapter forwards to its cache unchanged. */
  datatype DelegatedCall =
    | GetAccounts(authority: string, validateAuthority: bool, context: RequestContext)
    | RemoveAccount(account: AccountRef, context: RequestContext)
    | GetAllAccessTokenCacheItems(context: RequestContext)
    | GetAllAccessTokensForClient(context: RequestContext)
    | GetAllAccounts(context: RequestContext)
    | GetAllAccountCacheItems(context: RequestContext)
    | GetAllIdTokensForClient(context: RequestContext)
    | GetAllIdTokenCacheItems(context: RequestContext)
    | GetAllRefreshTokensForClient(context: RequestContext)
    | GetAllRefreshTokenCacheItems(context: RequestContext)
    | RemoveMsalAccount(account: AccountRef, context: RequestContext)
    | SaveAccessAndRefreshToken(
        validatedAuthoritiesCache: ValidatedAuthoritiesCache, aadInstanceDiscovery: AadInstanceDiscovery,
        parameters: AuthParameters, response: TokenResponse)

  /** The collection a delegated query returns; its content belongs to the legacy cache. */
  type Reply = seq<string>

  /** The legacy cache, seen from the adapter. */
  class TokenCache {
    var clientId: NStr
    var telemetryManager: TelemetryManager?
    var aadInstanceDiscovery: AadInstanceDiscovery?
    /** The delegated calls this cache has received, oldest first. */
    var received: seq<DelegatedCall>
    const accessTokenLookup: AuthParameters -> Option<AccessTokenItem>
    const refreshTokenLookup: AuthParameters -> Option<RefreshTokenItem>
    const idTokenLookup: IdTokenKey -> Option<IdTokenItem>
    const replies: DelegatedCall -> Reply
    const saveReply: (AuthParameters, TokenResponse) -> (AccessTokenItem, IdTokenItem)

    constructor (
      accessTokenLookup: AuthParameters -> Option<AccessTokenItem>,
      refreshTokenLookup: AuthParameters -> Option<RefreshTokenItem>,
      idTokenLookup: IdTokenKey -> Option<IdTokenItem>,
      replies: DelegatedCall -> Reply,
      saveReply: (AuthParameters, TokenResponse) -> (AccessTokenItem, IdTokenItem))
      ensures this.accessTokenLookup == accessTokenLookup && this.refreshTokenLookup == refreshTokenLookup
      ensures this.idTokenLookup == idTokenLookup && this.replies == replies && this.saveReply == saveReply
      ensures clientId == None && telemetryManager == null && aadInstanceDiscovery == null && received == []
    {
      this.accessTokenLookup := accessTokenLookup;
      this.refreshTokenLookup := refreshTokenLookup;
      this.idTokenLookup := idTokenLookup;
      this.replies := replies;
      this.saveReply := saveReply;
      clientId := None;
      telemetryManager := null;
      aadInstanceDiscovery := null;
      received := [];
    }

    /** Receives one delegated call and answers it. */
    method Receive(call: DelegatedCall) returns (reply: Reply)
      modifies this
      ensures received == old(received) + [call]
      ensures reply == replies(call)
      ensures clientId == old(clientId) && telemetryManager == old(telemetryManager)
      ensures aadInstanceDiscovery == old(aadInstanceDiscovery)
    {
      received := received + [call];
      reply := replies(call);
    }
  }

  /** What a caller assigns to an adapter's token-cache property. */
  datatype CacheBinding =
    | NoCache
    | LegacyCache(legacy: TokenCache)
    | StructuredCache(structured: TokenCacheV2)
  {
    function Objects(): set<object> {
      match this
      case NoCache => {}
      case LegacyCache(c) => {c}
      case StructuredCache(c) => {c}
    }
  }
}
