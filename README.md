# Structured credential cache — a Dafny model

This project models the structured ("CacheV2") credential cache of an identity client
library and proves properties of it. The cache has three layers:

- **The cache manager** (`Cache.CacheManager`). It serves one request.
  - `TryReadCache` builds a key from the request: account id, environment, realm, client id,
    and the requested scopes joined by single spaces. It refuses a key with any blank part and
    reads access, refresh and id tokens under it, keeping the last one of each type.
  - An access token that is no longer valid is deleted (self-healing) and treated as absent.
  - A valid access token suppresses the refresh token. Only with an access token is the
    account looked up.
  - `CacheTokenResponse` derives the home account id from the response. It then writes one
    batch: a refresh token, an access token only if it is valid, and an id token only if one
    was parsed. Last it writes the account and returns it.
  - `DeleteCachedRefreshToken` deletes the refresh tokens of the account and client.
- **The storage manager** (`Storage.StorageManager`). It is the exception boundary around the
  storage worker. A call that does not raise returns a Success status and the worker's result
  unchanged. A call that raises returns a fixed Failure status carrying the message.
  Whole-cache export and import and reading every account are unsupported. The legacy cache
  manager is held but never called.
- **The token-cache adapters** (`V2Adapter`, `V1Adapter`). They connect the request pipeline to
  either the structured cache or the legacy `TokenCache`.
  - Each holds an optional binding with a type-checked setter.
  - The structured adapter reads and writes through a fresh cache manager.
  - The legacy adapter forwards to its bound cache, or answers null when none is bound. Its
    read keeps the refresh token even beside an access token, unlike the structured read.

Each imperative operation is a method on a class that holds the state the source mutates: the
worker's store, an adapter's binding, the bound cache's fields. Each method is proved against a
function of the old state: `ReadCache`, `WriteCache`, `DeleteRefreshToken`, and the worker's
`Query`, `RemoveMatching`, `WriteAll` and `PutAccount`. The properties are proved about those
functions. A storage call that may raise takes a `Fault` parameter: `Some(message)` means the
worker raises.

Two behaviours of the code are kept as written:

- **Mixed time units.** Validity compares against seconds since the epoch. The write path
  stamps `cachedAt`, `expiresOn` and `extendedExpiresOn` in clock ticks
  (`core/src/CacheV2/CacheManager.cs:187`, `:203-204`). The model takes both clocks as
  integer parameters (`nowTicks`, `nowSeconds`).
  `CacheProperties.TickStampedAccessTokenIsNeverWritten` proves the consequence: when the tick
  count exceeds the second count, the new access token is "living in the future". It fails
  validity and is never written. The round trip `CacheProperties.WriteThenRead` therefore
  assumes clock values under which the token is valid.
- **The returned account.** The comment at `core/src/CacheV2/CacheManager.cs:243` says an empty
  id token gives a null account. The code builds and returns the account whenever the key is
  complete, whatever either write status was. `Cache.WriteCache` states the code's behaviour.

## Model

| member | source | states |
|---|---|---|
| Text.JoinWithSpaceBlank | core/src/CacheV2/CacheManager.cs:32-35 | the space-joined target is blank exactly when every requested scope is blank (an empty scope list joins to "") |
| Text.Split | core/src/CacheV2/CacheManager.cs:342 | splitting a path on '/' yields at least one segment and no segment contains '/' |
| Text.SplitJoinRoundTrip | core/src/CacheV2/CacheManager.cs:342 | joining the segments back with '/' restores the path, so the split loses nothing |
| Schema.CreateSuccess | core/src/CacheV2/Impl/StorageManager.cs:47-63 | the status of a call that did not raise is a Success status |
| Worker.RemoveAbsentIsIdentity | core/src/CacheV2/Impl/StorageManager.cs:92-121 | deleting credentials that are not stored leaves the store as it was (and the call still reports Success) |
| Worker.RemoveMatchingIdempotent | core/src/CacheV2/Impl/StorageManager.cs:92-121 | repeating a credential delete changes nothing more |
| Storage.HandleException | core/src/CacheV2/Impl/StorageManager.cs:254-270 | a raised fault becomes a Failure status with code -1, platform code -1, empty platform domain and the fault's message |
| Storage.StatusFor | core/src/CacheV2/Impl/StorageManager.cs:72-90 | a wrapped call reports Success exactly when the worker does not raise, and otherwise the fixed Failure status |
| Storage.StorageManager.Serialize | core/src/CacheV2/Impl/StorageManager.cs:26-29 | whole-cache export always raises NotImplementedException |
| Storage.StorageManager.Deserialize | core/src/CacheV2/Impl/StorageManager.cs:32-35 | whole-cache import always raises NotImplementedException |
| Storage.StorageManager.ReadCredentials | core/src/CacheV2/Impl/StorageManager.cs:37-70 | returns exactly the worker's matches for the seven key arguments and the type set with Success, or no credentials with the Failure status when the worker raises |
| Storage.StorageManager.WriteCredentials | core/src/CacheV2/Impl/StorageManager.cs:72-90 | hands the batch to the worker unchanged; a fault leaves the store as it was; the legacy store is never touched |
| Storage.StorageManager.DeleteCredentials | core/src/CacheV2/Impl/StorageManager.cs:92-121 | forwards the key and types unchanged; the store afterwards lacks exactly the matching credentials, or is unchanged on a fault |
| Storage.StorageManager.ReadAllAccounts | core/src/CacheV2/Impl/StorageManager.cs:123-127 | reading every account always raises NotImplementedException |
| Storage.StorageManager.ReadAccount | core/src/CacheV2/Impl/StorageManager.cs:129-151 | returns the worker's answer for (home account id, environment, realm), which may be null, with Success; a null account with Failure on a fault |
| Storage.StorageManager.WriteAccount | core/src/CacheV2/Impl/StorageManager.cs:153-167 | hands the account to the worker unchanged, after which it is the one found under its own key |
| Storage.StorageManager.DeleteAccount | core/src/CacheV2/Impl/StorageManager.cs:169-190 | removes the accounts under (home account id, environment, realm), or nothing on a fault |
| Storage.StorageManager.DeleteAccounts | core/src/CacheV2/Impl/StorageManager.cs:192-206 | removes the accounts of (home account id, environment) in every realm, or nothing on a fault |
| Storage.StorageManager.ReadAppMetadata | core/src/CacheV2/Impl/StorageManager.cs:208-222 | returns the worker's record, or null when the worker raises |
| Storage.StorageManager.WriteAppMetadata | core/src/CacheV2/Impl/StorageManager.cs:224-237 | writes the record; a fault is swallowed and leaves the store unchanged |
| CacheRules.IsAccessTokenValid | core/src/CacheV2/CacheManager.cs:376-393 | valid exactly when cachedAt <= now and expiresOn > now + 300; the boundary expiresOn == now + 300 is invalid |
| CacheRules.ValidityIsAnInterval | core/src/CacheV2/CacheManager.cs:376-393 | the instants at which a token is valid form an interval |
| CacheRules.GetHomeAccountId | core/src/CacheV2/CacheManager.cs:353-374 | precedence: "uid.utid" when both are usable, else a usable UPN, else a usable email, else the subject even if blank; `HomeAccountIdUnusable` states when the result is usable, which is what the callers' key checks rely on |
| CacheRules.HomeAccountIdUnusable | core/src/CacheV2/CacheManager.cs:353-374 | the derived home account id is null or white space exactly when no identity source (uid and utid together, UPN, email, subject) is usable |
| CacheRules.GetLocalAccountId | core/src/CacheV2/CacheManager.cs:329-338 | the oid when usable, else the subject; usable exactly when one of the two is |
| CacheRules.AuthorityTypeOf | core/src/CacheV2/CacheManager.cs:340-351 | the authority type read from the authority path: a path without '/' has no second segment and is MsSts, so Adfs needs a '/'; `AuthorityTypeBySecondSegment` states the rest of the case table |
| CacheRules.AuthorityTypeBySecondSegment | core/src/CacheV2/CacheManager.cs:340-351 | a path "first/second/…" is Adfs exactly when its second segment equals "adfs" ignoring case, and MsSts otherwise, whatever follows the second segment |
| CacheRules.LastOfType | core/src/CacheV2/CacheManager.cs:74-110 | the selected credential has the type and comes from the read result; there is none exactly when no credential of the type was read |
| CacheRules.LastOfTypeIsLast | core/src/CacheV2/CacheManager.cs:78-110 | no credential of the same type follows the selected one: the last one wins |
| CacheRules.LastOfTypeConcat | core/src/CacheV2/CacheManager.cs:78-110 | across a concatenation the later part decides whenever it holds the type; credentials of other types never matter |
| Cache.ReadCache | core/src/CacheV2/CacheManager.cs:22-168 | a blank key part or a failed read gives false with nothing changed; the only possible change is deleting the key's access tokens; a returned access token is valid, stored under the key, and suppresses the refresh token; an account comes only with an access token, and a failed account read leaves it null while the tokens are still returned |
| Cache.CredentialBatch | core/src/CacheV2/CacheManager.cs:186-235 | the batch holds a refresh token iff the response has one, an access token iff it has one that is valid, an id token iff the id token is not empty; at most three credentials |
| Cache.BatchLastOfType | core/src/CacheV2/CacheManager.cs:189-235 | in a batch of at most one credential per type, each type's last credential is the one put in its slot |
| Cache.CredentialBatchKey | core/src/CacheV2/CacheManager.cs:186-235 | every credential written carries the derived home account id, the environment, the client id, the write's cachedAt and an empty family id |
| Cache.DerivedAccount | core/src/CacheV2/CacheManager.cs:245-261 | the written account carries the derived home account id, the request's environment and realm, the local account id and the authority type |
| Cache.WriteCache | core/src/CacheV2/CacheManager.cs:170-271 | a blank key part gives null and no write; otherwise the derived account is returned whatever either write status was, the batch is written unless that write faults, and the account is written unless that write faults |
| Cache.DeleteRefreshToken | core/src/CacheV2/CacheManager.cs:273-302 | a no-op when home account id, environment or client id is blank or the delete faults; otherwise no credential matching the refresh-token key is left, and every credential that does not match it survives: refresh tokens of other accounts, environments, clients or families and all access and id tokens |
| Cache.CacheManager.TryReadCache | core/src/CacheV2/CacheManager.cs:22-168 | returns and leaves in storage exactly what ReadCache specifies; the legacy store is untouched |
| Cache.CacheManager.LatestOfEachType | core/src/CacheV2/CacheManager.cs:74-110 | the loop keeps, for each token type, the last credential of that type read |
| Cache.CacheManager.CredentialsToWrite | core/src/CacheV2/CacheManager.cs:186-235 | the list built step by step is CredentialBatch |
| Cache.CacheManager.CacheTokenResponse | core/src/CacheV2/CacheManager.cs:170-271 | returns and leaves in storage exactly what WriteCache specifies |
| Cache.CacheManager.DeleteCachedRefreshToken | core/src/CacheV2/CacheManager.cs:273-302 | leaves in storage exactly what DeleteRefreshToken specifies |
| Cache.CacheManager.DeleteCachedAccessToken | core/src/CacheV2/CacheManager.cs:304-327 | removes the access tokens under the five-part key and nothing else; a faulting delete is ignored |
| CacheProperties.LastMatchSurvivesOtherRemovals | core/src/CacheV2/CacheManager.cs:117-130 | deleting credentials of other types does not change the last credential of a type that a read finds |
| CacheProperties.WriteOneLastMatch | core/src/CacheV2/Impl/StorageManager.cs:72-90 | after writing one credential, it is what a matching read finds last for its type, and other types' last matches are kept |
| CacheProperties.ReadFoundIff | core/src/CacheV2/CacheManager.cs:117-140 | a read succeeds exactly when the key is complete, the read does not fault, and the last access token is valid or a refresh token is stored |
| CacheProperties.ReadReturnsLatest | core/src/CacheV2/CacheManager.cs:132-166 | the returned access, refresh and id tokens are the last of their types under the key |
| CacheProperties.ReadDeletesExactlyExpired | core/src/CacheV2/CacheManager.cs:117-130 | the store changes exactly when the last access token is invalid and the delete succeeds; afterwards no access token under the key remains |
| CacheProperties.ReadIsStable | core/src/CacheV2/CacheManager.cs:117-167 | a second read at the same instant returns the same outcome and deletes nothing more |
| CacheProperties.ReadAfterRefreshTokenDelete | core/src/CacheV2/CacheManager.cs:273-302 | after the refresh-token delete, no read returns a refresh token |
| CacheProperties.TickStampedAccessTokenIsNeverWritten | core/src/CacheV2/CacheManager.cs:187-220 | with a tick count above the second count, the batch never holds an access token |
| CacheProperties.StoredAccessTokenIsRead | msal/tests/Test.MSAL.NET.Unit.net45/CacheV2Tests/TokenCacheV2Tests.cs:72-104 | a valid access token stored under the exact key is read back with no refresh token and no account |
| CacheProperties.ReadHit | core/src/CacheV2/CacheManager.cs:132-167 | with a valid last access token, a fault-free read returns it with the last id token and the stored account, and changes nothing |
| CacheProperties.BatchReadBack | core/src/CacheV2/CacheManager.cs:186-237 | a written access token (and id token) is what a read under the same key finds last |
| CacheProperties.WriteThenRead | core/src/CacheV2/CacheManager.cs:170-271 | writing a response then reading under the same key returns the new access token and id token, no refresh token, and the account written |
| TokenCaches.TokenCacheV2.BindToStorageManager | msal/src/Microsoft.Identity.Client/CacheV2/V2TokenCacheAdapter.cs:72 | a structured cache remembers the storage manager it is bound to |
| V2Adapter.V2TokenCacheAdapter.TokenCache | msal/src/Microsoft.Identity.Client/CacheV2/V2TokenCacheAdapter.cs:52-60 | the getter returns the bound structured cache, or none; never a legacy cache |
| V2Adapter.V2TokenCacheAdapter.SetTokenCache | msal/src/Microsoft.Identity.Client/CacheV2/V2TokenCacheAdapter.cs:61-75 | a legacy cache is refused with InvalidOperationException before anything is touched: the adapter and the refused cache are unchanged; a structured cache is stored and bound to the adapter's storage manager; none unbinds |
| V2Adapter.V2TokenCacheAdapter.RemoveAccount | msal/src/Microsoft.Identity.Client/CacheV2/V2TokenCacheAdapter.cs:85-96 | deletes under the placeholder environment "environment" and realm "realm"; no account with a real environment is ever removed; a failure is ignored |
| V2Adapter.V2TokenCacheAdapter.SaveAccessAndRefreshToken | msal/src/Microsoft.Identity.Client/CacheV2/V2TokenCacheAdapter.cs:99-106 | the result carries the request, the response and the account a fresh cache manager's write returns |
| V2Adapter.V2TokenCacheAdapter.TryReadCache | msal/src/Microsoft.Identity.Client/CacheV2/V2TokenCacheAdapter.cs:108-112 | the result and outputs are exactly those of a fresh cache manager's read |
| V2Adapter.V2TokenCacheAdapter.Unsupported | msal/src/Microsoft.Identity.Client/CacheV2/V2TokenCacheAdapter.cs:79-82 | each declared but unsupported operation raises NotImplementedException |
| V2Adapter.V2TokenCacheAdapter.GetAllAccessTokenCacheItems | msal/src/Microsoft.Identity.Client/CacheV2/V2TokenCacheAdapter.cs:172-190 | the storage read is issued and then NotImplementedException is raised, whatever the read returned |
| V2Adapter.V2TokenCacheAdapter.GetAllAccounts | msal/src/Microsoft.Identity.Client/CacheV2/V2TokenCacheAdapter.cs:200-204 | raises NotImplementedException, from the storage manager's unsupported read |
| V2Adapter.V2TokenCacheAdapter.RemoveMsalAccount | msal/src/Microsoft.Identity.Client/CacheV2/V2TokenCacheAdapter.cs:243-255 | deletes the account under (home account id, environment, empty realm); accounts with a non-empty realm survive; a failure is ignored |
| V1Adapter.V1TokenCacheAdapter.TokenCache | msal/src/Microsoft.Identity.Client/CacheV2/V1TokenCacheAdapter.cs:63-71 | the getter returns the bound legacy cache, or none; never a structured cache |
| V1Adapter.V1TokenCacheAdapter.SetTokenCache | msal/src/Microsoft.Identity.Client/CacheV2/V1TokenCacheAdapter.cs:72-91 | a structured cache is refused with InvalidOperationException before anything is touched: the adapter and the refused cache are unchanged; a legacy cache is stored and given the adapter's client id, telemetry and instance discovery; none unbinds |
| V1Adapter.V1TokenCacheAdapter.FindAccessToken | msal/src/Microsoft.Identity.Client/CacheV2/V1TokenCacheAdapter.cs:177-188 | null when unbound, otherwise the bound cache's answer |
| V1Adapter.V1TokenCacheAdapter.FindRefreshToken | msal/src/Microsoft.Identity.Client/CacheV2/V1TokenCacheAdapter.cs:200-210 | null when unbound, otherwise the bound cache's answer |
| V1Adapter.V1TokenCacheAdapter.GetIdTokenCacheItem | msal/src/Microsoft.Identity.Client/CacheV2/V1TokenCacheAdapter.cs:191-197 | null when unbound, otherwise the bound cache's answer |
| V1Adapter.V1TokenCacheAdapter.TryReadCache | msal/src/Microsoft.Identity.Client/CacheV2/V1TokenCacheAdapter.cs:112-149 | found exactly when an access or refresh token is found; a found refresh token is always returned, even beside an access token; an access token brings its secret, joined scopes, its id token and the account that id token names |
| V1Adapter.V1TokenCacheAdapter.SaveAccessAndRefreshToken | msal/src/Microsoft.Identity.Client/CacheV2/V1TokenCacheAdapter.cs:151-174 | unbound: a result built from the request and response, nothing saved; bound: the save is forwarded once, with this adapter's validated-authorities cache and instance discovery, and its items returned; the client id, telemetry and instance discovery given to the bound cache are left as they were |
| V1Adapter.V1TokenCacheAdapter.Delegate | msal/src/Microsoft.Identity.Client/CacheV2/V1TokenCacheAdapter.cs:223-302 | the null-safe delegation of the eight `GetAll…` queries and `RemoveMsalAccount` here, and of `GetAccounts` and `RemoveAccount` at lines 93-109: a forwarded query or removal answers null and does nothing when unbound; when bound it reaches the cache exactly once, unchanged, and its reply is returned; the client id, telemetry and instance discovery given to the bound cache are left as they were |

## Left out

- Clock reads: the current time in seconds and in ticks are parameters (`now`, `nowSeconds`, `nowTicks`), so two calls may see different instants only if the caller passes them.
- JWT parsing of the id token and the `Uri` helpers that extract environment, realm and path: the parsed claims and the three strings are inputs (`IdTokenClaims`, `Authority`). A read returns the id token's raw secret rather than a parsed token.
- The scope-joining helper used by the write path is not part of this model; it is the parameter `joinScopes`. The read path's join with a single space is modelled (`Text.Join`).
- White space and case folding: `IsNullOrWhiteSpace` uses a fixed set of white-space characters, and the "adfs" comparison folds ASCII letters only.
- The storage worker's implementation (file-path layout, in-memory path storage) is not part of this model. It is an in-memory store with one modelling choice of matching: a refresh token matches regardless of realm and target, an id token regardless of target. A write replaces its slot and appends. A faulting call changes nothing, so partial writes before a fault are not modelled.
- The locks in both adapters only serialise calls; the model is sequential.
- V1Adapter.V1TokenCacheAdapter.TryReadCache: the crash path is excluded by a precondition. When an access token is found but no id-token item is stored for it, the source dereferences the missing item and raises a null-reference error; the model requires the item to exist in that case instead of modelling the exception.
- V1Adapter.V1TokenCacheAdapter.TryReadCache: the `ExpiresIn` and `ExtendedExpiresIn` fields are left out, since they come from floating-point `DateTime` subtraction against the wall clock.
- The legacy `TokenCache` is not part of this model. Its lookups are fixed functions given at construction. Its mutating operations are recorded in `received` rather than executed, so a save does not change what later lookups return.
- V2Adapter.V2TokenCacheAdapter.Unsupported: one member stands for the ten operations that only raise NotImplementedException (`GetAccounts`, `FindAccessTokenAsync`, `GetIdTokenCacheItem`, `FindRefreshTokenAsync` and the six remaining `GetAll…` queries).
- V1Adapter.V1TokenCacheAdapter.Delegate: one member stands for the eleven `?.`-delegating operations (`GetAccounts`, `RemoveAccount`, the eight `GetAll…` queries, `RemoveMsalAccount`). Their replies are one opaque type, a sequence of strings.
- `SetKeychainSecurityGroup` is left out in both adapters. On all but one platform both are empty. On that platform the V1 adapter passes the group to the legacy cache's accessor and persistence, which are internals outside this model; the V2 adapter only takes its lock around code that is commented out, so it has no effect.
- The request orchestration that consumes the cache (silent token requests, authority resolution, network refresh), the adapter factory and the cache interfaces are not part of this model.
- The adapters use a second copy of the cache manager and storage manager that takes the pipeline's request-parameter and token-response types. That copy is not part of this model; it is assumed to behave like the core classes modelled here, with the request parameters reduced to `AuthParameters`.
- `TokenCacheV2.BindToStorageManager`'s implementation is not part of this model; it is taken to remember the storage manager.
- `OperationStatus.CreateSuccess` is not part of this model beyond its Success type; its other fields are taken as zero and empty.
- The credential factories' trailing additional-fields argument is always empty at the call sites modelled and is left out.
- The logging-only "warning" branches and the commented-out event and legacy-bridge hooks have no effect and are left out.
