/**
 * The cache manager: the read protocol (`TryReadCache`), the write protocol
 * (`CacheTokenResponse`) and the refresh-token delete. Each is specified by a function over
 * the store's content (`ReadCache`, `WriteCache`, `DeleteRefreshToken`) and implemented by a
 * method of `CacheManager` that goes through the storage manager.
 */
module Cache {
  import opened Wrappers
  import opened Text
  import opened Schema
  import opened Worker
  import opened Storage
  import opened CacheRules

  /** The target of a read: the requested scopes joined by single spaces, in caller order. */
  function ReadTarget(p: AuthParameters): string {
    Join(" ", p.requestedScopes)
  }

  /** The read key is complete when none of its five fields is null or white space. */
  predicate ReadKeyComplete(p: AuthParameters) {
    && !IsNullOrWhiteSpace(p.accountId)
    && !IsBlank(p.authority.environment)
    && !IsBlank(p.authority.realm)
    && !IsNullOrWhiteSpace(p.clientId)
    && !IsBlank(ReadTarget(p))
  }

  /** The single storage read of the read path: all three token types under the full key. */
  function ReadQuery(p: AuthParameters): CredentialQuery {
    CredentialQuery(p.accountId, p.authority.environment, p.authority.realm, p.clientId, "", ReadTarget(p),
                    {AccessToken, RefreshToken, IdToken})
  }

  /** The self-healing delete: the same key, access tokens only. */
  function AccessTokenQuery(p: AuthParameters): CredentialQuery {
    CredentialQuery(p.accountId, p.authority.environment, p.authority.realm, p.clientId, "", ReadTarget(p),
                    {AccessToken})
  }

  /** The refresh-token delete: empty realm, family id and target, refresh tokens only. */
  function RefreshTokenQuery(p: AuthParameters): CredentialQuery {
    CredentialQuery(p.accountId, p.authority.environment, "", p.clientId, "", "", {RefreshToken})
  }

  function AccountKey(p: AuthParameters): AccountQuery {
    AccountQuery(p.accountId, p.authority.environment, Some(p.authority.realm))
  }

  /** The faults each storage call of one read may raise. */
  datatype ReadFaults = ReadFaults(readCredentials: Fault, deleteAccessToken: Fault, readAccount: Fault)

  /** The faults each storage call of one write may raise. */
  datatype WriteFaults = WriteFaults(writeCredentials: Fault, writeAccount: Fault)

  /** The token set of a successful read; the id token is its raw JWT. */
  datatype CachedTokens = CachedTokens(idToken: Option<string>, accessToken: Option<Credential>, refreshToken: Option<Credential>)

  datatype ReadOutcome = ReadOutcome(found: bool, tokens: Option<CachedTokens>, account: Option<Account>)

  const NotFound := ReadOutcome(false, None, None)

  datatype ReadStep = ReadStep(outcome: ReadOutcome, store: Store)

  function RawSecret(c: Option<Credential>): Option<string> {
    if c.Some? then Some(c.value.secret) else None
  }

  /** What one `TryReadCache` returns and what it leaves in the store. */
  function ReadCache(p: AuthParameters, s: Store, now: int, f: ReadFaults): (r: ReadStep)
    // incomplete key material or an unreadable store: no hit, nothing changed
    ensures !ReadKeyComplete(p) || f.readCredentials.Some? ==> r == ReadStep(NotFound, s)
    // the only change a read can make is deleting the key's access tokens
    ensures r.store.accounts == s.accounts && r.store.appMetadata == s.appMetadata
    ensures r.store.credentials == s.credentials
            || r.store.credentials == RemoveMatching(s.credentials, AccessTokenQuery(p))
    ensures r.outcome.found <==> r.outcome.tokens.Some?
    ensures !r.outcome.found ==> r.outcome.account.None?
    // a faulting account read leaves the account null, the tokens are still returned
    ensures f.readAccount.Some? ==> r.outcome.account.None?
    ensures r.outcome.found ==> r.outcome.tokens.value.accessToken.Some? || r.outcome.tokens.value.refreshToken.Some?
    // a returned access token is valid, stored under the key, and suppresses the refresh token
    ensures r.outcome.found && r.outcome.tokens.value.accessToken.Some? ==>
              var at := r.outcome.tokens.value.accessToken.value;
              && r.outcome.tokens.value.refreshToken.None?
              && IsAccessTokenValid(at, now)
              && at.credentialType == AccessToken
              && at in s.credentials && Matches(at, ReadQuery(p))
    ensures r.outcome.found && r.outcome.tokens.value.refreshToken.Some? ==>
              var rt := r.outcome.tokens.value.refreshToken.value;
              rt.credentialType == RefreshToken && rt in s.credentials && Matches(rt, ReadQuery(p))
    // an account is only looked up beside an access token, and is the stored one for the key
    ensures r.outcome.account.Some? ==>
              && r.outcome.found && r.outcome.tokens.value.accessToken.Some?
              && r.outcome.account.value in s.accounts && AccountMatches(r.outcome.account.value, AccountKey(p))
  {
    if !ReadKeyComplete(p) || f.readCredentials.Some? then ReadStep(NotFound, s)
    else
      var found := Query(s.credentials, ReadQuery(p));
      if |found| == 0 then ReadStep(NotFound, s)
      else
        var accessToken := LastOfType(found, AccessToken);
        var refreshToken := LastOfType(found, RefreshToken);
        var idToken := LastOfType(found, IdToken);
        var expired := accessToken.Some? && !IsAccessTokenValid(accessToken.value, now);
        var healed := if expired && f.deleteAccessToken.None?
                       then s.(credentials := RemoveMatching(s.credentials, AccessTokenQuery(p)))
                       else s;
        var usable := if expired then None else accessToken;
        if usable.None? && refreshToken.None? then ReadStep(NotFound, healed)
        else
          var account := if usable.Some? && f.readAccount.None? then FindAccount(s.accounts, AccountKey(p)) else None;
          var tokens := CachedTokens(RawSecret(idToken), usable, if usable.Some? then None else refreshToken);
          ReadStep(ReadOutcome(true, Some(tokens), account), healed)
  }

  predicate WriteKeyComplete(p: AuthParameters, tr: TokenResponse, target: string) {
    && !IsNullOrWhiteSpace(GetHomeAccountId(tr))
    && !IsBlank(p.authority.environment)
    && !IsBlank(p.authority.realm)
    && !IsNullOrWhiteSpace(p.clientId)
    && !IsBlank(target)
  }

  /** The access token a write would create, stamped as the write path stamps it. */
  function StampedAccessToken(p: AuthParameters, tr: TokenResponse, target: string, cachedAt: int): Credential
    requires tr.accessToken.Some?
  {
    CreateAccessToken(GetHomeAccountId(tr), p.authority.environment, p.authority.realm, p.clientId, target,
                      cachedAt, tr.expiresOnTicks, tr.extendedExpiresOnTicks, tr.accessToken.value)
  }

  function StampedRefreshToken(p: AuthParameters, tr: TokenResponse, cachedAt: int): Credential
    requires tr.refreshToken.Some?
  {
    CreateRefreshToken(GetHomeAccountId(tr), p.authority.environment, p.clientId, cachedAt, tr.refreshToken.value)
  }

  function StampedIdToken(p: AuthParameters, tr: TokenResponse, cachedAt: int): Credential {
    CreateIdToken(GetHomeAccountId(tr), p.authority.environment, p.authority.realm, p.clientId, cachedAt, tr.idToken.raw)
  }

  function AsSeq(c: Option<Credential>): seq<Credential> {
    if c.Some? then [c.value] else []
  }

  /** A batch of at most one refresh token, then one access token, then one id token. */
  function Batch(refreshToken: Option<Credential>, accessToken: Option<Credential>, idToken: Option<Credential>): seq<Credential> {
    AsSeq(refreshToken) + AsSeq(accessToken) + AsSeq(idToken)
  }

  lemma LastOfTypeAsSeq(c: Option<Credential>, t: CredentialType)
    ensures LastOfType(AsSeq(c), t) == if c.Some? && c.value.credentialType == t then c else None
  {
    if c.Some? {
      LastOfTypeAppend([], c.value, t);
      assert [] + [c.value] == AsSeq(c);
    }
  }

  /** Each slot of a well-typed batch is what a last-one-wins scan finds for its type. */
  lemma BatchLastOfType(refreshToken: Option<Credential>, accessToken: Option<Credential>, idToken: Option<Credential>)
    requires refreshToken.Some? ==> refreshToken.value.credentialType == RefreshToken
    requires accessToken.Some? ==> accessToken.value.credentialType == AccessToken
    requires idToken.Some? ==> idToken.value.credentialType == IdToken
    ensures LastOfType(Batch(refreshToken, accessToken, idToken), RefreshToken) == refreshToken
    ensures LastOfType(Batch(refreshToken, accessToken, idToken), AccessToken) == accessToken
    ensures LastOfType(Batch(refreshToken, accessToken, idToken), IdToken) == idToken
  {
    var b := Batch(refreshToken, accessToken, idToken);
    forall t | t in {RefreshToken, AccessToken, IdToken}
      ensures LastOfType(b, t) == (if t == RefreshToken then refreshToken else if t == AccessToken then accessToken else idToken)
    {
      LastOfTypeAsSeq(refreshToken, t);
      LastOfTypeAsSeq(accessToken, t);
      LastOfTypeAsSeq(idToken, t);
      LastOfTypeConcat(AsSeq(refreshToken) + AsSeq(accessToken), AsSeq(idToken), t);
      LastOfTypeConcat(AsSeq(refreshToken), AsSeq(accessToken), t);
    }
  }

  lemma BatchMembers(refreshToken: Option<Credential>, accessToken: Option<Credential>, idToken: Option<Credential>)
    ensures forall c :: c in Batch(refreshToken, accessToken, idToken) ==>
              Some(c) == refreshToken || Some(c) == accessToken || Some(c) == idToken
  {
  }

  function RefreshPart(p: AuthParameters, tr: TokenResponse, cachedAt: int): Option<Credential> {
    if tr.refreshToken.Some? then Some(StampedRefreshToken(p, tr, cachedAt)) else None
  }

  function AccessPart(p: AuthParameters, tr: TokenResponse, target: string, cachedAt: int, now: int): Option<Credential> {
    if tr.accessToken.Some? && IsAccessTokenValid(StampedAccessToken(p, tr, target, cachedAt), now)
    then Some(StampedAccessToken(p, tr, target, cachedAt)) else None
  }

  function IdPart(p: AuthParameters, tr: TokenResponse, cachedAt: int): Option<Credential> {
    if !tr.idToken.isEmpty then Some(StampedIdToken(p, tr, cachedAt)) else None
  }

  /**
   * The batch one write submits: a refresh token if the response has one, an access token
   * if it has one that is valid at `now`, an id token if the parsed id token is not empty,
   * in that order and at most one of each type.
   */
  function CredentialBatch(p: AuthParameters, tr: TokenResponse, target: string, cachedAt: int, now: int): (r: seq<Credential>)
    ensures LastOfType(r, RefreshToken) == RefreshPart(p, tr, cachedAt)
    ensures LastOfType(r, AccessToken) == AccessPart(p, tr, target, cachedAt, now)
    ensures LastOfType(r, IdToken) == IdPart(p, tr, cachedAt)
    ensures |r| <= 3
  {
    BatchLastOfType(RefreshPart(p, tr, cachedAt), AccessPart(p, tr, target, cachedAt, now), IdPart(p, tr, cachedAt));
    Batch(RefreshPart(p, tr, cachedAt), AccessPart(p, tr, target, cachedAt, now), IdPart(p, tr, cachedAt))
  }

  /** Every credential of a write's batch carries the write's key and time stamp. */
  lemma CredentialBatchKey(p: AuthParameters, tr: TokenResponse, target: string, cachedAt: int, now: int)
    ensures forall c :: c in CredentialBatch(p, tr, target, cachedAt, now) ==>
              && c.homeAccountId == GetHomeAccountId(tr) && c.environment == p.authority.environment
              && c.clientId == p.clientId && c.cachedAt == cachedAt && c.familyId == ""
  {
    BatchMembers(RefreshPart(p, tr, cachedAt), AccessPart(p, tr, target, cachedAt, now), IdPart(p, tr, cachedAt));
  }

  /** The account a complete write derives and returns. */
  function DerivedAccount(p: AuthParameters, tr: TokenResponse): (a: Account)
    ensures a.homeAccountId == GetHomeAccountId(tr)
    ensures a.environment == p.authority.environment && a.realm == p.authority.realm
    ensures a.localAccountId == GetLocalAccountId(tr.idToken)
    ensures a.authorityType == AuthorityTypeOf(p.authority.path)
  {
    var idToken := tr.idToken;
    Account(GetHomeAccountId(tr), p.authority.environment, p.authority.realm, GetLocalAccountId(idToken),
            AuthorityTypeOf(p.authority.path), idToken.preferredUsername, idToken.givenName, idToken.familyName,
            idToken.middleName, idToken.name, idToken.alternativeId, tr.rawClientInfo, "")
  }

  datatype WriteStep = WriteStep(account: Option<Account>, store: Store)

  /**
   * What one `CacheTokenResponse` returns and leaves in the store. `cachedAt` is the
   * write's time stamp, `now` the clock the validity check reads.
   */
  function WriteCache(p: AuthParameters, tr: TokenResponse, target: string, cachedAt: int, now: int, s: Store, f: WriteFaults): (r: WriteStep)
    // a blank key field: null, and nothing written
    ensures !WriteKeyComplete(p, tr, target) ==> r == WriteStep(None, s)
    // a complete key: the derived account is returned whatever either write status was
    ensures WriteKeyComplete(p, tr, target) ==> r.account == Some(DerivedAccount(p, tr))
    ensures r.store.appMetadata == s.appMetadata
    ensures r.store.credentials ==
              if WriteKeyComplete(p, tr, target) && f.writeCredentials.None?
              then WriteAll(s.credentials, CredentialBatch(p, tr, target, cachedAt, now)) else s.credentials
    ensures r.store.accounts ==
              if WriteKeyComplete(p, tr, target) && f.writeAccount.None?
              then PutAccount(s.accounts, DerivedAccount(p, tr)) else s.accounts
  {
    if !WriteKeyComplete(p, tr, target) then WriteStep(None, s)
    else
      var s1 := if f.writeCredentials.None?
                then s.(credentials := WriteAll(s.credentials, CredentialBatch(p, tr, target, cachedAt, now)))
                else s;
      var account := DerivedAccount(p, tr);
      var s2 := if f.writeAccount.None? then s1.(accounts := PutAccount(s1.accounts, account)) else s1;
      WriteStep(Some(account), s2)
  }

  predicate RefreshKeyComplete(p: AuthParameters) {
    !IsNullOrWhiteSpace(p.accountId) && !IsBlank(p.authority.environment) && !IsNullOrWhiteSpace(p.clientId)
  }

  /** What `DeleteCachedRefreshToken` leaves in the store. */
  function DeleteRefreshToken(p: AuthParameters, s: Store, fault: Fault): (r: Store)
    ensures !RefreshKeyComplete(p) || fault.Some? ==> r == s
    ensures r.accounts == s.accounts && r.appMetadata == s.appMetadata
    ensures forall c :: c in s.credentials && c.credentialType != RefreshToken ==> c in r.credentials
    // only the key's refresh tokens go: other accounts', clients' and families' tokens survive
    ensures forall c :: c in s.credentials && !Matches(c, RefreshTokenQuery(p)) ==> c in r.credentials
    ensures forall c :: c in r.credentials ==> c in s.credentials
    ensures RefreshKeyComplete(p) && fault.None? ==>
              forall c :: c in r.credentials ==> !Matches(c, RefreshTokenQuery(p))
  {
    if RefreshKeyComplete(p) && fault.None? then s.(credentials := RemoveMatching(s.credentials, RefreshTokenQuery(p)))
    else s
  }

  /** The cache manager of one request. */
  class CacheManager {
    const storageManager: StorageManager
    const authParameters: AuthParameters

    constructor (storageManager: StorageManager, authParameters: AuthParameters)
      ensures this.storageManager == storageManager && this.authParameters == authParameters
    {
      this.storageManager := storageManager;
      this.authParameters := authParameters;
    }

    method TryReadCache(now: int, faults: ReadFaults) returns (found: bool, tokens: Option<CachedTokens>, account: Option<Account>)
      modifies storageManager.worker
      ensures ReadOutcome(found, tokens, account) == ReadCache(authParameters, old(storageManager.worker.Snapshot()), now, faults).outcome
      ensures storageManager.worker.Snapshot() == ReadCache(authParameters, old(storageManager.worker.Snapshot()), now, faults).store
      ensures unchanged(storageManager.legacyCacheManager)
    {
      ghost var before := storageManager.worker.Snapshot();
      tokens := None;
      account := None;
      var homeAccountId := authParameters.accountId;
      var environment := authParameters.authority.environment;
      var realm := authParameters.authority.realm;
      var clientId := authParameters.clientId;
      var target := Join(" ", authParameters.requestedScopes);
      if IsNullOrWhiteSpace(homeAccountId) || IsBlank(environment) || IsBlank(realm)
         || IsNullOrWhiteSpace(clientId) || IsBlank(target) {
        return false, None, None;
      }

      var credentialsResponse := storageManager.ReadCredentials(
        "", homeAccountId, environment, realm, clientId, "", target, {AccessToken, RefreshToken, IdToken},
        faults.readCredentials);
      if credentialsResponse.status.statusType != Success {
        return false, None, None;
      }
      var credentials := credentialsResponse.credentials.value;
      assert credentials == Query(before.credentials, ReadQuery(authParameters));
      if |credentials| == 0 {
        return false, None, None;
      }

      var accessToken, refreshToken, idToken := LatestOfEachType(credentials);

      if accessToken.Some? && !IsAccessTokenValid(accessToken.value, now) {
        DeleteCachedAccessToken(homeAccountId, environment, realm, clientId, target, faults.deleteAccessToken);
        assert storageManager.worker.Snapshot() ==
                 if faults.deleteAccessToken.Some? then before
                 else before.(credentials := RemoveMatching(before.credentials, AccessTokenQuery(authParameters)));
        accessToken := None;
      }

      if accessToken.Some? {
        refreshToken := None;
      } else if refreshToken.None? {
        return false, None, None;
      }

      var idTokenJwt := if idToken.Some? then Some(idToken.value.secret) else None;

      if accessToken.Some? {
        var accountResponse := storageManager.ReadAccount("", homeAccountId, environment, realm, faults.readAccount);
        if accountResponse.status.statusType == Success {
          account := accountResponse.account;
          assert account == FindAccount(before.accounts, AccountKey(authParameters));
        }
      }

      tokens := Some(CachedTokens(idTokenJwt, accessToken, refreshToken));
      found := true;
    }

    /** One pass over the read result; a later credential of a type replaces an earlier one. */
    static method LatestOfEachType(credentials: seq<Credential>)
      returns (accessToken: Option<Credential>, refreshToken: Option<Credential>, idToken: Option<Credential>)
      ensures accessToken == LastOfType(credentials, AccessToken)
      ensures refreshToken == LastOfType(credentials, RefreshToken)
      ensures idToken == LastOfType(credentials, IdToken)
    {
      accessToken, refreshToken, idToken := None, None, None;
      for i := 0 to |credentials|
        invariant accessToken == LastOfType(credentials[..i], AccessToken)
        invariant refreshToken == LastOfType(credentials[..i], RefreshToken)
        invariant idToken == LastOfType(credentials[..i], IdToken)
      {
        var credential := credentials[i];
        assert credentials[..i + 1] == credentials[..i] + [credential];
        LastOfTypeAppend(credentials[..i], credential, AccessToken);
        LastOfTypeAppend(credentials[..i], credential, RefreshToken);
        LastOfTypeAppend(credentials[..i], credential, IdToken);
        match credential.credentialType
        case AccessToken => accessToken := Some(credential);
        case RefreshToken => refreshToken := Some(credential);
        case IdToken => idToken := Some(credential);
        case OtherCredential =>
      }
      assert credentials[..|credentials|] == credentials;
    }

    /** The credential list of one write, built in the order it is submitted. */
    static method CredentialsToWrite(p: AuthParameters, tr: TokenResponse, homeAccountId: NStr, target: string, cachedAt: int, now: int)
      returns (credentialsToWrite: seq<Credential>)
      requires homeAccountId == GetHomeAccountId(tr)
      ensures credentialsToWrite == CredentialBatch(p, tr, target, cachedAt, now)
    {
      var environment := p.authority.environment;
      var realm := p.authority.realm;
      var clientId := p.clientId;
      credentialsToWrite := [];
      if tr.refreshToken.Some? {
        credentialsToWrite := credentialsToWrite
          + [CreateRefreshToken(homeAccountId, environment, clientId, cachedAt, tr.refreshToken.value)];
      }
      assert credentialsToWrite == AsSeq(RefreshPart(p, tr, cachedAt));
      if tr.accessToken.Some? {
        var accessToken := CreateAccessToken(homeAccountId, environment, realm, clientId, target, cachedAt,
                                             tr.expiresOnTicks, tr.extendedExpiresOnTicks, tr.accessToken.value);
        if IsAccessTokenValid(accessToken, now) {
          credentialsToWrite := credentialsToWrite + [accessToken];
        }
      }
      assert credentialsToWrite == AsSeq(RefreshPart(p, tr, cachedAt)) + AsSeq(AccessPart(p, tr, target, cachedAt, now));
      if !tr.idToken.isEmpty {
        credentialsToWrite := credentialsToWrite
          + [CreateIdToken(homeAccountId, environment, realm, clientId, cachedAt, tr.idToken.raw)];
      }
    }

    method CacheTokenResponse(tokenResponse: TokenResponse, joinScopes: seq<string> -> string, nowTicks: int, nowSeconds: int, faults: WriteFaults)
      returns (account: Option<Account>)
      modifies storageManager.worker
      ensures account == WriteCache(authParameters, tokenResponse, joinScopes(tokenResponse.grantedScopes), nowTicks, nowSeconds,
                                    old(storageManager.worker.Snapshot()), faults).account
      ensures storageManager.worker.Snapshot() ==
                WriteCache(authParameters, tokenResponse, joinScopes(tokenResponse.grantedScopes), nowTicks, nowSeconds,
                           old(storageManager.worker.Snapshot()), faults).store
      ensures unchanged(storageManager.legacyCacheManager)
    {
      var homeAccountId := GetHomeAccountId(tokenResponse);
      var environment := authParameters.authority.environment;
      var realm := authParameters.authority.realm;
      var clientId := authParameters.clientId;
      var target := joinScopes(tokenResponse.grantedScopes);
      if IsNullOrWhiteSpace(homeAccountId) || IsBlank(environment) || IsBlank(realm)
         || IsNullOrWhiteSpace(clientId) || IsBlank(target) {
        return None;
      }

      var cachedAt := nowTicks;
      var credentialsToWrite := CredentialsToWrite(authParameters, tokenResponse, homeAccountId, target, cachedAt, nowSeconds);
      var status := storageManager.WriteCredentials("", credentialsToWrite, faults.writeCredentials);

      var idTokenJwt := tokenResponse.idToken;

      var localAccountId := GetLocalAccountId(idTokenJwt);
      var authorityType := AuthorityTypeOf(authParameters.authority.path);
      var created := Account(homeAccountId, environment, realm, localAccountId, authorityType,
                             idTokenJwt.preferredUsername, idTokenJwt.givenName, idTokenJwt.familyName,
                             idTokenJwt.middleName, idTokenJwt.name, idTokenJwt.alternativeId,
                             tokenResponse.rawClientInfo, "");
      assert created == DerivedAccount(authParameters, tokenResponse);
      status := storageManager.WriteAccount("", created, faults.writeAccount);
      account := Some(created);
    }

    method DeleteCachedRefreshToken(fault: Fault)
      modifies storageManager.worker
      ensures storageManager.worker.Snapshot() == DeleteRefreshToken(authParameters, old(storageManager.worker.Snapshot()), fault)
      ensures unchanged(storageManager.legacyCacheManager)
    {
      var homeAccountId := authParameters.accountId;
      var environment := authParameters.authority.environment;
      var clientId := authParameters.clientId;
      if IsNullOrWhiteSpace(homeAccountId) || IsBlank(environment) || IsNullOrWhiteSpace(clientId) {
        return;
      }
      var status := storageManager.DeleteCredentials("", homeAccountId, environment, "", clientId, "", "", {RefreshToken}, fault);
    }

    /** Deletes the key's access tokens; the returned status is ignored. */
    method DeleteCachedAccessToken(homeAccountId: NStr, environment: string, realm: string, clientId: NStr, target: string, fault: Fault)
      modifies storageManager.worker
      ensures storageManager.worker.Snapshot() ==
                if fault.Some? then old(storageManager.worker.Snapshot())
                else old(storageManager.worker.Snapshot()).(credentials := RemoveMatching(old(storageManager.worker.credentials),
                       CredentialQuery(homeAccountId, environment, realm, clientId, "", target, {AccessToken})))
      ensures unchanged(storageManager.legacyCacheManager)
    {
      var status := storageManager.DeleteCredentials("", homeAccountId, environment, realm, clientId, "", target, {AccessToken}, fault);
    }
  }
}
