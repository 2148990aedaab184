/**
 * The records the cache engine stores and exchanges: credentials, accounts, app metadata,
 * the parsed id token, the token response to be cached, the request's key material and
 * the storage operation status.
 */
module Schema {
  import opened Wrappers
  import opened Text

  /** The credential kinds; `OtherCredential` stands for any further enum value. */
  datatype CredentialType = AccessToken | RefreshToken | IdToken | OtherCredential

  /** A cached secret. Time stamps are plain integers in whatever unit the writer used. */
  datatype Credential = Credential(
    homeAccountId: NStr,
    environment: string,
    realm: string,
    clientId: NStr,
    familyId: string,
    target: string,
    credentialType: CredentialType,
    secret: string,
    cachedAt: int,
    expiresOn: int,
    extendedExpiresOn: int)

  /** `Credential.CreateAccessToken`: every key field, the three time stamps and the secret. */
  function CreateAccessToken(
    homeAccountId: NStr, environment: string, realm: string, clientId: NStr, target: string,
    cachedAt: int, expiresOn: int, extendedExpiresOn: int, secret: string): Credential
  {
    Credential(homeAccountId, environment, realm, clientId, "", target, AccessToken, secret,
               cachedAt, expiresOn, extendedExpiresOn)
  }

  /** `Credential.CreateRefreshToken`: no realm, no target, no expiry. */
  function CreateRefreshToken(
    homeAccountId: NStr, environment: string, clientId: NStr, cachedAt: int, secret: string): Credential
  {
    Credential(homeAccountId, environment, "", clientId, "", "", RefreshToken, secret, cachedAt, 0, 0)
  }

  /** `Credential.CreateIdToken`: a realm but no target and no expiry. */
  function CreateIdToken(
    homeAccountId: NStr, environment: string, realm: string, clientId: NStr, cachedAt: int, secret: string): Credential
  {
    Credential(homeAccountId, environment, realm, clientId, "", "", IdToken, secret, cachedAt, 0, 0)
  }

  datatype AuthorityType = MsSts | Adfs

  /** A cached account profile, keyed by (homeAccountId, environment, realm). */
  datatype Account = Account(
    homeAccountId: NStr,
    environment: string,
    realm: string,
    localAccountId: NStr,
    authorityType: AuthorityType,
    username: NStr,
    givenName: NStr,
    familyName: NStr,
    middleName: NStr,
    name: NStr,
    alternativeId: NStr,
    rawClientInfo: NStr,
    additionalFieldsJson: string)

  /** Family-of-client-ids bookkeeping, keyed by (environment, clientId). */
  datatype AppMetadata = AppMetadata(environment: string, clientId: NStr, familyId: string)

  /** The claims of a parsed id token; JWT parsing itself is not modelled. */
  datatype IdTokenClaims = IdTokenClaims(
    raw: string,
    isEmpty: bool,
    oid: NStr,
    subject: NStr,
    upn: NStr,
    email: NStr,
    preferredUsername: NStr,
    givenName: NStr,
    familyName: NStr,
    middleName: NStr,
    name: NStr,
    alternativeId: NStr)

  /**
   * A token-endpoint response handed to the write path. `None` for a token means the
   * response does not carry it. Expiry stamps are `DateTime.Ticks` values.
   */
  datatype TokenResponse = TokenResponse(
    uid: NStr,
    utid: NStr,
    idToken: IdTokenClaims,
    accessToken: Option<string>,
    refreshToken: Option<string>,
    expiresOnTicks: int,
    extendedExpiresOnTicks: int,
    grantedScopes: seq<string>,
    rawClientInfo: NStr)

  /** The authority URI, reduced to what the `Uri` helpers extract from it. */
  datatype Authority = Authority(environment: string, realm: string, path: string)

  /** Request-scoped key material supplied by the caller. */
  datatype AuthParameters = AuthParameters(
    accountId: NStr,
    authority: Authority,
    clientId: NStr,
    requestedScopes: seq<string>)

  datatype OperationStatusType = Success | Failure

  datatype OperationStatus = OperationStatus(
    statusType: OperationStatusType,
    code: int,
    platformCode: int,
    platformDomain: string,
    statusDescription: string)

  /** `OperationStatus.CreateSuccess()`. */
  function CreateSuccess(): (r: OperationStatus)
    ensures r.statusType == Success
  {
    OperationStatus(Success, 0, 0, "", "")
  }

  /** The exceptions the adapters and the storage manager raise themselves. */
  datatype CacheException =
    | NotImplementedException
    | InvalidOperationException(message: string)

  /** A storage fault: `Some(message)` means the worker call raises with that message. */
  type Fault = Option<string>
}
