/**
 * The storage worker the storage manager wraps. Its implementation is not part of this
 * model; here it is an in-memory store whose every call may raise a fault instead of
 * returning. Credentials are kept in insertion order; a write replaces whatever occupies
 * the written credential's slot and appends, so reads return matches in a fixed order.
 */
module Worker {
  import opened Wrappers
  import opened Text
  import opened Schema

  /** The seven key arguments and the type set of a credential read or delete. */
  datatype CredentialQuery = CredentialQuery(
    homeAccountId: NStr,
    environment: string,
    realm: string,
    clientId: NStr,
    familyId: string,
    target: string,
    types: set<CredentialType>)

  /**
   * A credential answers a query when its type is asked for and every key field its
   * type carries agrees: refresh tokens carry no realm and no target, id tokens no target.
   */
  predicate Matches(c: Credential, q: CredentialQuery) {
    && c.credentialType in q.types
    && c.homeAccountId == q.homeAccountId
    && c.environment == q.environment
    && c.clientId == q.clientId
    && c.familyId == q.familyId
    && (c.credentialType == RefreshToken || c.realm == q.realm)
    && (c.credentialType != AccessToken || c.target == q.target)
  }

  /** The query that selects the slot a credential is stored in. */
  function SlotOf(c: Credential): (q: CredentialQuery)
    ensures Matches(c, q)
  {
    CredentialQuery(c.homeAccountId, c.environment, c.realm, c.clientId, c.familyId, c.target, {c.credentialType})
  }

  /** The matching credentials, in store order. */
  function Query(s: seq<Credential>, q: CredentialQuery): (r: seq<Credential>)
    ensures forall c :: c in r <==> c in s && Matches(c, q)
    ensures |r| <= |s|
  {
    if |s| == 0 then []
    else Query(s[..|s| - 1], q) + (if Matches(s[|s| - 1], q) then [s[|s| - 1]] else [])
  }

  /** The store without the matching credentials, order kept. */
  function RemoveMatching(s: seq<Credential>, q: CredentialQuery): (r: seq<Credential>)
    ensures forall c :: c in r <==> c in s && !Matches(c, q)
    ensures |r| <= |s|
  {
    if |s| == 0 then []
    else RemoveMatching(s[..|s| - 1], q) + (if Matches(s[|s| - 1], q) then [] else [s[|s| - 1]])
  }

  /** Deleting what is not there leaves the store as it was. */
  lemma {:induction false} RemoveAbsentIsIdentity(s: seq<Credential>, q: CredentialQuery)
    requires forall c :: c in s ==> !Matches(c, q)
    ensures RemoveMatching(s, q) == s
  {
    if |s| > 0 {
      assert s[..|s| - 1] + [s[|s| - 1]] == s;
      RemoveAbsentIsIdentity(s[..|s| - 1], q);
    }
  }

  /** Deleting twice is deleting once. */
  lemma RemoveMatchingIdempotent(s: seq<Credential>, q: CredentialQuery)
    ensures RemoveMatching(RemoveMatching(s, q), q) == RemoveMatching(s, q)
  {
    RemoveAbsentIsIdentity(RemoveMatching(s, q), q);
  }

  /** Writing one credential replaces its slot and appends it. */
  function WriteOne(s: seq<Credential>, c: Credential): (r: seq<Credential>)
    ensures |r| >= 1 && r[|r| - 1] == c
    ensures forall x :: x in r <==> x == c || (x in s && !Matches(x, SlotOf(c)))
  {
    RemoveMatching(s, SlotOf(c)) + [c]
  }

  /** Writing a batch writes its credentials one after the other. */
  function WriteAll(s: seq<Credential>, batch: seq<Credential>): seq<Credential>
  {
    if |batch| == 0 then s
    else WriteOne(WriteAll(s, batch[..|batch| - 1]), batch[|batch| - 1])
  }

  /** The key of an account read or delete; `realm == None` matches every realm. */
  datatype AccountQuery = AccountQuery(homeAccountId: NStr, environment: string, realm: Option<string>)

  predicate AccountMatches(a: Account, q: AccountQuery) {
    a.homeAccountId == q.homeAccountId && a.environment == q.environment
    && (q.realm.None? || a.realm == q.realm.value)
  }

  function AccountSlot(a: Account): (q: AccountQuery)
    ensures AccountMatches(a, q)
  {
    AccountQuery(a.homeAccountId, a.environment, Some(a.realm))
  }

  /** The last stored account that answers the query, or null. */
  function FindAccount(s: seq<Account>, q: AccountQuery): (r: Option<Account>)
    ensures r.Some? ==> r.value in s && AccountMatches(r.value, q)
    ensures r.None? ==> forall a :: a in s ==> !AccountMatches(a, q)
  {
    if |s| == 0 then None
    else if AccountMatches(s[|s| - 1], q) then Some(s[|s| - 1])
    else FindAccount(s[..|s| - 1], q)
  }

  function RemoveAccounts(s: seq<Account>, q: AccountQuery): (r: seq<Account>)
    ensures forall a :: a in r <==> a in s && !AccountMatches(a, q)
  {
    if |s| == 0 then []
    else RemoveAccounts(s[..|s| - 1], q) + (if AccountMatches(s[|s| - 1], q) then [] else [s[|s| - 1]])
  }

  /** Writing an account replaces the whole record stored under its key. */
  function PutAccount(s: seq<Account>, a: Account): (r: seq<Account>)
    ensures FindAccount(r, AccountSlot(a)) == Some(a)
    ensures forall x :: x in r <==> x == a || (x in s && !AccountMatches(x, AccountSlot(a)))
  {
    RemoveAccounts(s, AccountSlot(a)) + [a]
  }

  predicate AppMetadataMatches(m: AppMetadata, environment: string, clientId: NStr) {
    m.environment == environment && m.clientId == clientId
  }

  function FindAppMetadata(s: seq<AppMetadata>, environment: string, clientId: NStr): (r: Option<AppMetadata>)
    ensures r.Some? ==> r.value in s && AppMetadataMatches(r.value, environment, clientId)
    ensures r.None? ==> forall m :: m in s ==> !AppMetadataMatches(m, environment, clientId)
  {
    if |s| == 0 then None
    else if AppMetadataMatches(s[|s| - 1], environment, clientId) then Some(s[|s| - 1])
    else FindAppMetadata(s[..|s| - 1], environment, clientId)
  }

  function Filtered(s: seq<AppMetadata>, environment: string, clientId: NStr): (r: seq<AppMetadata>)
    ensures forall m :: m in r <==> m in s && !AppMetadataMatches(m, environment, clientId)
  {
    if |s| == 0 then []
    else Filtered(s[..|s| - 1], environment, clientId)
         + (if AppMetadataMatches(s[|s| - 1], environment, clientId) then [] else [s[|s| - 1]])
  }

  function PutAppMetadata(s: seq<AppMetadata>, m: AppMetadata): (r: seq<AppMetadata>)
    ensures FindAppMetadata(r, m.environment, m.clientId) == Some(m)
  {
    Filtered(s, m.environment, m.clientId) + [m]
  }

  /** The whole content of the store. */
  datatype Store = Store(credentials: seq<Credential>, accounts: seq<Account>, appMetadata: seq<AppMetadata>)

  /** The in-memory storage worker. */
  class InMemoryStorageWorker {
    var credentials: seq<Credential>
    var accounts: seq<Account>
    var appMetadata: seq<AppMetadata>

    function Snapshot(): Store
      reads this
    {
      Store(credentials, accounts, appMetadata)
    }

    constructor (initial: Store)
      ensures Snapshot() == initial
    {
      credentials := initial.credentials;
      accounts := initial.accounts;
      appMetadata := initial.appMetadata;
    }

    method ReadCredentials(q: CredentialQuery, fault: Fault) returns (r: Result<seq<Credential>, string>)
      ensures r == if fault.Some? then Err(fault.value) else Ok(Query(credentials, q))
    {
      if fault.Some? { return Err(fault.value); }
      r := Ok(Query(credentials, q));
    }

    method WriteCredentials(batch: seq<Credential>, fault: Fault) returns (r: Result<(), string>)
      modifies this
      ensures r == if fault.Some? then Err(fault.value) else Ok(())
      ensures Snapshot() == if fault.Some? then old(Snapshot()) else old(Snapshot()).(credentials := WriteAll(old(credentials), batch))
    {
      if fault.Some? { return Err(fault.value); }
      credentials := WriteAll(credentials, batch);
      r := Ok(());
    }

    method DeleteCredentials(q: CredentialQuery, fault: Fault) returns (r: Result<(), string>)
      modifies this
      ensures r == if fault.Some? then Err(fault.value) else Ok(())
      ensures Snapshot() == if fault.Some? then old(Snapshot()) else old(Snapshot()).(credentials := RemoveMatching(old(credentials), q))
    {
      if fault.Some? { return Err(fault.value); }
      credentials := RemoveMatching(credentials, q);
      r := Ok(());
    }

    method ReadAccount(q: AccountQuery, fault: Fault) returns (r: Result<Option<Account>, string>)
      ensures r == if fault.Some? then Err(fault.value) else Ok(FindAccount(accounts, q))
    {
      if fault.Some? { return Err(fault.value); }
      r := Ok(FindAccount(accounts, q));
    }

    method WriteAccount(a: Account, fault: Fault) returns (r: Result<(), string>)
      modifies this
      ensures r == if fault.Some? then Err(fault.value) else Ok(())
      ensures Snapshot() == if fault.Some? then old(Snapshot()) else old(Snapshot()).(accounts := PutAccount(old(accounts), a))
    {
      if fault.Some? { return Err(fault.value); }
      accounts := PutAccount(accounts, a);
      r := Ok(());
    }

    method DeleteAccounts(q: AccountQuery, fault: Fault) returns (r: Result<(), string>)
      modifies this
      ensures r == if fault.Some? then Err(fault.value) else Ok(())
      ensures Snapshot() == if fault.Some? then old(Snapshot()) else old(Snapshot()).(accounts := RemoveAccounts(old(accounts), q))
    {
      if fault.Some? { return Err(fault.value); }
      accounts := RemoveAccounts(accounts, q);
      r := Ok(());
    }

    method ReadAppMetadata(environment: string, clientId: NStr, fault: Fault) returns (r: Result<Option<AppMetadata>, string>)
      ensures r == if fault.Some? then Err(fault.value) else Ok(FindAppMetadata(appMetadata, environment, clientId))
    {
      if fault.Some? { return Err(fault.value); }
      r := Ok(FindAppMetadata(appMetadata, environment, clientId));
    }

    method WriteAppMetadata(m: AppMetadata, fault: Fault) returns (r: Result<(), string>)
      modifies this
      ensures r == if fault.Some? then Err(fault.value) else Ok(())
      ensures Snapshot() == if fault.Some? then old(Snapshot()) else old(Snapshot()).(appMetadata := PutAppMetadata(old(appMetadata), m))
    {
      if fault.Some? { return Err(fault.value); }
      appMetadata := PutAppMetadata(appMetadata, m);
      r := Ok(());
    }
  }
}
