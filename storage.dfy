/**
 * The storage manager: the exception boundary around the storage worker. Every wrapped call
 * either returns the worker's result with a Success status, or turns the worker's fault into
 * a fixed Failure status; nothing is re-raised. The legacy cache manager is held but never
 * called, so no operation touches the legacy store.
 */
module Storage {
  import opened Wrappers
  import opened Text
  import opened Schema
  import opened Worker

  /** The prior-generation cache the manager holds a reference to. */
  class LegacyCacheManager {
    var refreshTokens: seq<string>

    constructor (refreshTokens: seq<string>)
      ensures this.refreshTokens == refreshTokens
    {
      this.refreshTokens := refreshTokens;
    }
  }

  datatype ReadCredentialsResponse = ReadCredentialsResponse(credentials: Option<seq<Credential>>, status: OperationStatus)

  datatype ReadAccountResponse = ReadAccountResponse(account: Option<Account>, status: OperationStatus)

  /** The Failure status a raised fault becomes. */
  function HandleException(message: string): (r: OperationStatus)
    ensures r.statusType == Failure
    ensures r.code == -1 && r.platformCode == -1
    ensures r.platformDomain == "" && r.statusDescription == message
  {
    OperationStatus(Failure, -1, -1, "", message)
  }

  /** The status a wrapped call returns for a given worker outcome. */
  function StatusFor(fault: Fault): (r: OperationStatus)
    ensures r.statusType == Success <==> fault.None?
    ensures fault.Some? ==> r == HandleException(fault.value)
  {
    if fault.Some? then HandleException(fault.value) else CreateSuccess()
  }

  class StorageManager {
    const worker: InMemoryStorageWorker
    const legacyCacheManager: LegacyCacheManager

    constructor (worker: InMemoryStorageWorker, legacyCacheManager: LegacyCacheManager)
      ensures this.worker == worker && this.legacyCacheManager == legacyCacheManager
    {
      this.worker := worker;
      this.legacyCacheManager := legacyCacheManager;
    }

    /** Whole-cache export is unsupported: it always raises NotImplementedException. */
    method Serialize() returns (r: Result<seq<bv8>, CacheException>)
      ensures r == Err(NotImplementedException)
    {
      r := Err(NotImplementedException);
    }

    /** Whole-cache import is unsupported: it always raises NotImplementedException. */
    method Deserialize(serializedBytes: seq<bv8>) returns (r: Result<(), CacheException>)
      ensures r == Err(NotImplementedException)
    {
      r := Err(NotImplementedException);
    }

    method ReadCredentials(
      correlationId: string, homeAccountId: NStr, environment: string, realm: string, clientId: NStr,
      familyId: string, target: string, types: set<CredentialType>, fault: Fault)
      returns (r: ReadCredentialsResponse)
      ensures r.status == StatusFor(fault)
      ensures r.credentials.Some? <==> fault.None?
      ensures fault.None? ==>
        r.credentials.value == Query(worker.credentials, CredentialQuery(homeAccountId, environment, realm, clientId, familyId, target, types))
    {
      var outcome := worker.ReadCredentials(CredentialQuery(homeAccountId, environment, realm, clientId, familyId, target, types), fault);
      match outcome
      case Ok(credentials) =>
        r := ReadCredentialsResponse(Some(credentials), CreateSuccess());
      case Err(message) =>
        r := ReadCredentialsResponse(None, HandleException(message));
    }

    method WriteCredentials(correlationId: string, credentials: seq<Credential>, fault: Fault) returns (status: OperationStatus)
      modifies worker
      ensures status == StatusFor(fault)
      ensures worker.Snapshot() == if fault.Some? then old(worker.Snapshot())
                                   else old(worker.Snapshot()).(credentials := WriteAll(old(worker.credentials), credentials))
      ensures unchanged(legacyCacheManager)
    {
      var outcome := worker.WriteCredentials(credentials, fault);
      match outcome
      case Ok(_) => status := CreateSuccess();
      case Err(message) => status := HandleException(message);
    }

    method DeleteCredentials(
      correlationId: string, homeAccountId: NStr, environment: string, realm: string, clientId: NStr,
      familyId: string, target: string, types: set<CredentialType>, fault: Fault)
      returns (status: OperationStatus)
      modifies worker
      ensures status == StatusFor(fault)
      ensures worker.Snapshot() == if fault.Some? then old(worker.Snapshot())
        else old(worker.Snapshot()).(credentials := RemoveMatching(old(worker.credentials),
          CredentialQuery(homeAccountId, environment, realm, clientId, familyId, target, types)))
      ensures unchanged(legacyCacheManager)
    {
      var outcome := worker.DeleteCredentials(CredentialQuery(homeAccountId, environment, realm, clientId, familyId, target, types), fault);
      match outcome
      case Ok(_) => status := CreateSuccess();
      case Err(message) => status := HandleException(message);
    }

    /** Reading every account is unsupported: it always raises NotImplementedException. */
    method ReadAllAccounts(correlationId: string) returns (r: Result<seq<Account>, CacheException>)
      ensures r == Err(NotImplementedException)
    {
      r := Err(NotImplementedException);
    }

    method ReadAccount(correlationId: string, homeAccountId: NStr, environment: string, realm: string, fault: Fault)
      returns (r: ReadAccountResponse)
      ensures r.status == StatusFor(fault)
      ensures r.account == if fault.Some? then None
                           else FindAccount(worker.accounts, AccountQuery(homeAccountId, environment, Some(realm)))
    {
      var outcome := worker.ReadAccount(AccountQuery(homeAccountId, environment, Some(realm)), fault);
      match outcome
      case Ok(account) => r := ReadAccountResponse(account, CreateSuccess());
      case Err(message) => r := ReadAccountResponse(None, HandleException(message));
    }

    method WriteAccount(correlationId: string, account: Account, fault: Fault) returns (status: OperationStatus)
      modifies worker
      ensures status == StatusFor(fault)
      ensures worker.Snapshot() == if fault.Some? then old(worker.Snapshot())
                                   else old(worker.Snapshot()).(accounts := PutAccount(old(worker.accounts), account))
      ensures unchanged(legacyCacheManager)
    {
      var outcome := worker.WriteAccount(account, fault);
      match outcome
      case Ok(_) => status := CreateSuccess();
      case Err(message) => status := HandleException(message);
    }

    method DeleteAccount(correlationId: string, homeAccountId: NStr, environment: string, realm: string, fault: Fault)
      returns (status: OperationStatus)
      modifies worker
      ensures status == StatusFor(fault)
      ensures worker.Snapshot() == if fault.Some? then old(worker.Snapshot())
        else old(worker.Snapshot()).(accounts := RemoveAccounts(old(worker.accounts), AccountQuery(homeAccountId, environment, Some(realm))))
      ensures unchanged(legacyCacheManager)
    {
      var outcome := worker.DeleteAccounts(AccountQuery(homeAccountId, environment, Some(realm)), fault);
      match outcome
      case Ok(_) => status := CreateSuccess();
      case Err(message) => status := HandleException(message);
    }

    method DeleteAccounts(correlationId: string, homeAccountId: NStr, environment: string, fault: Fault)
      returns (status: OperationStatus)
      modifies worker
      ensures status == StatusFor(fault)
      ensures worker.Snapshot() == if fault.Some? then old(worker.Snapshot())
        else old(worker.Snapshot()).(accounts := RemoveAccounts(old(worker.accounts), AccountQuery(homeAccountId, environment, None)))
      ensures unchanged(legacyCacheManager)
    {
      var outcome := worker.DeleteAccounts(AccountQuery(homeAccountId, environment, None), fault);
      match outcome
      case Ok(_) => status := CreateSuccess();
      case Err(message) => status := HandleException(message);
    }

    /** Returns the worker's record (possibly null), or null when the worker raises. */
    method ReadAppMetadata(environment: string, clientId: NStr, fault: Fault) returns (r: Option<AppMetadata>)
      ensures r == if fault.Some? then None else FindAppMetadata(worker.appMetadata, environment, clientId)
    {
      var outcome := worker.ReadAppMetadata(environment, clientId, fault);
      match outcome
      case Ok(m) => r := m;
      case Err(message) =>
        var _ := HandleException(message);
        r := None;
    }

    /** Writes the record; a fault is swallowed and nothing is reported. */
    method WriteAppMetadata(appMetadata: AppMetadata, fault: Fault)
      modifies worker
      ensures worker.Snapshot() == if fault.Some? then old(worker.Snapshot())
                                   else old(worker.Snapshot()).(appMetadata := PutAppMetadata(old(worker.appMetadata), appMetadata))
      ensures unchanged(legacyCacheManager)
    {
      var outcome := worker.WriteAppMetadata(appMetadata, fault);
      match outcome
      case Ok(_) =>
      case Err(message) => var _ := HandleException(message);
    }
  }
}
