/** The account lifecycle of the sync client: an account (maybe with a token) is kept in the secure store, and
    `isAuthenticated` records whether a stored account has a token. Remote calls are inputs: each operation is
    given the outcome its remote call would have. */
module SyncLifecycle {
  import opened Wrappers

  datatype SyncAccount = SyncAccount(deviceId: string, deviceName: string, userId: string, token: Option<string>)

  datatype RegisteredDevice = RegisteredDevice(id: string, name: string, deviceType: string)

  /** What a login or a token refresh returns: the account to store and the account's devices. */
  datatype AccountResult = AccountResult(account: SyncAccount, devices: seq<RegisteredDevice>)

  datatype RemoteConnector = RemoteConnector(code: string)

  /** The errors the operations throw: the guards' own errors, an unexpected HTTP status, and any other error
      (from the remote services or the local crypto), which is passed on as it is. */
  datatype Error =
    | AccountAlreadyExists
    | AccountNotFound
    | NoToken
    | UnexpectedStatusCode(statusCode: int)
    | OtherError(description: string)

  /** The stored account and the authentication flag. */
  datatype SyncState = SyncState(account: Option<SyncAccount>, isAuthenticated: bool)

  /** The new state of an operation that returns nothing, and whether it threw. */
  datatype Done = Done(state: SyncState, outcome: Outcome<Error>)

  /** The new state of an operation that returns devices, and the devices or the error. */
  datatype Listed = Listed(state: SyncState, result: Result<seq<RegisteredDevice>, Error>)

  function HasToken(account: Option<SyncAccount>): bool {
    account.Some? && account.value.token.Some?
  }

  /** The flag agrees with the store. */
  predicate Valid(s: SyncState) {
    s.isAuthenticated == HasToken(s.account)
  }

  /** The state at initialisation, from what the store holds. */
  function Initial(stored: Option<SyncAccount>): SyncState {
    SyncState(stored, HasToken(stored))
  }

  /** `updateIsAuthenticated`. */
  function UpdateIsAuthenticated(s: SyncState): SyncState {
    s.(isAuthenticated := HasToken(s.account))
  }

  /** `handleUnauthenticated`: a 401 removes the account and is swallowed; every other error is rethrown. */
  function HandleUnauthenticated(s: SyncState, e: Error): Done {
    if e == UnexpectedStatusCode(401) then Done(UpdateIsAuthenticated(s.(account := None)), Pass)
    else Done(s, Fail(e))
  }

  function CreateAccount(s: SyncState, created: Result<SyncAccount, Error>): Done {
    if s.account.Some? then Done(s, Fail(AccountAlreadyExists))
    else match created
      case Failure(e) => Done(s, Fail(e))
      case Success(account) => Done(UpdateIsAuthenticated(s.(account := Some(account))), Pass)
  }

  function Login(s: SyncState, loggedIn: Result<AccountResult, Error>): Done {
    if s.account.Some? then Done(s, Fail(AccountAlreadyExists))
    else match loggedIn
      case Failure(e) => Done(s, Fail(e))
      case Success(result) => Done(UpdateIsAuthenticated(s.(account := Some(result.account))), Pass)
  }

  /** `remoteConnect`: the connector is prepared only when no account is stored; nothing is stored. */
  function RemoteConnect(s: SyncState, prepared: Result<RemoteConnector, Error>): Result<RemoteConnector, Error> {
    if s.account.Some? then Failure(AccountAlreadyExists) else prepared
  }

  function TransmitRecoveryKey(s: SyncState, sent: Outcome<Error>): Done {
    if s.account.None? then Done(s, Fail(AccountNotFound))
    else match sent
      case Pass => Done(s, Pass)
      case Fail(e) => HandleUnauthenticated(s, e)
  }

  /** `disconnect(deviceId:)`: logs the device out with the stored token. */
  function DisconnectDevice(s: SyncState, deviceId: string, logout: Outcome<Error>): Done {
    if !HasToken(s.account) then Done(s, Fail(NoToken))
    else match logout
      case Pass => Done(s, Pass)
      case Fail(e) => HandleUnauthenticated(s, e)
  }

  /** `disconnect()`: logs this device out and removes the account. */
  function Disconnect(s: SyncState, logout: Outcome<Error>): Done {
    if s.account.None? then Done(s, Fail(AccountNotFound))
    else
      var d := DisconnectDevice(s, s.account.value.deviceId, logout);
      match d.outcome
      case Pass => Done(UpdateIsAuthenticated(d.state.(account := None)), Pass)
      case Fail(e) =>
        var h := HandleUnauthenticated(d.state, e);
        if h.outcome.Pass? then Done(UpdateIsAuthenticated(h.state), Pass) else h
  }

  function FetchDevices(s: SyncState, fetched: Result<seq<RegisteredDevice>, Error>): Listed {
    if s.account.None? then Listed(s, Failure(AccountNotFound))
    else match fetched
      case Success(devices) => Listed(s, Success(devices))
      case Failure(e) =>
        var h := HandleUnauthenticated(s, e);
        Listed(h.state, if h.outcome.Pass? then Success([]) else Failure(e))
  }

  /** `updateDeviceName` as the source has it: the refreshed account is stored without updating the flag. */
  function UpdateDeviceNameAsWritten(s: SyncState, refreshed: Result<AccountResult, Error>): Listed {
    if s.account.None? then Listed(s, Failure(AccountNotFound))
    else match refreshed
      case Success(result) => Listed(s.(account := Some(result.account)), Success(result.devices))
      case Failure(e) =>
        var h := HandleUnauthenticated(s, e);
        Listed(h.state, if h.outcome.Pass? then Success([]) else Failure(e))
  }

  /** `updateDeviceName`, with the flag updated after the refreshed account is stored, as every other operation
      that stores an account does. */
  function UpdateDeviceName(s: SyncState, refreshed: Result<AccountResult, Error>): Listed {
    if s.account.None? then Listed(s, Failure(AccountNotFound))
    else match refreshed
      case Success(result) => Listed(UpdateIsAuthenticated(s.(account := Some(result.account))), Success(result.devices))
      case Failure(e) =>
        var h := HandleUnauthenticated(s, e);
        Listed(h.state, if h.outcome.Pass? then Success([]) else Failure(e))
  }

  function DeleteAccount(s: SyncState, deleted: Outcome<Error>): Done {
    if s.account.None? then Done(s, Fail(AccountNotFound))
    else match deleted
      case Pass => Done(UpdateIsAuthenticated(s.(account := None)), Pass)
      case Fail(e) => HandleUnauthenticated(s, e)
  }
}

/** The sync client as an object whose methods update the stored account and the flag in place. */
module SyncClient {
  import opened Wrappers
  import opened SyncLifecycle

  /** The sync client: the secure store's account and the published authentication flag. */
  class DDGSync {
    var account: Option<SyncAccount>
    var isAuthenticated: bool

    function State(): SyncState
      reads this
    {
      SyncState(account, isAuthenticated)
    }

    constructor (stored: Option<SyncAccount>)
      ensures State() == Initial(stored)
    {
      account := stored;
      isAuthenticated := stored.Some? && stored.value.token.Some?;
    }

    method UpdateIsAuthenticatedFlag()
      modifies this
      ensures State() == UpdateIsAuthenticated(old(State()))
    {
      isAuthenticated := account.Some? && account.value.token.Some?;
    }

    method HandleUnauthenticatedError(e: Error) returns (outcome: Outcome<Error>)
      modifies this
      ensures Done(State(), outcome) == HandleUnauthenticated(old(State()), e)
    {
      if e != UnexpectedStatusCode(401) {
        return Fail(e);
      }
      account := None;
      UpdateIsAuthenticatedFlag();
      outcome := Pass;
    }

    method CreateAccount(created: Result<SyncAccount, Error>) returns (outcome: Outcome<Error>)
      modifies this
      ensures Done(State(), outcome) == SyncLifecycle.CreateAccount(old(State()), created)
    {
      if account.Some? {
        return Fail(AccountAlreadyExists);
      }
      match created
      case Failure(e) =>
        outcome := Fail(e);
      case Success(a) =>
        account := Some(a);
        UpdateIsAuthenticatedFlag();
        outcome := Pass;
    }

    method Login(loggedIn: Result<AccountResult, Error>) returns (outcome: Outcome<Error>)
      modifies this
      ensures Done(State(), outcome) == SyncLifecycle.Login(old(State()), loggedIn)
    {
      if account.Some? {
        return Fail(AccountAlreadyExists);
      }
      match loggedIn
      case Failure(e) =>
        outcome := Fail(e);
      case Success(result) =>
        account := Some(result.account);
        UpdateIsAuthenticatedFlag();
        outcome := Pass;
    }

    method RemoteConnect(prepared: Result<RemoteConnector, Error>) returns (r: Result<RemoteConnector, Error>)
      ensures r == SyncLifecycle.RemoteConnect(State(), prepared)
    {
      if account.Some? {
        return Failure(AccountAlreadyExists);
      }
      r := prepared;
    }

    method TransmitRecoveryKey(sent: Outcome<Error>) returns (outcome: Outcome<Error>)
      modifies this
      ensures Done(State(), outcome) == SyncLifecycle.TransmitRecoveryKey(old(State()), sent)
    {
      if account.None? {
        return Fail(AccountNotFound);
      }
      outcome := Pass;
      if sent.Fail? {
        outcome := HandleUnauthenticatedError(sent.error);
      }
    }

    method DisconnectDevice(deviceId: string, logout: Outcome<Error>) returns (outcome: Outcome<Error>)
      modifies this
      ensures Done(State(), outcome) == SyncLifecycle.DisconnectDevice(old(State()), deviceId, logout)
    {
      if account.None? || account.value.token.None? {
        return Fail(NoToken);
      }
      outcome := Pass;
      if logout.Fail? {
        outcome := HandleUnauthenticatedError(logout.error);
      }
    }

    method Disconnect(logout: Outcome<Error>) returns (outcome: Outcome<Error>)
      modifies this
      ensures Done(State(), outcome) == SyncLifecycle.Disconnect(old(State()), logout)
    {
      if account.None? {
        return Fail(AccountNotFound);
      }
      var disconnected := DisconnectDevice(account.value.deviceId, logout);
      if disconnected.Pass? {
        account := None;
      } else {
        outcome := HandleUnauthenticatedError(disconnected.error);
        if outcome.Fail? {
          return;
        }
      }
      UpdateIsAuthenticatedFlag();
      outcome := Pass;
    }

    method FetchDevices(fetched: Result<seq<RegisteredDevice>, Error>) returns (r: Result<seq<RegisteredDevice>, Error>)
      modifies this
      ensures Listed(State(), r) == SyncLifecycle.FetchDevices(old(State()), fetched)
    {
      if account.None? {
        return Failure(AccountNotFound);
      }
      match fetched
      case Success(devices) =>
        r := Success(devices);
      case Failure(e) =>
        var handled := HandleUnauthenticatedError(e);
        r := if handled.Pass? then Success([]) else Failure(e);
    }

    method UpdateDeviceName(refreshed: Result<AccountResult, Error>) returns (r: Result<seq<RegisteredDevice>, Error>)
      modifies this
      ensures Listed(State(), r) == SyncLifecycle.UpdateDeviceName(old(State()), refreshed)
    {
      if account.None? {
        return Failure(AccountNotFound);
      }
      match refreshed
      case Success(result) =>
        account := Some(result.account);
        UpdateIsAuthenticatedFlag();
        r := Success(result.devices);
      case Failure(e) =>
        var handled := HandleUnauthenticatedError(e);
        r := if handled.Pass? then Success([]) else Failure(e);
    }

    method DeleteAccount(deleted: Outcome<Error>) returns (outcome: Outcome<Error>)
      modifies this
      ensures Done(State(), outcome) == SyncLifecycle.DeleteAccount(old(State()), deleted)
    {
      if account.None? {
        return Fail(AccountNotFound);
      }
      match deleted
      case Pass =>
        account := None;
        UpdateIsAuthenticatedFlag();
        outcome := Pass;
      case Fail(e) =>
        outcome := HandleUnauthenticatedError(e);
    }
  }
}

/** What the lifecycle guarantees: the guards, the 401 rule, and that the flag always agrees with the store. */
module SyncProperties {
  import opened Wrappers
  import opened SyncLifecycle

  /** One account operation, with the outcome of its remote call. */
  datatype Op =
    | CreateAccountOp(created: Result<SyncAccount, Error>)
    | LoginOp(loggedIn: Result<AccountResult, Error>)
    | TransmitRecoveryKeyOp(sent: Outcome<Error>)
    | DisconnectDeviceOp(deviceId: string, logout: Outcome<Error>)
    | DisconnectOp(logout: Outcome<Error>)
    | FetchDevicesOp(fetched: Result<seq<RegisteredDevice>, Error>)
    | UpdateDeviceNameOp(refreshed: Result<AccountResult, Error>)
    | DeleteAccountOp(deleted: Outcome<Error>)

  function Apply(s: SyncState, op: Op): SyncState {
    match op
    case CreateAccountOp(created) => CreateAccount(s, created).state
    case LoginOp(loggedIn) => Login(s, loggedIn).state
    case TransmitRecoveryKeyOp(sent) => TransmitRecoveryKey(s, sent).state
    case DisconnectDeviceOp(deviceId, logout) => DisconnectDevice(s, deviceId, logout).state
    case DisconnectOp(logout) => Disconnect(s, logout).state
    case FetchDevicesOp(fetched) => FetchDevices(s, fetched).state
    case UpdateDeviceNameOp(refreshed) => UpdateDeviceName(s, refreshed).state
    case DeleteAccountOp(deleted) => DeleteAccount(s, deleted).state
  }

  /** The state after a sequence of operations, starting from `s`. */
  function Run(s: SyncState, ops: seq<Op>): SyncState
    decreases |ops|
  {
    if ops == [] then s else Run(Apply(s, ops[0]), ops[1..])
  }

  /** Creating an account, logging in and connecting remotely refuse to run while an account is stored, and
      leave the store as it is. */
  lemma AccountAlreadyExistsGuard(s: SyncState, created: Result<SyncAccount, Error>,
                                  loggedIn: Result<AccountResult, Error>, prepared: Result<RemoteConnector, Error>)
    requires s.account.Some?
    ensures CreateAccount(s, created) == Done(s, Fail(AccountAlreadyExists))
    ensures Login(s, loggedIn) == Done(s, Fail(AccountAlreadyExists))
    ensures RemoteConnect(s, prepared) == Failure(AccountAlreadyExists)
  {
  }

  /** Every operation on an existing account refuses to run when none is stored, and changes nothing. */
  lemma AccountNotFoundGuard(s: SyncState, sent: Outcome<Error>, logout: Outcome<Error>,
                             fetched: Result<seq<RegisteredDevice>, Error>, refreshed: Result<AccountResult, Error>,
                             deleted: Outcome<Error>)
    requires s.account.None?
    ensures TransmitRecoveryKey(s, sent) == Done(s, Fail(AccountNotFound))
    ensures Disconnect(s, logout) == Done(s, Fail(AccountNotFound))
    ensures FetchDevices(s, fetched) == Listed(s, Failure(AccountNotFound))
    ensures UpdateDeviceName(s, refreshed) == Listed(s, Failure(AccountNotFound))
    ensures DeleteAccount(s, deleted) == Done(s, Fail(AccountNotFound))
  {
  }

  /** Logging a device out needs a stored token; without one, disconnecting this device fails in the same way,
      and the store is left alone. */
  lemma NoTokenGuard(s: SyncState, deviceId: string, logout: Outcome<Error>)
    requires !HasToken(s.account)
    ensures DisconnectDevice(s, deviceId, logout) == Done(s, Fail(NoToken))
    ensures s.account.Some? ==> Disconnect(s, logout) == Done(s, Fail(NoToken))
  {
  }

  /** Only an HTTP 401 removes the account, and it is then swallowed; every other error is rethrown unchanged and
      the state is untouched. */
  lemma UnauthorizedRule(s: SyncState, e: Error)
    ensures var h := HandleUnauthenticated(s, e);
      && (h.outcome.Pass? <==> e == UnexpectedStatusCode(401))
      && (h.outcome.Pass? ==> h.state.account.None? && !h.state.isAuthenticated)
      && (h.outcome.Fail? ==> h.state == s && h.outcome.error == e)
  {
  }

  /** A successful account creation or login stores the returned account, and the flag then says whether it came
      with a token. */
  lemma RegistrationStoresAccount(s: SyncState, account: SyncAccount, result: AccountResult)
    requires s.account.None?
    ensures CreateAccount(s, Success(account)) == Done(SyncState(Some(account), account.token.Some?), Pass)
    ensures Login(s, Success(result)) == Done(SyncState(Some(result.account), result.account.token.Some?), Pass)
  {
  }

  /** Fetching devices or renaming this device gives the empty list after a swallowed 401, which removes the
      account; any other failure is rethrown with the state untouched. */
  lemma ListsAfterFailure(s: SyncState, e: Error)
    requires s.account.Some?
    ensures var f := FetchDevices(s, Failure(e));
      && (e == UnexpectedStatusCode(401) ==> f == Listed(SyncState(None, false), Success([])))
      && (e != UnexpectedStatusCode(401) ==> f == Listed(s, Failure(e)))
    ensures var u := UpdateDeviceName(s, Failure(e));
      && (e == UnexpectedStatusCode(401) ==> u == Listed(SyncState(None, false), Success([])))
      && (e != UnexpectedStatusCode(401) ==> u == Listed(s, Failure(e)))
  {
  }

  /** The operations that rely on `handleUnauthenticated` and whose remote call answered 401. */
  predicate Unauthorized(op: Op) {
    var e := Fail(UnexpectedStatusCode(401));
    || (op.TransmitRecoveryKeyOp? && op.sent == e)
    || (op.DisconnectDeviceOp? && op.logout == e)
    || (op.DisconnectOp? && op.logout == e)
    || (op.FetchDevicesOp? && op.fetched == Failure(UnexpectedStatusCode(401)))
    || (op.UpdateDeviceNameOp? && op.refreshed == Failure(UnexpectedStatusCode(401)))
    || (op.DeleteAccountOp? && op.deleted == e)
  }

  /** The operations whose purpose is to remove the account, when their remote call succeeds. */
  predicate Removes(op: Op) {
    (op.DisconnectOp? && op.logout.Pass?) || (op.DeleteAccountOp? && op.deleted.Pass?)
  }

  /** A stored account disappears only through a successful disconnect or deletion, or a 401; with a token
      stored, each of those does remove it. */
  lemma AccountRemoval(s: SyncState, op: Op)
    requires s.account.Some?
    ensures Apply(s, op).account.None? ==> Removes(op) || Unauthorized(op)
    ensures HasToken(s.account) && (Removes(op) || Unauthorized(op)) ==> Apply(s, op).account.None?
  {
  }

  /** Every operation keeps the flag in agreement with the store. */
  lemma ValidPreserved(s: SyncState, op: Op)
    requires Valid(s)
    ensures Valid(Apply(s, op))
  {
  }

  /** The flag agrees with the store at initialisation and after any sequence of operations. */
  lemma {:induction false} ValidAlways(stored: Option<SyncAccount>, ops: seq<Op>)
    ensures Valid(Initial(stored))
    ensures Valid(Run(Initial(stored), ops))
  {
    ValidAlong(Initial(stored), ops);
  }

  lemma {:induction false} ValidAlong(s: SyncState, ops: seq<Op>)
    requires Valid(s)
    ensures Valid(Run(s, ops))
    decreases |ops|
  {
    if ops != [] {
      ValidPreserved(s, ops[0]);
      ValidAlong(Apply(s, ops[0]), ops[1..]);
    }
  }

  /** As the source has it, renaming this device can leave the flag disagreeing with the store: a stored account
      without a token, refreshed into one with a token, leaves `isAuthenticated` false. */
  lemma UpdateDeviceNameLeavesFlagStale()
    ensures var s := SyncState(Some(SyncAccount("device", "old", "user", None)), false);
      var refreshed := Success(AccountResult(SyncAccount("device", "new", "user", Some("token")), []));
      && Valid(s)
      && !Valid(UpdateDeviceNameAsWritten(s, refreshed).state)
      && Valid(UpdateDeviceName(s, refreshed).state)
  {
  }

  /** The corrected rename differs from the source's only in the flag. */
  lemma UpdateDeviceNameOnlyFlagDiffers(s: SyncState, refreshed: Result<AccountResult, Error>)
    ensures UpdateDeviceName(s, refreshed).state.account == UpdateDeviceNameAsWritten(s, refreshed).state.account
    ensures UpdateDeviceName(s, refreshed).result == UpdateDeviceNameAsWritten(s, refreshed).result
    ensures refreshed.Failure? || s.account.None? ==> UpdateDeviceName(s, refreshed) == UpdateDeviceNameAsWritten(s, refreshed)
  {
  }
}
