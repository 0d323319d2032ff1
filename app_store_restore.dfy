/** Restoring a subscription account from a past App Store purchase: a fixed chain of remote stages (store
    login, token exchange, account details, subscription), where the first stage that fails decides the error,
    and the account is stored only when the subscription is active. The outcome of each remote stage is an
    input. */
module AppStoreRestore {
  import opened Wrappers

  datatype RestoredAccountDetails = RestoredAccountDetails(
    authToken: string, accessToken: string, externalID: string, email: Option<string>)

  datatype RestoreError =
    | MissingAccountOrTransactions
    | PastTransactionAuthenticationError
    | FailedToObtainAccessToken
    | FailedToFetchAccountDetails
    | FailedToFetchSubscriptionDetails
    | SubscriptionExpired(accountDetails: RestoredAccountDetails)

  datatype AccountDetails = AccountDetails(email: Option<string>, externalID: string)

  datatype Subscription = Subscription(isActive: bool)

  /** What each remote stage answers: the most recent transaction (or none), the auth token from the store
      login, the access token from the exchange, the account details, and the subscription; `None` is a
      failure. */
  datatype Remote = Remote(
    mostRecentTransaction: Option<string>,
    storeLogin: Option<string>,
    exchange: Option<string>,
    accountDetails: Option<AccountDetails>,
    subscription: Option<Subscription>)

  /** A remote call the flow makes, with its argument. */
  datatype Call =
    | StoreLogin(signature: string)
    | ExchangeAuthToken(authToken: string)
    | FetchAccountDetails(accessToken: string)
    | GetSubscription(accessToken: string)
  {
    /** The stage that makes this call (stage 0, the most recent transaction, makes no remote call). */
    function Stage(): nat {
      match this
      case StoreLogin(_) => 1
      case ExchangeAuthToken(_) => 2
      case FetchAccountDetails(_) => 3
      case GetSubscription(_) => 4
    }
  }

  /** What a successful restore stores: the auth token, then the account. */
  datatype StoredAccount = StoredAccount(token: string, email: Option<string>, externalID: string)

  datatype Restoration = Restoration(
    outcome: Outcome<RestoreError>,
    calls: seq<Call>,
    stored: Option<(string, StoredAccount)>)

  /** `restoreAccountFromPastPurchase`. */
  function Restore(remote: Remote): Restoration {
    match remote.mostRecentTransaction
    case None => Restoration(Fail(MissingAccountOrTransactions), [], None)
    case Some(jws) =>
      var c1 := [StoreLogin(jws)];
      match remote.storeLogin
      case None => Restoration(Fail(PastTransactionAuthenticationError), c1, None)
      case Some(authToken) =>
        var c2 := c1 + [ExchangeAuthToken(authToken)];
        match remote.exchange
        case None => Restoration(Fail(FailedToObtainAccessToken), c2, None)
        case Some(accessToken) =>
          var c3 := c2 + [FetchAccountDetails(accessToken)];
          match remote.accountDetails
          case None => Restoration(Fail(FailedToFetchAccountDetails), c3, None)
          case Some(details) =>
            var c4 := c3 + [GetSubscription(accessToken)];
            match remote.subscription
            case None => Restoration(Fail(FailedToFetchSubscriptionDetails), c4, None)
            case Some(subscription) =>
              if subscription.isActive then
                Restoration(Pass, c4, Some((authToken, StoredAccount(accessToken, details.email, details.externalID))))
              else
                Restoration(
                  Fail(SubscriptionExpired(
                    RestoredAccountDetails(authToken, accessToken, details.externalID, details.email))),
                  c4, None)
  }

  // ---------------------------------------------------------------------------------------------------------
  // The stages as a list, a reference for the chain

  const StageCount := 5

  /** Whether stage `i` (0: most recent transaction, 1: store login, 2: exchange, 3: account details,
      4: subscription) succeeds. */
  predicate StageSucceeds(remote: Remote, i: nat)
    requires i < StageCount
  {
    if i == 0 then remote.mostRecentTransaction.Some?
    else if i == 1 then remote.storeLogin.Some?
    else if i == 2 then remote.exchange.Some?
    else if i == 3 then remote.accountDetails.Some?
    else remote.subscription.Some?
  }

  /** The error a failure of stage `i` maps to. */
  function StageError(i: nat): RestoreError
    requires i < StageCount
  {
    [MissingAccountOrTransactions, PastTransactionAuthenticationError, FailedToObtainAccessToken,
     FailedToFetchAccountDetails, FailedToFetchSubscriptionDetails][i]
  }

  /** The first stage that fails, if any. */
  function FirstFailure(remote: Remote, from: nat): (r: Option<nat>)
    requires from <= StageCount
    ensures r.Some? ==> from <= r.value < StageCount && !StageSucceeds(remote, r.value)
    ensures r.Some? ==> forall j :: from <= j < r.value ==> StageSucceeds(remote, j)
    ensures r.None? ==> forall j :: from <= j < StageCount ==> StageSucceeds(remote, j)
    decreases StageCount - from
  {
    if from == StageCount then None
    else if !StageSucceeds(remote, from) then Some(from)
    else FirstFailure(remote, from + 1)
  }

  /** The first failing stage decides the error, and the stages after it are never called: the calls made are
      those of stages 1 to i in order, the failing stage's own call included (stage 0 makes none)... */
  lemma FirstFailureDecides(remote: Remote)
    requires FirstFailure(remote, 0).Some?
    ensures var i := FirstFailure(remote, 0).value;
      && Restore(remote).outcome == Fail(StageError(i))
      && |Restore(remote).calls| == i
      && (forall j :: 0 <= j < |Restore(remote).calls| ==> Restore(remote).calls[j].Stage() == j + 1)
      && Restore(remote).stored.None?
  {
  }

  /** ...and when every stage succeeds, all four remote calls are made, each with what the one before it
      returned. */
  lemma AllStagesCalled(remote: Remote)
    requires FirstFailure(remote, 0).None?
    ensures Restore(remote).calls == [
      StoreLogin(remote.mostRecentTransaction.value),
      ExchangeAuthToken(remote.storeLogin.value),
      FetchAccountDetails(remote.exchange.value),
      GetSubscription(remote.exchange.value)]
  {
  }

  /** Every error but an expired subscription belongs to exactly one failing stage. */
  lemma StageErrorsDistinct(i: nat, j: nat)
    requires i < StageCount && j < StageCount
    ensures StageError(i) == StageError(j) <==> i == j
    ensures !StageError(i).SubscriptionExpired?
  {
  }

  /** Without a recent transaction nothing is called and the error is the missing transaction. */
  lemma NoTransaction(remote: Remote)
    requires remote.mostRecentTransaction.None?
    ensures Restore(remote) == Restoration(Fail(MissingAccountOrTransactions), [], None)
  {
  }

  /** An active subscription stores the auth token and the account (access token, email, external id) and
      succeeds; an inactive one stores nothing and fails with exactly the restored details. */
  lemma SubscriptionDecides(remote: Remote)
    requires FirstFailure(remote, 0).None?
    ensures var r := Restore(remote);
      var details := remote.accountDetails.value;
      && (remote.subscription.value.isActive ==>
            && r.outcome == Pass
            && r.stored == Some((remote.storeLogin.value,
                                 StoredAccount(remote.exchange.value, details.email, details.externalID))))
      && (!remote.subscription.value.isActive ==>
            && r.outcome == Fail(SubscriptionExpired(RestoredAccountDetails(
                 remote.storeLogin.value, remote.exchange.value, details.externalID, details.email)))
            && r.stored.None?)
  {
  }

  /** Something is stored exactly when the restore succeeds. */
  lemma StoredOnlyOnSuccess(remote: Remote)
    ensures Restore(remote).stored.Some? <==> Restore(remote).outcome.Pass?
    ensures Restore(remote).outcome.Pass? <==> FirstFailure(remote, 0).None? && remote.subscription.value.isActive
  {
  }

  // ---------------------------------------------------------------------------------------------------------
  // The account manager the flow stores into

  class AccountManager {
    var authToken: Option<string>
    var account: Option<StoredAccount>

    constructor ()
      ensures authToken.None? && account.None?
    {
      authToken := None;
      account := None;
    }

    method StoreAuthToken(token: string)
      modifies this
      ensures authToken == Some(token) && account == old(account)
    {
      authToken := Some(token);
    }

    method StoreAccount(token: string, email: Option<string>, externalID: string)
      modifies this
      ensures account == Some(StoredAccount(token, email, externalID)) && authToken == old(authToken)
    {
      account := Some(StoredAccount(token, email, externalID));
    }
  }

  class AppStoreRestoreFlow {
    const accountManager: AccountManager

    constructor (accountManager: AccountManager)
      ensures this.accountManager == accountManager
    {
      this.accountManager := accountManager;
    }

    /** Runs the stages in order, returning at the first failure, and stores the tokens and the account only on
        an active subscription. */
    method RestoreAccountFromPastPurchase(remote: Remote) returns (outcome: Outcome<RestoreError>, calls: seq<Call>)
      modifies accountManager
      ensures outcome == Restore(remote).outcome && calls == Restore(remote).calls
      ensures Restore(remote).stored.Some? ==>
        accountManager.authToken == Some(Restore(remote).stored.value.0)
        && accountManager.account == Some(Restore(remote).stored.value.1)
      ensures Restore(remote).stored.None? ==>
        accountManager.authToken == old(accountManager.authToken) && accountManager.account == old(accountManager.account)
    {
      calls := [];
      if remote.mostRecentTransaction.None? {
        return Fail(MissingAccountOrTransactions), calls;
      }
      var jws := remote.mostRecentTransaction.value;

      calls := calls + [StoreLogin(jws)];
      if remote.storeLogin.None? {
        return Fail(PastTransactionAuthenticationError), calls;
      }
      var authToken := remote.storeLogin.value;

      calls := calls + [ExchangeAuthToken(authToken)];
      if remote.exchange.None? {
        return Fail(FailedToObtainAccessToken), calls;
      }
      var accessToken := remote.exchange.value;

      calls := calls + [FetchAccountDetails(accessToken)];
      if remote.accountDetails.None? {
        return Fail(FailedToFetchAccountDetails), calls;
      }
      var email := remote.accountDetails.value.email;
      var externalID := remote.accountDetails.value.externalID;

      var isSubscriptionActive := false;
      calls := calls + [GetSubscription(accessToken)];
      if remote.subscription.None? {
        return Fail(FailedToFetchSubscriptionDetails), calls;
      }
      isSubscriptionActive := remote.subscription.value.isActive;

      if isSubscriptionActive {
        accountManager.StoreAuthToken(authToken);
        accountManager.StoreAccount(accessToken, email, externalID);
        outcome := Pass;
      } else {
        outcome := Fail(SubscriptionExpired(RestoredAccountDetails(authToken, accessToken, externalID, email)));
      }
    }
  }
}
