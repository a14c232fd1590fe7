/** Depositing: a refund app is installed with nothing in it, the money is sent on chain, and uninstalling the app
    credits what arrived (methods/state-channel/deposit/operation.ts, controller.ts). */
module Deposits {
  import opened Amounts
  import opened AppInstances
  import opened Dictionaries
  import opened FreeBalances
  import opened InstallTransitions
  import opened LedgerRuns
  import opened Outcomes
  import opened Primitives
  import opened Results
  import opened StateChannels
  import opened WithdrawTransitions

  datatype DepositParams = DepositParams(depositor: Xpub, peer: Xpub, tokenAddress: Token, threshold: int)

  /** `installBalanceRefundApp`: the current number, nothing locked, no limit. */
  function RefundInstall(kth: Derivation, channel: StateChannel, p: DepositParams, refundAppAddress: Address): InstallParams {
    var n := channel.monotonicNumProposedApps;
    InstallParams(p.depositor, p.peer, p.tokenAddress, p.tokenAddress, 0, 0, SigningKeysFor(kth, channel, n),
                  RefundState(kth(p.depositor, 0), channel.multisigAddress, p.threshold, Some(p.tokenAddress)),
                  AppInterface(refundAppAddress, "", None), REFUND_TIMEOUT, n, SINGLE_ASSET_TWO_PARTY_COIN_TRANSFER, true)
  }

  function OfKind(apps: Assoc<Hash, AppInstance>, address: Address): seq<AppInstance> {
    if apps.Nil? then [] else
      (if apps.value.appInterface.addr == address then [apps.value] else []) + OfKind(apps.rest, address)
  }

  /** The one installed app with this address; none, or several, throw. */
  function GetAppInstanceOfKind(channel: StateChannel, address: Address): Result<AppInstance> {
    var found := OfKind(channel.appInstances, address);
    if |found| != 1 then Err(AppDoesNotExist) else Ok(found[0])
  }

  /** The three steps, when the app contract answers with `refunded` as its first transfer; a deposit in progress
      in the channel stops another. */
  function Deposit(kth: Derivation, channel: StateChannel, p: DepositParams, refundAppAddress: Address,
                   refunded: CoinTransfer, other: CoinTransfer): Result<StateChannel>
  {
    if OfKind(channel.appInstances, refundAppAddress) != [] then Err(ConsistencyError) else
    var transition :- ComputeTransition(kth, channel, RefundInstall(kth, channel, p, refundAppAddress));
    var refundApp :- GetAppInstanceOfKind(transition.0, refundAppAddress);
    var increments :- ComputeIncrements(refundApp, TwoTransfers(refunded, other));
    UninstallApp(transition.0, refundApp.IdentityHash(), increments)
  }

  /** The app stored under h is the only one with this address. */
  ghost predicate OnlyOneAt(apps: Dict<Hash, AppInstance>, address: Address, h: Hash) {
    && Has(apps, h) && Lookup(apps, h).value.appInterface.addr == address
    && forall x :: x != h && Has(apps, x) ==> Lookup(apps, x).value.appInterface.addr != address
  }

  ghost predicate NoneAt(apps: Dict<Hash, AppInstance>, address: Address) {
    forall x :: Has(apps, x) ==> Lookup(apps, x).value.appInterface.addr != address
  }

  lemma {:induction false} NoneFound(apps: Dict<Hash, AppInstance>, address: Address)
    ensures OfKind(apps, address) == [] <==> NoneAt(apps, address)
  {
    if apps.Cons? {
      var rest: Dict<Hash, AppInstance> := apps.rest;
      NoneFound(rest, address);
      assert Lookup(apps, apps.key) == Some(apps.value) && !Has(rest, apps.key);
      assert forall x :: Has(rest, x) ==> Lookup(apps, x) == Lookup(rest, x) && Has(apps, x);
      assert forall x :: x != apps.key && Has(apps, x) ==> Lookup(apps, x) == Lookup(rest, x) && Has(rest, x);
      assert NoneAt(apps, address) <==> apps.value.appInterface.addr != address && NoneAt(rest, address);
    }
  }

  lemma {:induction false} OneFound(apps: Dict<Hash, AppInstance>, address: Address, h: Hash)
    requires OnlyOneAt(apps, address, h)
    ensures OfKind(apps, address) == [Lookup(apps, h).value]
  {
    assert forall x :: x != apps.key ==> Lookup(apps, x) == Lookup(apps.rest, x) && (Has(apps, x) <==> Has(apps.rest, x));
    assert Lookup(apps, apps.key) == Some(apps.value) && !Has(apps.rest, apps.key);
    if apps.key == h {
      NoneFound(apps.rest, address);
    } else {
      assert apps.value.appInterface.addr != address;
      OneFound(apps.rest, address, h);
    }
  }

  lemma {:induction false} TwoFound(apps: Dict<Hash, AppInstance>, address: Address, h: Hash, h': Hash)
    requires h != h' && Has(apps, h) && Has(apps, h')
    requires Lookup(apps, h).value.appInterface.addr == address && Lookup(apps, h').value.appInterface.addr == address
    ensures |OfKind(apps, address)| >= 2
  {
    if apps.key in {h, h'} {
      var other := if apps.key == h then h' else h;
      assert Has(apps.rest, other) && Lookup(apps.rest, other) == Lookup(apps, other);
      NoneFound(apps.rest, address);
    } else {
      TwoFound(apps.rest, address, h, h');
    }
  }

  /** The lookup of an app by its address finds it when it is the only one; it throws exactly when there is none, or when
      there are several. */
  lemma KindFoundIff(channel: StateChannel, address: Address)
    ensures GetAppInstanceOfKind(channel, address).Ok? <==> exists h :: OnlyOneAt(channel.appInstances, address, h)
    ensures forall h :: OnlyOneAt(channel.appInstances, address, h) ==>
              GetAppInstanceOfKind(channel, address) == Ok(Lookup(channel.appInstances, h).value)
  {
    var apps := channel.appInstances;
    forall h | OnlyOneAt(apps, address, h)
      ensures OfKind(apps, address) == [Lookup(apps, h).value]
    {
      OneFound(apps, address, h);
    }
    if GetAppInstanceOfKind(channel, address).Ok? {
      NoneFound(apps, address);
      var h :| Has(apps, h) && Lookup(apps, h).value.appInterface.addr == address;
      forall x | x != h && Has(apps, x)
        ensures Lookup(apps, x).value.appInterface.addr != address
      {
        if Lookup(apps, x).value.appInterface.addr == address { TwoFound(apps, address, h, x); }
      }
      assert OnlyOneAt(apps, address, h);
    }
  }

  lemma {:induction false} KindAfterPut(apps: Dict<Hash, AppInstance>, h: Hash, app: AppInstance, address: Address)
    requires OfKind(apps, address) == [] && app.appInterface.addr == address
    ensures OfKind(Put(apps, h, app), address) == [app]
  {
    if apps.Cons? && apps.key != h {
      KindAfterPut(apps.rest, h, app, address);
    }
  }

  /** Installing the refund app changes no balance. */
  lemma RefundInstallSpec(kth: Derivation, channel: StateChannel, p: DepositParams, refundAppAddress: Address)
    requires kth(p.depositor, 0) != kth(p.peer, 0)
    requires ComputeTransition(kth, channel, RefundInstall(kth, channel, p, refundAppAddress)).Ok?
    ensures var (post, app) := ComputeTransition(kth, channel, RefundInstall(kth, channel, p, refundAppAddress)).value;
            && GetFreeBalance(channel).Ok? && GetFreeBalance(post).Ok?
            && FreeBalanceChanged(channel.(appInstances := Put(channel.appInstances, app.IdentityHash(), app)), post, View(post))
            && View(post).activeApps == Put(View(channel).activeApps, app.IdentityHash(), ())
            && forall t, to :: Balance(View(post).balances, t, to) == Balance(View(channel).balances, t, to)
  {
    var params := RefundInstall(kth, channel, p, refundAppAddress);
    TransitionSpec(kth, channel, params);
    var post := ComputeTransition(kth, channel, params).value.0;
    forall t, to
      ensures Balance(View(post).balances, t, to) == Balance(View(channel).balances, t, to)
    {
      InstallDebits(kth, channel, params, t);
    }
  }

  lemma DepositIsUninstall(kth: Derivation, channel: StateChannel, p: DepositParams, refundAppAddress: Address, to: Address, d: int, other: CoinTransfer)
    requires OfKind(channel.appInstances, refundAppAddress) == [] && d > 0
    requires kth(p.depositor, 0) != kth(p.peer, 0)
    requires ComputeTransition(kth, channel, RefundInstall(kth, channel, p, refundAppAddress)).Ok?
    ensures var (post, app) := ComputeTransition(kth, channel, RefundInstall(kth, channel, p, refundAppAddress)).value;
            && Deposit(kth, channel, p, refundAppAddress, Entry(to, d), other)
               == UninstallApp(post, app.IdentityHash(), SingleToken(p.tokenAddress, Single(to, d)))
            && app.IdentityHash() == AppHash(channel.monotonicNumProposedApps, SigningKeysFor(kth, channel, channel.monotonicNumProposedApps))
            && Lookup(post.appInstances, app.IdentityHash()) == Some(app)
  {
    var (post, app) := ComputeTransition(kth, channel, RefundInstall(kth, channel, p, refundAppAddress)).value;
    RefundInstallSpec(kth, channel, p, refundAppAddress);
    KindAfterPut(channel.appInstances, app.IdentityHash(), app, refundAppAddress);
  }

  /** Uninstalling with increments that are not negative. */
  lemma Credits(channel: StateChannel, h: Hash, app: AppInstance, increments: TokenIndexedCoinTransferMap)
    requires GetFreeBalance(channel).Ok? && NonNegative(View(channel).balances)
    requires Lookup(channel.appInstances, h) == Some(app) && app.IdentityHash() == h
    requires forall t, to :: Amount(IncrementsOf(increments, t), to) >= 0
    ensures var r := UninstallApp(channel, h, increments);
            && r.Ok? && GetFreeBalance(r.value).Ok?
            && FreeBalanceChanged(channel.(appInstances := Delete(channel.appInstances, h)), r.value, View(r.value))
            && View(r.value).activeApps == Delete(View(channel).activeApps, h)
            && forall t, to :: Balance(View(r.value).balances, t, to) == Balance(View(channel).balances, t, to) + Amount(IncrementsOf(increments, t), to)
  {
    IncrementNonNegative(View(channel).balances, increments);
    var without := channel.(appInstances := Delete(channel.appInstances, h));
    assert GetFreeBalance(without) == GetFreeBalance(channel);
    RemoveActiveSpec(without, h, increments);
    forall t, to
      ensures Balance(View(UninstallApp(channel, h, increments).value).balances, t, to) ==
              Balance(View(channel).balances, t, to) + Amount(IncrementsOf(increments, t), to)
    {
      IncrementAdds(View(channel).balances, increments, t);
    }
  }

  /** What a deposit of d does to a channel. */
  ghost predicate Deposited(channel: StateChannel, after: StateChannel, h: Hash, token: Token, to: Address, d: int) {
    && GetFreeBalance(channel).Ok? && GetFreeBalance(after).Ok?
    && channel.freeBalanceAppInstance.Some? && after.freeBalanceAppInstance.Some?
    && after == channel.(appInstances := Delete(channel.appInstances, h), freeBalanceAppInstance := after.freeBalanceAppInstance)
    && (after.appInstances == channel.appInstances <==> !Has(channel.appInstances, h))
    && View(after).activeApps == Delete(View(channel).activeApps, h)
    && FreeBalanceVersion(after) == FreeBalanceVersion(channel) + 4
    && forall t, x :: Balance(View(after).balances, t, x) == Balance(View(channel).balances, t, x) + if t == token && x == to then d else 0
  }

  lemma DepositEnds(channel: StateChannel, post: StateChannel, app: AppInstance, token: Token, to: Address, d: int)
    requires GetFreeBalance(channel).Ok? && GetFreeBalance(post).Ok? && NonNegative(View(channel).balances) && d > 0
    requires FreeBalanceChanged(channel.(appInstances := Put(channel.appInstances, app.IdentityHash(), app)), post, View(post))
    requires View(post).activeApps == Put(View(channel).activeApps, app.IdentityHash(), ())
    requires forall t, x :: Balance(View(post).balances, t, x) == Balance(View(channel).balances, t, x)
    ensures var r := UninstallApp(post, app.IdentityHash(), SingleToken(token, Single(to, d)));
            r.Ok? && Deposited(channel, r.value, app.IdentityHash(), token, to, d)
  {
    Credits(post, app.IdentityHash(), app, SingleToken(token, Single(to, d)));
    DeletePut(channel.appInstances, app.IdentityHash(), app);
    DeletePut(View(channel).activeApps, app.IdentityHash(), ());
  }

  /** A deposit of d in a channel with no negative balance goes through as far as it can be installed, and credits
      exactly d, in the token deposited, to the recipient that the app contract names; no other balance
      changes. The free balance moves by four versions. The apps are what they were exactly when no
      installed app had the current number: otherwise the refund app takes that app's place and goes with it. */
  lemma DepositEndToEnd(kth: Derivation, l: Ledger, p: DepositParams, refundAppAddress: Address, to: Address, d: int, other: CoinTransfer)
    requires Valid(l) && OfKind(l.channel.appInstances, refundAppAddress) == [] && d > 0
    requires kth(p.depositor, 0) != kth(p.peer, 0)
    requires ComputeTransition(kth, l.channel, RefundInstall(kth, l.channel, p, refundAppAddress)).Ok?
    ensures var n := l.channel.monotonicNumProposedApps;
            var r := Deposit(kth, l.channel, p, refundAppAddress, Entry(to, d), other);
            r.Ok? && Deposited(l.channel, r.value, AppHash(n, SigningKeysFor(kth, l.channel, n)), p.tokenAddress, to, d)
  {
    var (post, app) := ComputeTransition(kth, l.channel, RefundInstall(kth, l.channel, p, refundAppAddress)).value;
    RefundInstallSpec(kth, l.channel, p, refundAppAddress);
    DepositIsUninstall(kth, l.channel, p, refundAppAddress, to, d, other);
    DepositEnds(l.channel, post, app, p.tokenAddress, to, d);
  }

  /** The refund app pays out to the recipient that its state names what its multisig holds beyond the threshold that its
      state names (CoinBalanceRefundApp.sol). */
  predicate Refunds(app: AppInstance, balance: int, refunded: CoinTransfer) {
    app.latestState.RefundState? && refunded == Entry(app.latestState.recipient, balance - app.latestState.threshold)
  }

  lemma RefundsDepositor(kth: Derivation, channel: StateChannel, p: DepositParams, refundAppAddress: Address, balance: int, refunded: CoinTransfer)
    requires ComputeTransition(kth, channel, RefundInstall(kth, channel, p, refundAppAddress)).Ok?
    ensures var app := ComputeTransition(kth, channel, RefundInstall(kth, channel, p, refundAppAddress)).value.1;
            && app.appInterface.addr == refundAppAddress
            && app.latestState.RefundState? && app.latestState.multisig == channel.multisigAddress
            && (Refunds(app, balance, refunded) <==> refunded == Entry(kth(p.depositor, 0), balance - p.threshold))
  {
  }

  /** So a deposit credits the depositor, with what its multisig holds beyond the threshold. */
  lemma DepositCreditsDepositor(kth: Derivation, l: Ledger, p: DepositParams, refundAppAddress: Address, d: int, refunded: CoinTransfer, other: CoinTransfer)
    requires Valid(l) && OfKind(l.channel.appInstances, refundAppAddress) == [] && d > 0
    requires kth(p.depositor, 0) != kth(p.peer, 0)
    requires ComputeTransition(kth, l.channel, RefundInstall(kth, l.channel, p, refundAppAddress)).Ok?
    requires Refunds(ComputeTransition(kth, l.channel, RefundInstall(kth, l.channel, p, refundAppAddress)).value.1, p.threshold + d, refunded)
    ensures var (n, r) := (l.channel.monotonicNumProposedApps, Deposit(kth, l.channel, p, refundAppAddress, refunded, other));
            && r.Ok?
            && Deposited(l.channel, r.value, AppHash(n, SigningKeysFor(kth, l.channel, n)), p.tokenAddress, kth(p.depositor, 0), d)
  {
    RefundsDepositor(kth, l.channel, p, refundAppAddress, p.threshold + d, refunded);
    assert refunded == Entry(kth(p.depositor, 0), d);
    DepositEndToEnd(kth, l, p, refundAppAddress, kth(p.depositor, 0), d, other);
  }

  // ---- Sending the money ----

  const DEPOSIT_RETRY_COUNT := 3

  datatype Attempt = Sent | Declined | Failed

  /** `makeDeposit`: up to three attempts; one that the signer declined is not repeated. `attempts(k)` is how the
      k-th attempt comes out. */
  method MakeDeposit(attempts: nat -> Attempt) returns (sent: bool, tried: nat)
    ensures 1 <= tried <= DEPOSIT_RETRY_COUNT
    ensures forall k :: 1 <= k < tried ==> attempts(k) == Failed
    ensures sent <==> attempts(tried) == Sent
    ensures !sent ==> attempts(tried) == Declined || tried == DEPOSIT_RETRY_COUNT
  {
    var retryCount := DEPOSIT_RETRY_COUNT;
    tried := 0;
    sent := false;
    while retryCount > 0
      invariant 0 <= retryCount <= DEPOSIT_RETRY_COUNT && tried == DEPOSIT_RETRY_COUNT - retryCount && !sent
      invariant forall k :: 1 <= k <= tried ==> attempts(k) == Failed
    {
      tried := tried + 1;
      match attempts(tried)
      case Sent =>
        sent := true;
        return;
      case Declined =>
        return;
      case Failed =>
        retryCount := retryCount - 1;
    }
  }
}
