/** What a withdrawal does to a channel, and which app the conditional transactions commit to
    (engine/withdraw.ts, models/state-channel.ts). */
module WithdrawTransitions {
  import opened AppInstances
  import opened Dictionaries
  import opened FreeBalances
  import opened LedgerRuns
  import opened Outcomes
  import opened Primitives
  import opened Results
  import opened StateChannels

  // ---- The most recently installed app ----

  lemma {:induction false} LatestAppend(apps: Assoc<Hash, AppInstance>, prev: AppInstance, h: Hash, app: AppInstance)
    ensures Latest(Append(apps, Cons(h, app, Nil)), prev) ==
            if app.appSeqNo > Latest(apps, prev).appSeqNo then app else Latest(apps, prev)
  {
    if apps.Cons? {
      LatestAppend(apps.rest, if apps.value.appSeqNo > prev.appSeqNo then apps.value else prev, h, app);
    }
  }

  lemma {:induction false} LatestBounds(apps: Dict<Hash, AppInstance>, prev: AppInstance, h: Hash)
    ensures Latest(apps, prev).appSeqNo >= prev.appSeqNo
    ensures Has(apps, h) ==> Lookup(apps, h).value.appSeqNo <= Latest(apps, prev).appSeqNo
    decreases apps
  {
    if apps.Cons? {
      LatestBounds(apps.rest, if apps.value.appSeqNo > prev.appSeqNo then apps.value else prev, h);
    }
  }

  lemma {:induction false} LatestStored(apps: Dict<Hash, AppInstance>, prev: AppInstance) returns (h: Hash)
    ensures Latest(apps, prev) == prev || Lookup(apps, h) == Some(Latest(apps, prev))
    decreases apps
  {
    h := AppHash(0, []);
    if apps.Cons? {
      var prev' := if apps.value.appSeqNo > prev.appSeqNo then apps.value else prev;
      h := LatestStored(apps.rest, prev');
      if Latest(apps, prev) == apps.value {
        h := apps.key;
      }
    }
  }

  /** The most recently installed app is one of the apps, and none has a greater number. */
  lemma MostRecentIsGreatest(channel: StateChannel) returns (h: Hash)
    requires channel.appInstances.Cons?
    ensures var latest := MostRecentlyInstalledAppInstance(channel);
            && latest.Ok?
            && Lookup(channel.appInstances, h) == Some(latest.value)
            && (forall x :: Has(channel.appInstances, x) ==> Lookup(channel.appInstances, x).value.appSeqNo <= latest.value.appSeqNo)
  {
    var apps := channel.appInstances;
    var latest := Latest(apps.rest, apps.value);
    h := LatestStored(apps.rest, apps.value);
    if latest == apps.value {
      h := apps.key;
    }
    forall x | Has(apps, x)
      ensures Lookup(apps, x).value.appSeqNo <= latest.appSeqNo
    {
      LatestBounds(apps.rest, apps.value, x);
    }
  }

  lemma MostRecentAfterPut(channel: StateChannel, app: AppInstance)
    requires !Has(channel.appInstances, app.IdentityHash())
    ensures MostRecentlyInstalledAppInstance(channel.(appInstances := Put(channel.appInstances, app.IdentityHash(), app))) ==
            match MostRecentlyInstalledAppInstance(channel)
            case Err(_) => Ok(app)
            case Ok(latest) => Ok(if app.appSeqNo > latest.appSeqNo then app else latest)
  {
    var apps := channel.appInstances;
    PutFresh(apps, app.IdentityHash(), app, Nil);
    AppendNil(Put(apps, app.IdentityHash(), app));
    if apps.Cons? {
      LatestAppend(apps.rest, apps.value, app.IdentityHash(), app);
    }
  }

  /** After a new app is put in, the most recently installed one is that app exactly when its number is
      greater than that of every other installed app. */
  lemma MostRecentIsNew(channel: StateChannel, app: AppInstance)
    requires Keyed(channel) && !Has(channel.appInstances, app.IdentityHash())
    ensures MostRecentlyInstalledAppInstance(channel.(appInstances := Put(channel.appInstances, app.IdentityHash(), app))) == Ok(app)
            <==> forall h :: Has(channel.appInstances, h) ==> Lookup(channel.appInstances, h).value.appSeqNo < app.appSeqNo
  {
    MostRecentAfterPut(channel, app);
    if channel.appInstances.Cons? {
      var h := MostRecentIsGreatest(channel);
      assert Has(channel.appInstances, h);
    }
  }

  // ---- Withdrawing ----

  datatype WithdrawParams = WithdrawParams(
    initiatorXpub: Xpub,
    responderXpub: Xpub,
    multisigAddress: Multisig,
    recipient: Address,
    amount: int,
    tokenAddress: Token)

  const REFUND_TIMEOUT: nat := 1008

  /** The refund app takes the current number without moving the counter, and its state names no token. */
  function RefundApp(kth: Derivation, channel: StateChannel, p: WithdrawParams, refundAppAddress: Address): AppInstance {
    var n := channel.monotonicNumProposedApps;
    AppInstance(SigningKeysFor(kth, channel, n), REFUND_TIMEOUT, AppInterface(refundAppAddress, "", None), false, n,
                RefundState(p.recipient, p.multisigAddress, p.amount, None), 0, REFUND_TIMEOUT,
                SINGLE_ASSET_TWO_PARTY_COIN_TRANSFER, SingleAsset(SingleAssetParams(MAX_UINT256, p.tokenAddress)))
  }

  /** `addRefundAppToStateChannel` */
  function AddRefundApp(kth: Derivation, channel: StateChannel, p: WithdrawParams, refundAppAddress: Address): Result<StateChannel> {
    var initiator :- FreeBalanceAddrOf(kth, channel, p.initiatorXpub);
    InstallApp(kth, channel, RefundApp(kth, channel, p, refundAppAddress),
               SingleToken(p.tokenAddress, Single(initiator, p.amount)))
  }

  /** The channel after the refund app, taken to be the most recently installed one, is uninstalled again. */
  function RemoveRefundApp(withRefundApp: StateChannel): Result<StateChannel> {
    var refundApp :- MostRecentlyInstalledAppInstance(withRefundApp);
    UninstallApp(withRefundApp, refundApp.IdentityHash(), Nil)
  }

  /** No installed app has the number that a refund app would take. */
  ghost predicate RefundNumberFree(channel: StateChannel) {
    forall h :: Has(channel.appInstances, h) ==> Lookup(channel.appInstances, h).value.appSeqNo != channel.monotonicNumProposedApps
  }

  lemma {:induction false} DeletePut<V>(d: Dict<Hash, V>, h: Hash, v: V)
    ensures Delete(Put(d, h, v), h) == Delete(d, h)
    ensures !Has(d, h) ==> Delete(d, h) == d
  {
    if d.Cons? && d.key != h {
      DeletePut(d.rest, h, v);
    }
  }

  /** Adding the refund app, when its number is free: the most recently installed app is the refund app. */
  lemma RefundAppIsMostRecent(kth: Derivation, channel: StateChannel, p: WithdrawParams, refundAppAddress: Address)
    requires Keyed(channel) && Sequenced(channel) && RefundNumberFree(channel)
    requires AddRefundApp(kth, channel, p, refundAppAddress).Ok?
    ensures var app := RefundApp(kth, channel, p, refundAppAddress);
            && !Has(channel.appInstances, app.IdentityHash())
            && MostRecentlyInstalledAppInstance(AddRefundApp(kth, channel, p, refundAppAddress).value) == Ok(app)
  {
    var app := RefundApp(kth, channel, p, refundAppAddress);
    var h := app.IdentityHash();
    assert !Has(channel.appInstances, h);
    MostRecentIsNew(channel, app);
    RefundAppSpec(kth, channel, p, refundAppAddress);
  }

  lemma RefundAppSpec(kth: Derivation, channel: StateChannel, p: WithdrawParams, refundAppAddress: Address)
    requires AddRefundApp(kth, channel, p, refundAppAddress).Ok?
    ensures var app := RefundApp(kth, channel, p, refundAppAddress);
            var decrement := FlipTokenIndexedBalances(SingleToken(p.tokenAddress, Single(kth(p.initiatorXpub, 0), p.amount)));
            && GetFreeBalance(channel).Ok?
            && Increment(View(channel).balances, decrement).Ok?
            && FreeBalanceChanged(
                 channel.(appInstances := Put(channel.appInstances, app.IdentityHash(), app)),
                 AddRefundApp(kth, channel, p, refundAppAddress).value,
                 FreeBalance(Put(View(channel).activeApps, app.IdentityHash(), ()), Increment(View(channel).balances, decrement).value))
  {
    var app := RefundApp(kth, channel, p, refundAppAddress);
    var installing := channel.(appInstances := Put(channel.appInstances, app.IdentityHash(), app));
    assert GetFreeBalance(installing) == GetFreeBalance(channel);
    AddActiveSpec(installing, app.IdentityHash(),
                  FlipTokenIndexedBalances(SingleToken(p.tokenAddress, Single(kth(p.initiatorXpub, 0), p.amount))));
  }

  /** A withdrawal whose refund number is free removes exactly `amount` from the initiator's balance of one
      token and leaves everything else as it was: all other balances, the apps, the active apps, the
      agreements, the proposals and the counter. The free balance moves by exactly four versions, and
      the withdrawal cannot fail once the refund app is in. */
  lemma WithdrawEndToEnd(kth: Derivation, l: Ledger, p: WithdrawParams, refundAppAddress: Address)
    requires Valid(l) && RefundNumberFree(l.channel)
    requires AddRefundApp(kth, l.channel, p, refundAppAddress).Ok?
    requires !Has(l.channel.agreements, RefundApp(kth, l.channel, p, refundAppAddress).IdentityHash())
    ensures var channel := l.channel;
            var r := RemoveRefundApp(AddRefundApp(kth, channel, p, refundAppAddress).value);
            && r.Ok?
            && GetFreeBalance(r.value).Ok?
            && r.value == channel.(freeBalanceAppInstance := r.value.freeBalanceAppInstance)
            && SameFreeBalanceApp(channel.freeBalanceAppInstance.value, r.value.freeBalanceAppInstance.value)
            && FreeBalanceVersion(r.value) == FreeBalanceVersion(channel) + 4
            && View(r.value).activeApps == View(channel).activeApps
            && forall t, to :: Balance(View(r.value).balances, t, to) ==
                 Balance(View(channel).balances, t, to)
                   - if t == p.tokenAddress && to == kth(p.initiatorXpub, 0) then p.amount else 0
  {
    var channel := l.channel;
    var app := RefundApp(kth, channel, p, refundAppAddress);
    var h := app.IdentityHash();
    var withApp := AddRefundApp(kth, channel, p, refundAppAddress).value;
    var decrement := FlipTokenIndexedBalances(SingleToken(p.tokenAddress, Single(kth(p.initiatorXpub, 0), p.amount)));
    RefundAppSpec(kth, channel, p, refundAppAddress);
    RefundAppIsMostRecent(kth, channel, p, refundAppAddress);
    var uninstalling := withApp.(appInstances := Delete(withApp.appInstances, h));
    assert GetFreeBalance(uninstalling) == GetFreeBalance(withApp);
    RemoveActiveSpec(uninstalling, h, Nil);
    DeletePut(channel.appInstances, h, app);
    assert !Has(View(channel).activeApps, h);
    DeletePut(View(channel).activeApps, h, ());
    forall t, to
      ensures Balance(View(withApp).balances, t, to) ==
              Balance(View(channel).balances, t, to) - if t == p.tokenAddress && to == kth(p.initiatorXpub, 0) then p.amount else 0
    {
      IncrementAdds(View(channel).balances, decrement, t);
    }
  }

  /** Apps carry exactly the signing keys of their number, as install and deposit pass them. */
  ghost predicate KeysDetermined(kth: Derivation, channel: StateChannel) {
    forall h :: Has(channel.appInstances, h) ==>
      var app := Lookup(channel.appInstances, h).value;
      app.participants == SigningKeysFor(kth, channel, app.appSeqNo)
  }

  /** The refund app is the most recently installed one in any case: a clash of numbers is a clash of identities. */
  lemma RefundAppIsMostRecentAnyway(kth: Derivation, channel: StateChannel, p: WithdrawParams, refundAppAddress: Address)
    requires Keyed(channel) && Sequenced(channel) && KeysDetermined(kth, channel)
    requires AddRefundApp(kth, channel, p, refundAppAddress).Ok?
    ensures var app := RefundApp(kth, channel, p, refundAppAddress);
            && MostRecentlyInstalledAppInstance(AddRefundApp(kth, channel, p, refundAppAddress).value) == Ok(app)
            && (RefundNumberFree(channel) <==> !Has(channel.appInstances, app.IdentityHash()))
  {
    var app := RefundApp(kth, channel, p, refundAppAddress);
    var h := app.IdentityHash();
    RefundAppSpec(kth, channel, p, refundAppAddress);
    var withApp := AddRefundApp(kth, channel, p, refundAppAddress).value;
    assert Lookup(withApp.appInstances, h) == Some(app);
    assert withApp.appInstances.Cons?;
    var x := MostRecentIsGreatest(withApp);
    assert Has(withApp.appInstances, h);
    assert x == h;
  }

  /** A withdrawal, free number or not: which apps and active apps are left, and what is debited in total. */
  lemma WithdrawSpec(kth: Derivation, l: Ledger, p: WithdrawParams, refundAppAddress: Address)
    requires Valid(l) && KeysDetermined(kth, l.channel)
    requires AddRefundApp(kth, l.channel, p, refundAppAddress).Ok?
    ensures var r := RemoveRefundApp(AddRefundApp(kth, l.channel, p, refundAppAddress).value);
            var h := RefundApp(kth, l.channel, p, refundAppAddress).IdentityHash();
            && r.Ok? && GetFreeBalance(r.value).Ok?
            && r.value.appInstances == Delete(l.channel.appInstances, h)
            && View(r.value).activeApps == Delete(View(l.channel).activeApps, h)
            && forall t :: FreeTotal(View(r.value).balances, t) ==
                           FreeTotal(View(l.channel).balances, t) - if t == p.tokenAddress then p.amount else 0
  {
    var channel := l.channel;
    var app := RefundApp(kth, channel, p, refundAppAddress);
    var h := app.IdentityHash();
    var withApp := AddRefundApp(kth, channel, p, refundAppAddress).value;
    RefundAppSpec(kth, channel, p, refundAppAddress);
    RefundAppIsMostRecentAnyway(kth, channel, p, refundAppAddress);
    var uninstalling := withApp.(appInstances := Delete(withApp.appInstances, h));
    assert GetFreeBalance(uninstalling) == GetFreeBalance(withApp);
    RemoveActiveSpec(uninstalling, h, Nil);
    DeletePut(channel.appInstances, h, app);
    DeletePut(View(channel).activeApps, h, ());
    forall t
      ensures FreeTotal(View(withApp).balances, t) ==
              FreeTotal(View(channel).balances, t) - if t == p.tokenAddress then p.amount else 0
    {
      IncrementAdds(View(channel).balances,
                    FlipTokenIndexedBalances(SingleToken(p.tokenAddress, Single(kth(p.initiatorXpub, 0), p.amount))), t);
    }
  }

  /** A withdrawal keeps the installed apps exactly when no installed app has the current number. When one
      has (a proposal was the last to move the counter and its app is live), the refund app overwrites it
      and takes it along, and what it had locked is paid to nobody. */
  lemma WithdrawKeepsAppsIff(kth: Derivation, l: Ledger, p: WithdrawParams, refundAppAddress: Address)
    requires Valid(l) && KeysDetermined(kth, l.channel)
    requires AddRefundApp(kth, l.channel, p, refundAppAddress).Ok?
    ensures var r := RemoveRefundApp(AddRefundApp(kth, l.channel, p, refundAppAddress).value);
            && r.Ok?
            && (r.value.appInstances == l.channel.appInstances <==> RefundNumberFree(l.channel))
  {
    var app := RefundApp(kth, l.channel, p, refundAppAddress);
    WithdrawSpec(kth, l, p, refundAppAddress);
    RefundAppIsMostRecentAnyway(kth, l.channel, p, refundAppAddress);
    DeletePut(l.channel.appInstances, app.IdentityHash(), app);
  }
}
