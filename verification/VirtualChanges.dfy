/** What each role's install and uninstall of a virtual app puts into its channels and takes out of them
    (engine/install-virtual-app.ts, engine/uninstall-virtual-app.ts). */
module VirtualChanges {
  import opened Amounts
  import opened AppInstances
  import opened Dictionaries
  import opened FreeBalances
  import opened Outcomes
  import opened Payouts
  import opened Primitives
  import opened Results
  import opened Sorting
  import opened StateChannels
  import opened VirtualAgreement
  import opened VirtualApps
  import opened VirtualConservation

  // ---- Agreements ----

  /** The free balance moves by two versions, and of the channel nothing else changes but the agreements. */
  ghost predicate AgreementsChanged(before: StateChannel, after: StateChannel, agreements: Dict<Hash, Agreement>, activeApps: Dict<Hash, ()>) {
    && GetFreeBalance(before).Ok? && GetFreeBalance(after).Ok?
    && before.freeBalanceAppInstance.Some? && after.freeBalanceAppInstance.Some?
    && SameFreeBalanceApp(before.freeBalanceAppInstance.value, after.freeBalanceAppInstance.value)
    && FreeBalanceVersion(after) == FreeBalanceVersion(before) + 2
    && View(after).activeApps == activeApps
    && after == before.(agreements := agreements, freeBalanceAppInstance := after.freeBalanceAppInstance)
  }

  ghost predicate AgreementAdded(before: StateChannel, after: StateChannel, target: Hash, agreement: Agreement) {
    && GetFreeBalance(before).Ok?
    && AgreementsChanged(before, after, Put(before.agreements, target, agreement), Put(View(before).activeApps, target, ()))
  }

  ghost predicate AgreementRemoved(before: StateChannel, after: StateChannel, target: Hash) {
    && GetFreeBalance(before).Ok?
    && AgreementsChanged(before, after, Delete(before.agreements, target), Delete(View(before).activeApps, target))
  }

  lemma AdditionAdds(channel: StateChannel, target: Hash, agreement: Agreement, decrements: CoinTransferMap, token: Token)
    requires AddAgreement(channel, target, agreement, decrements, token).Ok?
    ensures AgreementAdded(channel, AddAgreement(channel, target, agreement, decrements, token).value, target, agreement)
  {
    var recorded := channel.(agreements := Put(channel.agreements, target, agreement));
    assert GetFreeBalance(recorded) == GetFreeBalance(channel);
    AddActiveSpec(recorded, target, SingleToken(token, Flip(decrements)));
  }

  lemma RemovalRemoves(channel: StateChannel, target: Hash, increments: CoinTransferMap, token: Token)
    requires RemoveAgreement(channel, target, increments, token).Ok?
    ensures AgreementRemoved(channel, RemoveAgreement(channel, target, increments, token).value, target)
  {
    var without := channel.(agreements := Delete(channel.agreements, target));
    assert GetFreeBalance(without) == GetFreeBalance(channel);
    RemoveActiveSpec(without, target, SingleToken(token, increments));
  }

  // ---- Installing ----

  /** The new virtual app. */
  ghost predicate VirtualAppFor(kth: Derivation, p: InstallVirtualAppParams, app: AppInstance) {
    && app.participants == SortAddresses([kth(p.initiatorXpub, p.appSeqNo), kth(p.responderXpub, p.appSeqNo)])
    && app.appSeqNo == p.appSeqNo && app.appInterface == p.appInterface && app.isVirtualApp
    && app.latestState == p.initialState && app.latestVersionNumber == 0
    && app.defaultTimeout == app.latestTimeout == p.defaultTimeout
    && app.outcomeType == p.outcomeType && VirtualTerms(kth, p, app.appSeqNo, app.interpreterParams)
  }

  /** The initiator is the first player of a fixed outcome, and the capital is both stakes. */
  ghost predicate VirtualTerms(kth: Derivation, p: InstallVirtualAppParams, n: nat, params: InterpreterParams) {
    var capital := p.initiatorBalanceDecrement + p.responderBalanceDecrement;
    match p.outcomeType
    case TWO_PARTY_FIXED_OUTCOME => params == TwoParty(TwoPartyParams(kth(p.initiatorXpub, n), kth(p.responderXpub, n), capital, p.tokenAddress))
    case SINGLE_ASSET_TWO_PARTY_COIN_TRANSFER => params == SingleAsset(SingleAssetParams(capital, p.tokenAddress))
    case MULTI_ASSET_MULTI_PARTY_COIN_TRANSFER => false
  }

  /** Its pass-through app, which pays the default outcome as long as it is not told another. */
  ghost predicate PassThroughFor(env: Environment, p: InstallVirtualAppParams, n: nat, virtualApp: Hash, defaultOutcome: Outcome, app: AppInstance) {
    && app.participants == SortAddresses([env.kth(p.initiatorXpub, n), env.kth(p.responderXpub, n), env.kth(p.intermediaryXpub, n)])
    && app.appSeqNo == n && app.appInterface.addr == env.passThroughAddress && app.isVirtualApp
    && app.latestState == PassThroughState(virtualApp, MAX_UINT256, defaultOutcome) && app.latestVersionNumber == 0
    && app.defaultTimeout == app.latestTimeout == CHALLENGE_TIMEOUT
    && app.outcomeType == p.outcomeType && VirtualTerms(env.kth, p, n, app.interpreterParams)
  }

  /** The intermediary provides the capital, for one of the users. */
  function CapitalFor(kth: Derivation, p: InstallVirtualAppParams, passThrough: Hash, user: Xpub): Agreement {
    Agreement(timeLockedPassThroughIdentityHash := passThrough,
              capitalProvided := p.initiatorBalanceDecrement + p.responderBalanceDecrement,
              capitalProvider := kth(p.intermediaryXpub, 0),
              virtualAppUser := kth(user, 0),
              tokenAddress := p.tokenAddress)
  }

  /** One more app, with its number counted. */
  ghost predicate AppAdded(before: StateChannel, after: StateChannel, app: AppInstance) {
    after == before.(appInstances := Put(before.appInstances, app.IdentityHash(), app),
                     monotonicNumProposedApps := before.monotonicNumProposedApps + 1)
  }

  /** What an endpoint's install leaves: the virtual app in the channel of the two users, its pass-through app in that of
      all three, and an agreement in the channel with the intermediary. */
  ghost predicate EndpointAdds(env: Environment, channels: Channels, p: InstallVirtualAppParams, user: Xpub, e: EndpointInstall) {
    var threeParty := GetOrCreate(env.kth, channels, [p.initiatorXpub, p.responderXpub, p.intermediaryXpub]);
    var withIntermediary := GetChannel(env.kth, channels, [user, p.intermediaryXpub]);
    && VirtualAppFor(env.kth, p, e.virtualApp)
    && PassThroughFor(env, p, threeParty.monotonicNumProposedApps, e.virtualApp.IdentityHash(), ComputeOutcome(e.virtualApp, env.provider), e.passThrough)
    && AppAdded(threeParty, e.threeParty, e.passThrough)
    && AppAdded(GetOrCreate(env.kth, channels, [p.initiatorXpub, p.responderXpub]), e.betweenUsers, e.virtualApp)
    && withIntermediary.Ok?
    && AgreementAdded(withIntermediary.value, e.withIntermediary, e.virtualApp.IdentityHash(),
                      CapitalFor(env.kth, p, e.passThrough.IdentityHash(), user))
  }

  lemma InitiatorAdds(env: Environment, channels: Channels, p: InstallVirtualAppParams)
    requires InstallForInitiating(env, channels, p).Ok?
    ensures EndpointAdds(env, channels, p, p.initiatorXpub, InstallForInitiating(env, channels, p).value)
  {
    var e := InstallForInitiating(env, channels, p).value;
    AdditionAdds(GetChannel(env.kth, channels, [p.initiatorXpub, p.intermediaryXpub]).value, e.virtualApp.IdentityHash(),
                 CapitalFor(env.kth, p, e.passThrough.IdentityHash(), p.initiatorXpub),
                 Pair(env.kth(p.initiatorXpub, 0), p.initiatorBalanceDecrement,
                      env.kth(p.intermediaryXpub, 0), p.responderBalanceDecrement), p.tokenAddress);
  }

  lemma ResponderAdds(env: Environment, channels: Channels, p: InstallVirtualAppParams)
    requires InstallForResponding(env, channels, p).Ok?
    ensures EndpointAdds(env, channels, p, p.responderXpub, InstallForResponding(env, channels, p).value)
  {
    var e := InstallForResponding(env, channels, p).value;
    AdditionAdds(GetChannel(env.kth, channels, [p.responderXpub, p.intermediaryXpub]).value, e.virtualApp.IdentityHash(),
                 CapitalFor(env.kth, p, e.passThrough.IdentityHash(), p.responderXpub),
                 Pair(env.kth(p.intermediaryXpub, 0), p.initiatorBalanceDecrement,
                      env.kth(p.responderXpub, 0), p.responderBalanceDecrement), p.tokenAddress);
  }

  /** And the intermediary's: an agreement with each endpoint. */
  ghost predicate IntermediaryAdds(env: Environment, channels: Channels, p: InstallVirtualAppParams, virtualApp: Hash, defaultOutcome: Outcome, m: IntermediaryInstall) {
    var threeParty := GetOrCreate(env.kth, channels, [p.initiatorXpub, p.responderXpub, p.intermediaryXpub]);
    var (channelI, channelR) := (GetChannel(env.kth, channels, [p.initiatorXpub, p.intermediaryXpub]), GetChannel(env.kth, channels, [p.responderXpub, p.intermediaryXpub]));
    && PassThroughFor(env, p, threeParty.monotonicNumProposedApps, virtualApp, defaultOutcome, m.passThrough)
    && AppAdded(threeParty, m.threeParty, m.passThrough)
    && channelI.Ok? && channelR.Ok?
    && AgreementAdded(channelI.value, m.withInitiating, virtualApp, CapitalFor(env.kth, p, m.passThrough.IdentityHash(), p.initiatorXpub))
    && AgreementAdded(channelR.value, m.withResponding, virtualApp, CapitalFor(env.kth, p, m.passThrough.IdentityHash(), p.responderXpub))
  }

  lemma IntermediaryAddsBoth(env: Environment, channels: Channels, p: InstallVirtualAppParams, virtualApp: Hash, defaultOutcome: Outcome)
    requires InstallForIntermediary(env, channels, p, virtualApp, defaultOutcome).Ok?
    ensures IntermediaryAdds(env, channels, p, virtualApp, defaultOutcome, InstallForIntermediary(env, channels, p, virtualApp, defaultOutcome).value)
  {
    var m := InstallForIntermediary(env, channels, p, virtualApp, defaultOutcome).value;
    AdditionAdds(GetChannel(env.kth, channels, [p.initiatorXpub, p.intermediaryXpub]).value, virtualApp,
                 CapitalFor(env.kth, p, m.passThrough.IdentityHash(), p.initiatorXpub),
                 Pair(env.kth(p.initiatorXpub, 0), p.initiatorBalanceDecrement,
                      env.kth(p.intermediaryXpub, 0), p.responderBalanceDecrement), p.tokenAddress);
    AdditionAdds(GetChannel(env.kth, channels, [p.responderXpub, p.intermediaryXpub]).value, virtualApp,
                 CapitalFor(env.kth, p, m.passThrough.IdentityHash(), p.responderXpub),
                 Pair(env.kth(p.intermediaryXpub, 0), p.initiatorBalanceDecrement,
                      env.kth(p.responderXpub, 0), p.responderBalanceDecrement), p.tokenAddress);
  }

  /** An agreement that was recorded says what was locked for it: its capital is what left the channel's balances in its
      token; its user locked this stake of it, and its provider the rest. */
  ghost predicate CapitalLocked(before: StateChannel, after: StateChannel, target: Hash, stake: int) {
    && Has(after.agreements, target) && GetFreeBalance(before).Ok? && GetFreeBalance(after).Ok?
    && var agreement := Lookup(after.agreements, target).value;
       && HeldTotal(before, agreement.tokenAddress) - HeldTotal(after, agreement.tokenAddress) == agreement.capitalProvided
       && Held(before, agreement.tokenAddress, agreement.virtualAppUser) - Held(after, agreement.tokenAddress, agreement.virtualAppUser) == stake
       && Held(before, agreement.tokenAddress, agreement.capitalProvider) - Held(after, agreement.tokenAddress, agreement.capitalProvider)
          == agreement.capitalProvided - stake
  }

  lemma AgreementsLockCapital(env: Environment, channels: Channels, p: InstallVirtualAppParams, virtualApp: Hash, defaultOutcome: Outcome)
    requires InstallForIntermediary(env, channels, p, virtualApp, defaultOutcome).Ok?
    requires env.kth(p.intermediaryXpub, 0) != env.kth(p.initiatorXpub, 0)
    requires env.kth(p.intermediaryXpub, 0) != env.kth(p.responderXpub, 0)
    ensures var m := InstallForIntermediary(env, channels, p, virtualApp, defaultOutcome).value;
            var channelI := GetChannel(env.kth, channels, [p.initiatorXpub, p.intermediaryXpub]);
            var channelR := GetChannel(env.kth, channels, [p.responderXpub, p.intermediaryXpub]);
            && channelI.Ok? && CapitalLocked(channelI.value, m.withInitiating, virtualApp, p.initiatorBalanceDecrement)
            && channelR.Ok? && CapitalLocked(channelR.value, m.withResponding, virtualApp, p.responderBalanceDecrement)
  {
    InstallMoves(env, channels, p, virtualApp, defaultOutcome);
    IntermediaryAddsBoth(env, channels, p, virtualApp, defaultOutcome);
  }

  // ---- Uninstalling ----

  /** The final state of a pass-through app: it pays this outcome, from any block on; one version later. */
  ghost predicate Finalised(before: AppInstance, after: AppInstance, outcome: Outcome) {
    && before.latestState.PassThroughState?
    && after == before.(latestState := PassThroughState(before.latestState.targetAppIdentityHash, 0, outcome),
                        latestVersionNumber := before.latestVersionNumber + 1, latestTimeout := before.defaultTimeout)
  }

  /** The pass-through app that a role finalises is the one that its agreement for the target names. */
  ghost predicate FinalisesFrom(kth: Derivation, channels: Channels, p: UninstallVirtualAppParams, pair: seq<Xpub>, after: AppInstance) {
    var (threeParty, two) := (GetChannel(kth, channels, [p.initiatorXpub, p.responderXpub, p.intermediaryXpub]), GetChannel(kth, channels, pair));
    && threeParty.Ok? && two.Ok? && Has(two.value.agreements, p.targetAppIdentityHash)
    && var before := Lookup(threeParty.value.appInstances, Lookup(two.value.agreements, p.targetAppIdentityHash).value.timeLockedPassThroughIdentityHash);
       before.Some? && Finalised(before.value, after, p.targetOutcome)
  }

  /** Whenever a role's uninstall goes through, from whatever store, the final state that it signs is on the outcome
      asked for, whichever outcome it had before and whatever the role computes itself. */
  lemma InitiatorFinalises(env: Environment, channels: Channels, p: UninstallVirtualAppParams)
    requires UninstallForInitiating(env, channels, p).Ok?
    ensures FinalisesFrom(env.kth, channels, p, [p.initiatorXpub, p.intermediaryXpub], UninstallForInitiating(env, channels, p).value.passThrough)
  {
  }

  lemma ResponderFinalises(env: Environment, channels: Channels, p: UninstallVirtualAppParams)
    requires UninstallForResponding(env, channels, p).Ok?
    ensures FinalisesFrom(env.kth, channels, p, [p.responderXpub, p.intermediaryXpub], UninstallForResponding(env, channels, p).value.passThrough)
  {
  }

  lemma IntermediaryFinalises(env: Environment, channels: Channels, p: UninstallVirtualAppParams)
    requires UninstallForIntermediary(env, channels, p).Ok?
    ensures FinalisesFrom(env.kth, channels, p, [p.initiatorXpub, p.intermediaryXpub], UninstallForIntermediary(env, channels, p).value.passThrough)
  {
  }

  /** The pass-through app of channels that are ready to uninstall. */
  function PassThroughIn(s: Shared, target: Hash): Option<AppInstance> {
    match Lookup(s.withInitiating.agreements, target)
    case None => None
    case Some(agreement) => Lookup(s.threeParty.appInstances, agreement.timeLockedPassThroughIdentityHash)
  }

  /** What an uninstall leaves of the shared channels: the pass-through app is gone from that of all three, the virtual
      app from that of the users, and the agreement from that with the intermediary. */
  ghost predicate EndpointLeaves(s: Shared, target: Hash, outcome: Outcome, withIntermediary: StateChannel, e: EndpointUninstall) {
    var passThrough := PassThroughIn(s, target);
    && passThrough.Some?
    && e.passThrough.IdentityHash() == passThrough.value.IdentityHash()
    && e.passThrough.latestState == PassThroughState(target, 0, outcome)
    && e.threeParty == s.threeParty.(appInstances := Delete(s.threeParty.appInstances, passThrough.value.IdentityHash()))
    && e.betweenUsers == s.betweenUsers.(appInstances := Delete(s.betweenUsers.appInstances, target))
    && AgreementRemoved(withIntermediary, e.withIntermediary, target)
  }

  ghost predicate IntermediaryLeaves(s: Shared, target: Hash, outcome: Outcome, m: IntermediaryUninstall) {
    var passThrough := PassThroughIn(s, target);
    && passThrough.Some?
    && m.passThrough.IdentityHash() == passThrough.value.IdentityHash()
    && m.passThrough.latestState == PassThroughState(target, 0, outcome)
    && m.threeParty == s.threeParty.(appInstances := Delete(s.threeParty.appInstances, passThrough.value.IdentityHash()))
    && AgreementRemoved(s.withInitiating, m.withInitiating, target)
    && AgreementRemoved(s.withResponding, m.withResponding, target)
  }

  lemma InitiatorLeaves(env: Environment, channels: Channels, p: UninstallVirtualAppParams, s: Shared)
    requires GetChannel(env.kth, channels, [p.initiatorXpub, p.responderXpub, p.intermediaryXpub]) == Ok(s.threeParty)
    requires GetChannel(env.kth, channels, [p.initiatorXpub, p.intermediaryXpub]) == Ok(s.withInitiating)
    requires GetChannel(env.kth, channels, [p.initiatorXpub, p.responderXpub]) == Ok(s.betweenUsers)
    requires ReadyToUninstall(s, p.targetAppIdentityHash, env.provider.blockNumber)
    requires UninstallForInitiating(env, channels, p).Ok?
    ensures EndpointLeaves(s, p.targetAppIdentityHash, p.targetOutcome, s.withInitiating, UninstallForInitiating(env, channels, p).value)
  {
    var virtualApp := Lookup(s.betweenUsers.appInstances, p.targetAppIdentityHash).value;
    var increments := ComputeIncrements(virtualApp, ComputeOutcome(virtualApp, env.provider)).value;
    var token := Lookup(s.withInitiating.agreements, p.targetAppIdentityHash).value.tokenAddress;
    RemovalRemoves(s.withInitiating, p.targetAppIdentityHash,
                   Pair(env.kth(p.intermediaryXpub, 0), IncrementTo(increments, token, env.kth(p.responderXpub, 0)).value,
                        env.kth(p.initiatorXpub, 0), IncrementTo(increments, token, env.kth(p.initiatorXpub, 0)).value), token);
  }

  lemma ResponderLeaves(env: Environment, channels: Channels, p: UninstallVirtualAppParams, s: Shared)
    requires GetChannel(env.kth, channels, [p.initiatorXpub, p.responderXpub, p.intermediaryXpub]) == Ok(s.threeParty)
    requires GetChannel(env.kth, channels, [p.responderXpub, p.intermediaryXpub]) == Ok(s.withResponding)
    requires GetChannel(env.kth, channels, [p.initiatorXpub, p.responderXpub]) == Ok(s.betweenUsers)
    requires ReadyToUninstall(s, p.targetAppIdentityHash, env.provider.blockNumber)
    requires UninstallForResponding(env, channels, p).Ok?
    ensures EndpointLeaves(s, p.targetAppIdentityHash, p.targetOutcome, s.withResponding, UninstallForResponding(env, channels, p).value)
  {
    var virtualApp := Lookup(s.betweenUsers.appInstances, p.targetAppIdentityHash).value;
    var increments := ComputeIncrements(virtualApp, ComputeOutcome(virtualApp, env.provider)).value;
    var token := Lookup(s.withResponding.agreements, p.targetAppIdentityHash).value.tokenAddress;
    RemovalRemoves(s.withResponding, p.targetAppIdentityHash,
                   Pair(env.kth(p.intermediaryXpub, 0), IncrementTo(increments, token, env.kth(p.initiatorXpub, 0)).value,
                        env.kth(p.responderXpub, 0), IncrementTo(increments, token, env.kth(p.responderXpub, 0)).value), token);
  }

  lemma IntermediaryLeavesBoth(env: Environment, channels: Channels, p: UninstallVirtualAppParams, s: Shared)
    requires GetChannel(env.kth, channels, [p.initiatorXpub, p.responderXpub, p.intermediaryXpub]) == Ok(s.threeParty)
    requires GetChannel(env.kth, channels, [p.initiatorXpub, p.intermediaryXpub]) == Ok(s.withInitiating)
    requires GetChannel(env.kth, channels, [p.responderXpub, p.intermediaryXpub]) == Ok(s.withResponding)
    requires ReadyToUninstall(s, p.targetAppIdentityHash, env.provider.blockNumber)
    requires UninstallForIntermediary(env, channels, p).Ok?
    ensures IntermediaryLeaves(s, p.targetAppIdentityHash, p.targetOutcome, UninstallForIntermediary(env, channels, p).value)
  {
    OwnersInAnyOrder(env.kth, p.intermediaryXpub, p.responderXpub);
    var (dueI, dueR) := Due(env, channels, p);
    var token := Lookup(s.withInitiating.agreements, p.targetAppIdentityHash).value.tokenAddress;
    RemovalRemoves(s.withInitiating, p.targetAppIdentityHash, Pair(env.kth(p.intermediaryXpub, 0), dueR, env.kth(p.initiatorXpub, 0), dueI), token);
    RemovalRemoves(s.withResponding, p.targetAppIdentityHash, Pair(env.kth(p.intermediaryXpub, 0), dueI, env.kth(p.responderXpub, 0), dueR), token);
  }

  // ---- What uninstalling pays ----

  /** The app by which an endpoint settles: the virtual app, or its pass-through app from the block on that is set in it. */
  ghost predicate Decides(env: Environment, channels: Channels, p: UninstallVirtualAppParams, pair: seq<Xpub>, app: AppInstance, token: Token) {
    var (threeParty, two) := (GetChannel(env.kth, channels, [p.initiatorXpub, p.responderXpub, p.intermediaryXpub]), GetChannel(env.kth, channels, pair));
    var users := GetChannel(env.kth, channels, [p.initiatorXpub, p.responderXpub]);
    && threeParty.Ok? && two.Ok? && users.Ok? && Has(two.value.agreements, p.targetAppIdentityHash)
    && var agreement := Lookup(two.value.agreements, p.targetAppIdentityHash).value;
       var passThrough := Lookup(threeParty.value.appInstances, agreement.timeLockedPassThroughIdentityHash);
       && token == agreement.tokenAddress
       && passThrough.Some? && passThrough.value.latestState.PassThroughState?
       && Lookup(users.value.appInstances, passThrough.value.latestState.targetAppIdentityHash).Some?
       && app == if passThrough.value.latestState.switchesOutcomeAt <= env.provider.blockNumber then passThrough.value
                 else Lookup(users.value.appInstances, passThrough.value.latestState.targetAppIdentityHash).value
  }

  /** In the channel with the intermediary, the user is credited what the outcome pays to it, and the intermediary what it
      pays to the other user. */
  ghost predicate Settles(before: StateChannel, after: StateChannel, app: AppInstance, outcome: Outcome, token: Token,
                          user: Address, other: Address, intermediary: Address)
  {
    Moved(before, after, token, user, Payment(app, outcome, token, user), intermediary, Payment(app, outcome, token, other))
  }

  lemma SettlementPays(channel: StateChannel, target: Hash, app: AppInstance, outcome: Outcome, token: Token,
                       user: Address, other: Address, intermediary: Address, toUser: int, toIntermediary: int)
    requires user != intermediary && ComputeIncrements(app, outcome).Ok?
    requires toUser == Amount(IncrementsOf(ComputeIncrements(app, outcome).value, token), user)
    requires toIntermediary == Amount(IncrementsOf(ComputeIncrements(app, outcome).value, token), other)
    requires RemoveAgreement(channel, target, Pair(intermediary, toIntermediary, user, toUser), token).Ok?
    ensures Settles(channel, RemoveAgreement(channel, target, Pair(intermediary, toIntermediary, user, toUser), token).value,
                    app, outcome, token, user, other, intermediary)
  {
    RemoveAgreementMoves(channel, target, token, intermediary, toIntermediary, user, toUser);
    IncrementsPay(app, outcome, token, user);
    IncrementsPay(app, outcome, token, other);
  }

  /** Whenever an endpoint's uninstall goes through, before the pass-through app has expired or after. */
  lemma InitiatorSettles(env: Environment, channels: Channels, p: UninstallVirtualAppParams) returns (app: AppInstance, token: Token)
    requires UninstallForInitiating(env, channels, p).Ok? && env.kth(p.initiatorXpub, 0) != env.kth(p.intermediaryXpub, 0)
    ensures Decides(env, channels, p, [p.initiatorXpub, p.intermediaryXpub], app, token)
    ensures Settles(GetChannel(env.kth, channels, [p.initiatorXpub, p.intermediaryXpub]).value, UninstallForInitiating(env, channels, p).value.withIntermediary,
                    app, ComputeOutcome(app, env.provider), token,
                    env.kth(p.initiatorXpub, 0), env.kth(p.responderXpub, 0), env.kth(p.intermediaryXpub, 0))
  {
    var two := GetChannel(env.kth, channels, [p.initiatorXpub, p.intermediaryXpub]).value;
    var users := GetChannel(env.kth, channels, [p.initiatorXpub, p.responderXpub]).value;
    var agreement := Lookup(two.agreements, p.targetAppIdentityHash).value;
    var passThrough := PassThroughOf(GetChannel(env.kth, channels, [p.initiatorXpub, p.responderXpub, p.intermediaryXpub]).value, agreement).value;
    var virtualApp := Lookup(users.appInstances, passThrough.latestState.targetAppIdentityHash).value;
    token := agreement.tokenAddress;
    app := if Expired(passThrough, env.provider) then passThrough else virtualApp;
    var amounts := IncrementsOf(ComputeIncrements(app, ComputeOutcome(app, env.provider)).value, token);
    SettlementPays(two, virtualApp.IdentityHash(), app, ComputeOutcome(app, env.provider), token,
                   env.kth(p.initiatorXpub, 0), env.kth(p.responderXpub, 0), env.kth(p.intermediaryXpub, 0),
                   Amount(amounts, env.kth(p.initiatorXpub, 0)), Amount(amounts, env.kth(p.responderXpub, 0)));
  }

  lemma ResponderSettles(env: Environment, channels: Channels, p: UninstallVirtualAppParams) returns (app: AppInstance, token: Token)
    requires UninstallForResponding(env, channels, p).Ok? && env.kth(p.responderXpub, 0) != env.kth(p.intermediaryXpub, 0)
    ensures Decides(env, channels, p, [p.responderXpub, p.intermediaryXpub], app, token)
    ensures Settles(GetChannel(env.kth, channels, [p.responderXpub, p.intermediaryXpub]).value, UninstallForResponding(env, channels, p).value.withIntermediary,
                    app, ComputeOutcome(app, env.provider), token,
                    env.kth(p.responderXpub, 0), env.kth(p.initiatorXpub, 0), env.kth(p.intermediaryXpub, 0))
  {
    var two := GetChannel(env.kth, channels, [p.responderXpub, p.intermediaryXpub]).value;
    var users := GetChannel(env.kth, channels, [p.initiatorXpub, p.responderXpub]).value;
    var agreement := Lookup(two.agreements, p.targetAppIdentityHash).value;
    var passThrough := PassThroughOf(GetChannel(env.kth, channels, [p.initiatorXpub, p.responderXpub, p.intermediaryXpub]).value, agreement).value;
    var virtualApp := Lookup(users.appInstances, passThrough.latestState.targetAppIdentityHash).value;
    token := agreement.tokenAddress;
    app := if Expired(passThrough, env.provider) then passThrough else virtualApp;
    var amounts := IncrementsOf(ComputeIncrements(app, ComputeOutcome(app, env.provider)).value, token);
    SettlementPays(two, virtualApp.IdentityHash(), app, ComputeOutcome(app, env.provider), token,
                   env.kth(p.responderXpub, 0), env.kth(p.initiatorXpub, 0), env.kth(p.intermediaryXpub, 0),
                   Amount(amounts, env.kth(p.responderXpub, 0)), Amount(amounts, env.kth(p.initiatorXpub, 0)));
  }

  /** The intermediary settles by the pass-through app in both channels: by the outcome asked for, or by the app's default
      outcome from the block on that is set in it. */
  lemma IntermediarySettles(env: Environment, channels: Channels, p: UninstallVirtualAppParams) returns (passThrough: AppInstance, outcome: Outcome, token: Token)
    requires UninstallForIntermediary(env, channels, p).Ok?
    requires env.kth(p.initiatorXpub, 0) != env.kth(p.intermediaryXpub, 0) && env.kth(p.responderXpub, 0) != env.kth(p.intermediaryXpub, 0)
    ensures UninstallAgreementOf(env, channels, p).Ok? && token == UninstallAgreementOf(env, channels, p).value.tokenAddress
    ensures UninstallPassThrough(env, channels, p) == Ok(passThrough) && passThrough.latestState.PassThroughState?
    ensures outcome == if passThrough.latestState.switchesOutcomeAt <= env.provider.blockNumber then passThrough.latestState.defaultOutcome else p.targetOutcome
    ensures Settles(GetChannel(env.kth, channels, [p.initiatorXpub, p.intermediaryXpub]).value, UninstallForIntermediary(env, channels, p).value.withInitiating,
                    passThrough, outcome, token, env.kth(p.initiatorXpub, 0), env.kth(p.responderXpub, 0), env.kth(p.intermediaryXpub, 0))
    ensures Settles(GetChannel(env.kth, channels, [p.intermediaryXpub, p.responderXpub]).value, UninstallForIntermediary(env, channels, p).value.withResponding,
                    passThrough, outcome, token, env.kth(p.responderXpub, 0), env.kth(p.initiatorXpub, 0), env.kth(p.intermediaryXpub, 0))
  {
    passThrough := UninstallPassThrough(env, channels, p).value;
    token := UninstallAgreementOf(env, channels, p).value.tokenAddress;
    outcome := if Expired(passThrough, env.provider) then passThrough.latestState.defaultOutcome else p.targetOutcome;
    var (i, m, r) := (env.kth(p.initiatorXpub, 0), env.kth(p.intermediaryXpub, 0), env.kth(p.responderXpub, 0));
    var amounts := IncrementsOf(ComputeIncrements(passThrough, outcome).value, token);
    var target := passThrough.latestState.targetAppIdentityHash;
    SettlementPays(GetChannel(env.kth, channels, [p.initiatorXpub, p.intermediaryXpub]).value, target, passThrough, outcome, token, i, r, m,
                   Amount(amounts, i), Amount(amounts, r));
    SettlementPays(GetChannel(env.kth, channels, [p.intermediaryXpub, p.responderXpub]).value, target, passThrough, outcome, token, r, i, m,
                   Amount(amounts, r), Amount(amounts, i));
  }
}
