/** When virtual apps can be installed and uninstalled: exactly when everybody can pay, and what was installed can
    always be uninstalled with an outcome that takes nothing from anybody. */
module VirtualProgress {
  import opened Amounts
  import opened AppInstances
  import opened Dictionaries
  import opened FreeBalances
  import opened Outcomes
  import opened Primitives
  import opened Results
  import opened StateChannels
  import opened VirtualAgreement
  import opened VirtualApps
  import opened VirtualConservation
  import opened VirtualLifecycle

  /** A channel that has been set up and owes nothing. */
  ghost predicate Solvent(channel: StateChannel) {
    GetFreeBalance(channel).Ok? && NonNegative(View(channel).balances)
  }

  /** An increment of two balances of one token goes through exactly when it leaves neither of them negative. */
  lemma PairGoesThrough(balances: Balances, token: Token, increments: CoinTransferMap, to1: Address, change1: int, to2: Address, change2: int)
    requires NonNegative(balances)
    requires forall to :: Amount(increments, to) == if to == to1 then change1 else if to == to2 then change2 else 0
    requires to1 != to2
    ensures Increment(balances, SingleToken(token, increments)).Ok? <==>
            Balance(balances, token, to1) + change1 >= 0 && Balance(balances, token, to2) + change2 >= 0
    ensures Increment(balances, SingleToken(token, increments)).Ok? ==>
            NonNegative(Increment(balances, SingleToken(token, increments)).value)
  {
    var all := SingleToken(token, increments);
    IncrementNonNegative(balances, all);
    assert forall t :: IncrementsOf(all, t) == if t == token then increments else Nil;
    assert Amount(IncrementsOf(all, token), to1) == change1 && Amount(IncrementsOf(all, token), to2) == change2;
    forall t, to ensures Balance(balances, t, to) >= 0 {}
  }

  lemma AgreementGoesThrough(channel: StateChannel, target: Hash, agreement: Agreement, token: Token,
                             to1: Address, amount1: int, to2: Address, amount2: int)
    requires Solvent(channel) && to1 != to2
    ensures var r := AddAgreement(channel, target, agreement, Pair(to1, amount1, to2, amount2), token);
            && (r.Ok? <==> Held(channel, token, to1) >= amount1 && Held(channel, token, to2) >= amount2)
            && (r.Ok? ==> Solvent(r.value))
  {
    var pair := Pair(to1, amount1, to2, amount2);
    var recorded := channel.(agreements := Put(channel.agreements, target, agreement));
    assert GetFreeBalance(recorded) == GetFreeBalance(channel);
    AddActiveSpec(recorded, target, SingleToken(token, Flip(pair)));
    PairTotal(to1, amount1, to2, amount2);
    PairGoesThrough(View(channel).balances, token, Flip(pair), to1, -amount1, to2, -amount2);
  }

  lemma RemovalGoesThrough(channel: StateChannel, target: Hash, token: Token, to1: Address, amount1: int, to2: Address, amount2: int)
    requires Solvent(channel) && Has(channel.agreements, target) && to1 != to2
    ensures var r := RemoveAgreement(channel, target, Pair(to1, amount1, to2, amount2), token);
            && (r.Ok? <==> Held(channel, token, to1) + amount1 >= 0 && Held(channel, token, to2) + amount2 >= 0)
            && (r.Ok? ==> Solvent(r.value))
  {
    var pair := Pair(to1, amount1, to2, amount2);
    var without := channel.(agreements := Delete(channel.agreements, target));
    assert GetFreeBalance(without) == GetFreeBalance(channel);
    RemoveActiveSpec(without, target, SingleToken(token, pair));
    PairTotal(to1, amount1, to2, amount2);
    PairGoesThrough(View(channel).balances, token, pair, to1, amount1, to2, amount2);
  }

  // ---- Installing ----

  /** Both owners of the channel can lock what an install asks of them. */
  predicate Affords(channel: StateChannel, token: Token, user: Address, stake: int, intermediary: Address, other: int)
    requires GetFreeBalance(channel).Ok?
  {
    Held(channel, token, user) >= stake && Held(channel, token, intermediary) >= other
  }

  /** The two channels with the intermediary exist and are solvent, seen from the stores that hold them. */
  ghost predicate BothSolvent(kth: Derivation, channels: Channels, p: InstallVirtualAppParams) {
    var channelI, channelR := GetChannel(kth, channels, [p.initiatorXpub, p.intermediaryXpub]), GetChannel(kth, channels, [p.responderXpub, p.intermediaryXpub]);
    channelI.Ok? && channelR.Ok? && Solvent(channelI.value) && Solvent(channelR.value)
  }

  /** Each role's install goes through exactly when the owners of each channel it changes can pay: the users their
      own stakes, the intermediary the stake of the user on the other side. */
  lemma InitiatorInstalls(env: Environment, channels: Channels, p: InstallVirtualAppParams)
    requires p.outcomeType != MULTI_ASSET_MULTI_PARTY_COIN_TRANSFER
    requires DistinctParties(env.kth, p.initiatorXpub, p.intermediaryXpub, p.responderXpub)
    requires GetChannel(env.kth, channels, [p.initiatorXpub, p.intermediaryXpub]).Ok?
    requires Solvent(GetChannel(env.kth, channels, [p.initiatorXpub, p.intermediaryXpub]).value)
    ensures InstallForInitiating(env, channels, p).Ok? <==>
            Affords(GetChannel(env.kth, channels, [p.initiatorXpub, p.intermediaryXpub]).value, p.tokenAddress,
                    env.kth(p.initiatorXpub, 0), p.initiatorBalanceDecrement, env.kth(p.intermediaryXpub, 0), p.responderBalanceDecrement)
  {
    var virtualApp := ConstructVirtualApp(env.kth, p).value;
    var threeParty := GetOrCreate(env.kth, channels, [p.initiatorXpub, p.responderXpub, p.intermediaryXpub]);
    var passThrough := ConstructPassThrough(env, threeParty, virtualApp.IdentityHash(), ComputeOutcome(virtualApp, env.provider), p).value;
    AgreementGoesThrough(GetChannel(env.kth, channels, [p.initiatorXpub, p.intermediaryXpub]).value, virtualApp.IdentityHash(),
                         AgreementWith(env.kth, p, passThrough, p.initiatorXpub), p.tokenAddress,
                         env.kth(p.initiatorXpub, 0), p.initiatorBalanceDecrement, env.kth(p.intermediaryXpub, 0), p.responderBalanceDecrement);
  }

  lemma IntermediaryInstalls(env: Environment, channels: Channels, p: InstallVirtualAppParams, virtualApp: Hash, defaultOutcome: Outcome)
    requires p.outcomeType != MULTI_ASSET_MULTI_PARTY_COIN_TRANSFER
    requires DistinctParties(env.kth, p.initiatorXpub, p.intermediaryXpub, p.responderXpub) && BothSolvent(env.kth, channels, p)
    ensures var r := InstallForIntermediary(env, channels, p, virtualApp, defaultOutcome);
            && (r.Ok? <==>
                  && Affords(GetChannel(env.kth, channels, [p.initiatorXpub, p.intermediaryXpub]).value, p.tokenAddress,
                             env.kth(p.initiatorXpub, 0), p.initiatorBalanceDecrement, env.kth(p.intermediaryXpub, 0), p.responderBalanceDecrement)
                  && Affords(GetChannel(env.kth, channels, [p.responderXpub, p.intermediaryXpub]).value, p.tokenAddress,
                             env.kth(p.responderXpub, 0), p.responderBalanceDecrement, env.kth(p.intermediaryXpub, 0), p.initiatorBalanceDecrement))
            && (r.Ok? ==> Solvent(r.value.withInitiating) && Solvent(r.value.withResponding))
  {
    var (i, m, r) := (env.kth(p.initiatorXpub, 0), env.kth(p.intermediaryXpub, 0), env.kth(p.responderXpub, 0));
    var threeParty := GetOrCreate(env.kth, channels, [p.initiatorXpub, p.responderXpub, p.intermediaryXpub]);
    var passThrough := ConstructPassThrough(env, threeParty, virtualApp, defaultOutcome, p).value;
    AgreementGoesThrough(GetChannel(env.kth, channels, [p.initiatorXpub, p.intermediaryXpub]).value, virtualApp,
                         AgreementWith(env.kth, p, passThrough, p.initiatorXpub), p.tokenAddress,
                         i, p.initiatorBalanceDecrement, m, p.responderBalanceDecrement);
    AgreementGoesThrough(GetChannel(env.kth, channels, [p.responderXpub, p.intermediaryXpub]).value, virtualApp,
                         AgreementWith(env.kth, p, passThrough, p.responderXpub), p.tokenAddress,
                         m, p.initiatorBalanceDecrement, r, p.responderBalanceDecrement);
  }

  /** From agreeing copies: all three installs go through when everybody can pay, and otherwise the initiator's
      or the intermediary's throws. */
  lemma InstallGoesThrough(env: Environment, initiator: Channels, intermediary: Channels, responder: Channels, p: InstallVirtualAppParams)
    requires p.outcomeType != MULTI_ASSET_MULTI_PARTY_COIN_TRANSFER
    requires DistinctParties(env.kth, p.initiatorXpub, p.intermediaryXpub, p.responderXpub) && BothSolvent(env.kth, intermediary, p)
    requires CopiesAgree(env.kth, initiator, intermediary, responder, p.initiatorXpub, p.intermediaryXpub, p.responderXpub)
    ensures var i := InstallForInitiating(env, initiator, p);
            var everyone :=
              && Affords(GetChannel(env.kth, intermediary, [p.initiatorXpub, p.intermediaryXpub]).value, p.tokenAddress,
                         env.kth(p.initiatorXpub, 0), p.initiatorBalanceDecrement, env.kth(p.intermediaryXpub, 0), p.responderBalanceDecrement)
              && Affords(GetChannel(env.kth, intermediary, [p.responderXpub, p.intermediaryXpub]).value, p.tokenAddress,
                         env.kth(p.responderXpub, 0), p.responderBalanceDecrement, env.kth(p.intermediaryXpub, 0), p.initiatorBalanceDecrement);
            && (everyone ==> i.Ok? && IntermediaryView(env, intermediary, p, i.value.virtualApp).Ok? && InstallForResponding(env, responder, p).Ok?)
            && (i.Ok? && IntermediaryView(env, intermediary, p, i.value.virtualApp).Ok? ==> everyone)
  {
    InitiatorInstalls(env, initiator, p);
    var i := InstallForInitiating(env, initiator, p);
    if i.Ok? {
      IntermediaryInstalls(env, intermediary, p, i.value.virtualApp.IdentityHash(), ComputeOutcome(i.value.virtualApp, env.provider));
      InstallAgreement(env, initiator, intermediary, responder, p);
    }
  }

  // ---- Uninstalling ----

  /** Settling a channel, when the outcome pays x to the initiator and y to the responder. */
  lemma SettlingGoesThrough(kth: Derivation, channelI: StateChannel, channelR: StateChannel, p: UninstallVirtualAppParams, target: Hash,
                            token: Token, increments: TokenIndexedCoinTransferMap, x: int, y: int)
    requires DistinctParties(kth, p.initiatorXpub, p.intermediaryXpub, p.responderXpub)
    requires Solvent(channelI) && Solvent(channelR) && Has(channelI.agreements, target) && Has(channelR.agreements, target)
    requires Has(increments, token) && Amount(IncrementsOf(increments, token), kth(p.initiatorXpub, 0)) == x
    requires Amount(IncrementsOf(increments, token), kth(p.responderXpub, 0)) == y
    ensures SettleWithInitiator(kth, channelI, p, target, increments, token).Ok? <==>
            Held(channelI, token, kth(p.initiatorXpub, 0)) + x >= 0 && Held(channelI, token, kth(p.intermediaryXpub, 0)) + y >= 0
    ensures SettleWithResponder(kth, channelR, p, target, increments, token).Ok? <==>
            Held(channelR, token, kth(p.responderXpub, 0)) + y >= 0 && Held(channelR, token, kth(p.intermediaryXpub, 0)) + x >= 0
  {
    RemovalGoesThrough(channelI, target, token, kth(p.intermediaryXpub, 0), y, kth(p.initiatorXpub, 0), x);
    RemovalGoesThrough(channelR, target, token, kth(p.intermediaryXpub, 0), x, kth(p.responderXpub, 0), y);
  }

  /** Paying x and y out, and what the intermediary passes on, leaves no balance of the two channels negative. */
  predicate Payable(kth: Derivation, channelI: StateChannel, channelR: StateChannel, p: UninstallVirtualAppParams, token: Token, x: int, y: int)
    requires GetFreeBalance(channelI).Ok? && GetFreeBalance(channelR).Ok?
  {
    && Held(channelI, token, kth(p.initiatorXpub, 0)) + x >= 0 && Held(channelI, token, kth(p.intermediaryXpub, 0)) + y >= 0
    && Held(channelR, token, kth(p.responderXpub, 0)) + y >= 0 && Held(channelR, token, kth(p.intermediaryXpub, 0)) + x >= 0
  }

  lemma RolesGoThrough(kth: Derivation, p: UninstallVirtualAppParams, s: Shared, blockNumber: nat, x: int, y: int,
                       i: Result<EndpointUninstall>, m: Result<IntermediaryUninstall>, r: Result<EndpointUninstall>)
    requires ReadyToUninstall(s, p.targetAppIdentityHash, blockNumber)
    requires ResultsOf(kth, p, s, BasisOf(s, p.targetAppIdentityHash), i, m, r)
    requires DistinctParties(kth, p.initiatorXpub, p.intermediaryXpub, p.responderXpub)
    requires Solvent(s.withInitiating) && Solvent(s.withResponding)
    requires Pays(BasisOf(s, p.targetAppIdentityHash).passThrough.interpreterParams, p.targetOutcome,
                  kth(p.initiatorXpub, 0), x, kth(p.responderXpub, 0), y)
    ensures m.Ok? <==> Payable(kth, s.withInitiating, s.withResponding, p, BasisOf(s, p.targetAppIdentityHash).token, x, y)
  {
    var basis := BasisOf(s, p.targetAppIdentityHash);
    PaysAmounts(basis.passThrough, p.targetOutcome, basis.token, kth(p.initiatorXpub, 0), x, kth(p.responderXpub, 0), y);
    SettlingGoesThrough(kth, s.withInitiating, s.withResponding, p, p.targetAppIdentityHash, basis.token,
                        ComputeIncrements(basis.passThrough, p.targetOutcome).value, x, y);
  }

  /** The endpoints' uninstalls go through when the outcome, by the virtual app, takes nothing from either user. */
  lemma EndpointsGoThrough(kth: Derivation, p: UninstallVirtualAppParams, s: Shared, blockNumber: nat, x: nat, y: nat,
                           i: Result<EndpointUninstall>, m: Result<IntermediaryUninstall>, r: Result<EndpointUninstall>)
    requires ReadyToUninstall(s, p.targetAppIdentityHash, blockNumber)
    requires ResultsOf(kth, p, s, BasisOf(s, p.targetAppIdentityHash), i, m, r)
    requires DistinctParties(kth, p.initiatorXpub, p.intermediaryXpub, p.responderXpub)
    requires Solvent(s.withInitiating) && Solvent(s.withResponding)
    requires Pays(BasisOf(s, p.targetAppIdentityHash).virtualApp.interpreterParams, p.targetOutcome,
                  kth(p.initiatorXpub, 0), x, kth(p.responderXpub, 0), y)
    ensures i.Ok? && r.Ok?
  {
    var basis := BasisOf(s, p.targetAppIdentityHash);
    PaysAmounts(basis.virtualApp, p.targetOutcome, basis.token, kth(p.initiatorXpub, 0), x, kth(p.responderXpub, 0), y);
    SettlingGoesThrough(kth, s.withInitiating, s.withResponding, p, p.targetAppIdentityHash, basis.token,
                        ComputeIncrements(basis.virtualApp, p.targetOutcome).value, x, y);
    NothingTaken(kth, s.withInitiating, s.withResponding, p, basis.token, x, y);
  }

  /** The channels of a lifetime stay solvent at install, and their agreement is in the token of the install. */
  lemma InstalledSolvent(t: Lifetime)
    requires t.Starts() && BothSolvent(t.env.kth, t.intermediary, t.install)
    ensures Solvent(t.M().value.withInitiating) && Solvent(t.M().value.withResponding)
    ensures var agreement := Lookup(t.M().value.withInitiating.agreements, t.uninstall.targetAppIdentityHash);
            agreement.Some? && agreement.value.tokenAddress == t.install.tokenAddress
  {
    var virtualApp := t.I().value.virtualApp;
    IntermediaryInstalls(t.env, t.intermediary, t.install, virtualApp.IdentityHash(), ComputeOutcome(virtualApp, t.env.provider));
    MultisigsKept(t.env, t.intermediary, t.install, virtualApp.IdentityHash(), ComputeOutcome(virtualApp, t.env.provider));
  }

  /** The three uninstalls of a lifetime go through together exactly when the outcome leaves no balance negative;
      in particular whenever it takes nothing from either user. */
  lemma UninstallGoesThrough(t: Lifetime, x: int, y: int)
    requires t.Starts() && EndsWith(t, x, y) && BothSolvent(t.env.kth, t.intermediary, t.install)
    ensures t.R().Ok? && t.BetweenUsers().Ok?
    ensures Solvent(t.M().value.withInitiating) && Solvent(t.M().value.withResponding)
    ensures UninstallForIntermediary(AtBlock(t.env, t.blocks.1), t.IntermediaryLater(), t.uninstall).Ok? <==>
            Payable(t.env.kth, t.M().value.withInitiating, t.M().value.withResponding, t.uninstall, t.install.tokenAddress, x, y)
    ensures x >= 0 && y >= 0 ==> UninstallForIntermediary(AtBlock(t.env, t.blocks.1), t.IntermediaryLater(), t.uninstall).Ok?
  {
    LifetimeReady(t, t.blocks.0);
    LifetimeReady(t, t.blocks.1);
    LifetimeReady(t, t.blocks.2);
    InstalledSolvent(t);
    var s, env := t.SharedLater(), t.env;
    RolesCompute(env, t.blocks, t.InitiatorLater(), t.IntermediaryLater(), t.ResponderLater(), t.uninstall, s);
    RolesGoThrough(env.kth, t.uninstall, s, t.blocks.1, x, y,
                   UninstallForInitiating(AtBlock(env, t.blocks.0), t.InitiatorLater(), t.uninstall),
                   UninstallForIntermediary(AtBlock(env, t.blocks.1), t.IntermediaryLater(), t.uninstall),
                   UninstallForResponding(AtBlock(env, t.blocks.2), t.ResponderLater(), t.uninstall));
    NothingTaken(env.kth, s.withInitiating, s.withResponding, t.uninstall, t.install.tokenAddress, x, y);
  }

  lemma NothingTaken(kth: Derivation, channelI: StateChannel, channelR: StateChannel, p: UninstallVirtualAppParams, token: Token, x: int, y: int)
    requires Solvent(channelI) && Solvent(channelR)
    ensures x >= 0 && y >= 0 ==> Payable(kth, channelI, channelR, p, token, x, y)
  {
  }
}
