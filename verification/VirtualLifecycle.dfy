/** From install to uninstall: saving what install computes leaves the three stores ready to uninstall, and what
    the outcome types pay out. */
module VirtualLifecycle {
  import opened Amounts
  import opened AppInstances
  import opened Dictionaries
  import opened FreeBalances
  import opened Outcomes
  import opened Primitives
  import opened Results
  import opened Sorting
  import opened StateChannels
  import opened VirtualAgreement
  import opened VirtualApps
  import opened VirtualConservation

  /** Every channel is stored under its own multisig address. */
  ghost predicate StoreKeyed(channels: Channels) {
    forall m :: m in channels ==> channels[m].multisigAddress == m
  }

  ghost predicate DistinctParties(kth: Derivation, i: Xpub, m: Xpub, r: Xpub) {
    kth(i, 0) != kth(m, 0) && kth(i, 0) != kth(r, 0) && kth(m, 0) != kth(r, 0)
  }

  lemma SameMultisigSameOwners(kth: Derivation, xpubs: seq<Xpub>, xpubs': seq<Xpub>)
    requires MultisigOf(kth, xpubs) == MultisigOf(kth, xpubs')
    ensures multiset(KthAddresses(kth, xpubs, 0)) == multiset(KthAddresses(kth, xpubs', 0))
  {
    SortPermutes(KthAddresses(kth, xpubs, 0), (a: Address) => a);
    SortPermutes(KthAddresses(kth, xpubs', 0), (a: Address) => a);
  }

  /** The four channels of a virtual app have four different multisigs. */
  lemma FourChannels(kth: Derivation, i: Xpub, m: Xpub, r: Xpub)
    requires DistinctParties(kth, i, m, r)
    ensures MultisigOf(kth, [i, m]) != MultisigOf(kth, [i, r])
    ensures MultisigOf(kth, [i, m]) != MultisigOf(kth, [r, m])
    ensures MultisigOf(kth, [r, m]) != MultisigOf(kth, [i, r])
    ensures MultisigOf(kth, [i, r, m]) !in {MultisigOf(kth, [i, m]), MultisigOf(kth, [r, m]), MultisigOf(kth, [i, r])}
  {
    var (a, b, c) := (kth(i, 0), kth(m, 0), kth(r, 0));
    assert KthAddresses(kth, [i, m], 0) == [a, b] && KthAddresses(kth, [i, r], 0) == [a, c];
    assert KthAddresses(kth, [r, m], 0) == [c, b] && KthAddresses(kth, [i, r, m], 0) == [a, c, b];
    assert b in multiset([a, b]) && b !in multiset([a, c]) && a in multiset([a, b]) && a !in multiset([c, b]);
    assert c !in multiset([a, b]) && c in multiset([a, c, b]) && a in multiset([a, c, b]) && b in multiset([a, c, b]);
    if MultisigOf(kth, [i, m]) == MultisigOf(kth, [i, r]) { SameMultisigSameOwners(kth, [i, m], [i, r]); }
    if MultisigOf(kth, [i, m]) == MultisigOf(kth, [r, m]) { SameMultisigSameOwners(kth, [i, m], [r, m]); }
    if MultisigOf(kth, [r, m]) == MultisigOf(kth, [i, r]) { SameMultisigSameOwners(kth, [r, m], [i, r]); }
    if MultisigOf(kth, [i, r, m]) == MultisigOf(kth, [i, m]) { SameMultisigSameOwners(kth, [i, r, m], [i, m]); }
    if MultisigOf(kth, [i, r, m]) == MultisigOf(kth, [r, m]) { SameMultisigSameOwners(kth, [i, r, m], [r, m]); }
    if MultisigOf(kth, [i, r, m]) == MultisigOf(kth, [i, r]) { SameMultisigSameOwners(kth, [i, r, m], [i, r]); }
  }

  /** The free balance app that setup gave the channel of these owners. */
  predicate OwnFreeBalance(kth: Derivation, channel: StateChannel, xpubs: seq<Xpub>) {
    && channel.freeBalanceAppInstance.Some?
    && channel.freeBalanceAppInstance.value.IdentityHash() == AppHash(0, SortedKthAddresses(kth, xpubs, 0))
  }

  lemma SortedLengths(a: Address, b: Address, c: Address)
    ensures |SortAddresses([a, b])| == 2 && |SortAddresses([a, b, c])| == 3
  {
    SortPermutes([a, b], (x: Address) => x);
    SortPermutes([a, b, c], (x: Address) => x);
  }

  lemma ChannelIdentities(kth: Derivation, i: Xpub, m: Xpub, r: Xpub)
    requires DistinctParties(kth, i, m, r)
    ensures SortedKthAddresses(kth, [i, m], 0) != SortedKthAddresses(kth, [r, m], 0)
    ensures |SortedKthAddresses(kth, [i, m], 0)| == 2 && |SortedKthAddresses(kth, [r, m], 0)| == 2
  {
    FourChannels(kth, i, m, r);
    assert KthAddresses(kth, [i, m], 0) == [kth(i, 0), kth(m, 0)] && KthAddresses(kth, [r, m], 0) == [kth(r, 0), kth(m, 0)];
    SortedLengths(kth(i, 0), kth(m, 0), 0);
    SortedLengths(kth(r, 0), kth(m, 0), 0);
  }

  /** The roles' results fit together as installing from agreeing copies leaves them. */
  ghost predicate InstalledTogether(kth: Derivation, p: InstallVirtualAppParams, i: EndpointInstall, m: IntermediaryInstall, r: EndpointInstall) {
    && InstalledAlike(i, m, r)
    && i.threeParty.multisigAddress == MultisigOf(kth, [p.initiatorXpub, p.responderXpub, p.intermediaryXpub])
    && i.betweenUsers.multisigAddress == MultisigOf(kth, [p.initiatorXpub, p.responderXpub])
    && m.withInitiating.multisigAddress == MultisigOf(kth, [p.initiatorXpub, p.intermediaryXpub])
    && m.withResponding.multisigAddress == MultisigOf(kth, [p.responderXpub, p.intermediaryXpub])
  }

  /** Saving keeps the copies in agreement: after all three have saved, they share the four new channels. */
  lemma SavedCopiesAgree(kth: Derivation, initiator: Channels, intermediary: Channels, responder: Channels, p: InstallVirtualAppParams,
                         i: EndpointInstall, m: IntermediaryInstall, r: EndpointInstall, u: UninstallVirtualAppParams)
    requires InstalledTogether(kth, p, i, m, r)
    requires DistinctParties(kth, p.initiatorXpub, p.intermediaryXpub, p.responderXpub)
    requires u.initiatorXpub == p.initiatorXpub && u.responderXpub == p.responderXpub && u.intermediaryXpub == p.intermediaryXpub
    ensures StoresShare(kth,
                        SaveAll(initiator, i.withIntermediary, i.betweenUsers, i.threeParty),
                        SaveAll(intermediary, m.threeParty, m.withResponding, m.withInitiating),
                        SaveAll(responder, r.withIntermediary, r.threeParty, r.betweenUsers),
                        u, Shared(i.threeParty, m.withInitiating, m.withResponding, i.betweenUsers))
  {
    FourChannels(kth, p.initiatorXpub, p.intermediaryXpub, p.responderXpub);
  }

  // ---- Ready to uninstall ----

  lemma AgreementRecorded(channel: StateChannel, target: Hash, agreement: Agreement, decrements: CoinTransferMap, token: Token)
    requires AddAgreement(channel, target, agreement, decrements, token).Ok?
    ensures var channel' := AddAgreement(channel, target, agreement, decrements, token).value;
            Lookup(channel'.agreements, target) == Some(agreement) && channel'.multisigAddress == channel.multisigAddress
  {
    AddActiveSpec(channel.(agreements := Put(channel.agreements, target, agreement)), target, SingleToken(token, Flip(decrements)));
  }

  /** Installing from agreeing copies that are stored under their own multisigs. */
  lemma InstallFitsTogether(env: Environment, initiator: Channels, intermediary: Channels, responder: Channels, p: InstallVirtualAppParams)
    requires StoreKeyed(initiator) && StoreKeyed(intermediary) && StoreKeyed(responder)
    requires CopiesAgree(env.kth, initiator, intermediary, responder, p.initiatorXpub, p.intermediaryXpub, p.responderXpub)
    requires InstallForInitiating(env, initiator, p).Ok?
    requires IntermediaryView(env, intermediary, p, InstallForInitiating(env, initiator, p).value.virtualApp).Ok?
    ensures InstallForResponding(env, responder, p).Ok?
    ensures var i := InstallForInitiating(env, initiator, p).value;
            InstalledTogether(env.kth, p, i, IntermediaryView(env, intermediary, p, i.virtualApp).value,
                              InstallForResponding(env, responder, p).value)
  {
    InstallAgreement(env, initiator, intermediary, responder, p);
    var i := InstallForInitiating(env, initiator, p).value;
    var m := IntermediaryView(env, intermediary, p, i.virtualApp).value;
    MultisigsKept(env, intermediary, p, i.virtualApp.IdentityHash(), ComputeOutcome(i.virtualApp, env.provider));
  }

  lemma MultisigsKept(env: Environment, channels: Channels, p: InstallVirtualAppParams, virtualApp: Hash, defaultOutcome: Outcome)
    requires StoreKeyed(channels) && InstallForIntermediary(env, channels, p, virtualApp, defaultOutcome).Ok?
    ensures var m := InstallForIntermediary(env, channels, p, virtualApp, defaultOutcome).value;
            && m.withInitiating.multisigAddress == MultisigOf(env.kth, [p.initiatorXpub, p.intermediaryXpub])
            && m.withResponding.multisigAddress == MultisigOf(env.kth, [p.responderXpub, p.intermediaryXpub])
            && Lookup(m.withInitiating.agreements, virtualApp) == Some(AgreementWith(env.kth, p, m.passThrough, p.initiatorXpub))
            && Lookup(m.withResponding.agreements, virtualApp) == Some(AgreementWith(env.kth, p, m.passThrough, p.responderXpub))
  {
    var m := InstallForIntermediary(env, channels, p, virtualApp, defaultOutcome).value;
    AgreementRecorded(GetChannel(env.kth, channels, [p.initiatorXpub, p.intermediaryXpub]).value, virtualApp,
                      AgreementWith(env.kth, p, m.passThrough, p.initiatorXpub),
                      Pair(env.kth(p.initiatorXpub, 0), p.initiatorBalanceDecrement,
                           env.kth(p.intermediaryXpub, 0), p.responderBalanceDecrement), p.tokenAddress);
    AgreementRecorded(GetChannel(env.kth, channels, [p.responderXpub, p.intermediaryXpub]).value, virtualApp,
                      AgreementWith(env.kth, p, m.passThrough, p.responderXpub),
                      Pair(env.kth(p.intermediaryXpub, 0), p.initiatorBalanceDecrement,
                           env.kth(p.responderXpub, 0), p.responderBalanceDecrement), p.tokenAddress);
  }

  /** What installing leaves behind can be uninstalled until the end of time. */
  lemma InstalledReady(env: Environment, initiator: Channels, intermediary: Channels, p: InstallVirtualAppParams, blockNumber: nat)
    requires StoreKeyed(intermediary) && blockNumber < MAX_UINT256
    requires !p.initialState.RefundState?
    requires InstallForInitiating(env, initiator, p).Ok?
    requires IntermediaryView(env, intermediary, p, InstallForInitiating(env, initiator, p).value.virtualApp).Ok?
    requires SameCopy(env.kth, initiator, intermediary, [p.initiatorXpub, p.responderXpub, p.intermediaryXpub])
    requires SameCopy(env.kth, initiator, intermediary, [p.initiatorXpub, p.intermediaryXpub])
    ensures var i := InstallForInitiating(env, initiator, p).value;
            var m := IntermediaryView(env, intermediary, p, i.virtualApp).value;
            var s := Shared(i.threeParty, m.withInitiating, m.withResponding, i.betweenUsers);
            && ReadyToUninstall(s, i.virtualApp.IdentityHash(), blockNumber)
            && BasisOf(s, i.virtualApp.IdentityHash()) == Basis(i.passThrough, i.virtualApp, p.tokenAddress)
  {
    var i := InstallForInitiating(env, initiator, p).value;
    var m := IntermediaryView(env, intermediary, p, i.virtualApp).value;
    MultisigsKept(env, intermediary, p, i.virtualApp.IdentityHash(), ComputeOutcome(i.virtualApp, env.provider));
    InstallInitiatorSide(env, initiator, intermediary, p);
  }

  /** The virtual app takes a series of states between install and uninstall. */
  function Updated(betweenUsers: StateChannel, target: Hash, states: seq<AppState>): Result<StateChannel> {
    if states == [] then Ok(betweenUsers) else
      var before :- Updated(betweenUsers, target, states[..|states| - 1]);
      SetState(before, target, states[|states| - 1])
  }

  /** Updates go through, and leave the channels ready to uninstall. */
  lemma {:induction false} UpdatesKeepReady(s: Shared, target: Hash, blockNumber: nat, states: seq<AppState>)
    requires ReadyToUninstall(s, target, blockNumber)
    requires forall state :: state in states ==> !state.RefundState?
    ensures var updated := Updated(s.betweenUsers, target, states);
            && updated.Ok?
            && updated.value.multisigAddress == s.betweenUsers.multisigAddress
            && ReadyToUninstall(s.(betweenUsers := updated.value), target, blockNumber)
            && (states != [] ==> Lookup(updated.value.appInstances, target).value.latestState == states[|states| - 1])
            && Lookup(updated.value.appInstances, target).value.interpreterParams == Lookup(s.betweenUsers.appInstances, target).value.interpreterParams
  {
    if states != [] {
      var n := |states| - 1;
      UpdatesKeepReady(s, target, blockNumber, states[..n]);
      assert states[n] in states;
      var before := Updated(s.betweenUsers, target, states[..n]).value;
      var after := SetState(before, target, states[n]).value;
      assert Lookup(after.appInstances, target) == Some(Lookup(before.appInstances, target).value.SetState(states[n]));
    }
  }

  // ---- What is due at the end ----

  /** A single-asset outcome that pays x and y to the two users, in either order. */
  predicate PaysUsers(outcome: Outcome, initiator: Address, x: int, responder: Address, y: int) {
    || outcome == TwoTransfers(Entry(initiator, x), Entry(responder, y))
    || outcome == TwoTransfers(Entry(responder, y), Entry(initiator, x))
  }

  lemma SingleAssetDue(env: Environment, channels: Channels, u: UninstallVirtualAppParams, x: int, y: int)
    requires var passThrough := UninstallPassThrough(env, channels, u);
             && passThrough.Ok?
             && passThrough.value.latestState.PassThroughState? && !Expired(passThrough.value, env.provider)
             && passThrough.value.outcomeType == SINGLE_ASSET_TWO_PARTY_COIN_TRANSFER
             && passThrough.value.interpreterParams.SingleAsset?
             && passThrough.value.interpreterParams.singleAsset.tokenAddress == TokenOf(env, channels, u)
    requires env.kth(u.initiatorXpub, 0) != env.kth(u.responderXpub, 0)
    requires PaysUsers(u.targetOutcome, env.kth(u.initiatorXpub, 0), x, env.kth(u.responderXpub, 0), y)
    ensures Due(env, channels, u) == (x, y)
  {
    PairTotal(env.kth(u.initiatorXpub, 0), x, env.kth(u.responderXpub, 0), y);
    PairTotal(env.kth(u.responderXpub, 0), y, env.kth(u.initiatorXpub, 0), x);
  }

  /** With a fixed two-party outcome the amounts due are the shares of the users' 0th addresses: nothing at all
      when these are not the players. */
  lemma FixedOutcomeDue(env: Environment, channels: Channels, u: UninstallVirtualAppParams, value: nat)
    requires var passThrough := UninstallPassThrough(env, channels, u);
             && passThrough.Ok?
             && passThrough.value.latestState.PassThroughState? && !Expired(passThrough.value, env.provider)
             && passThrough.value.outcomeType == TWO_PARTY_FIXED_OUTCOME
             && passThrough.value.interpreterParams.TwoParty?
             && passThrough.value.interpreterParams.twoParty.tokenAddress == TokenOf(env, channels, u)
    requires u.targetOutcome == FixedOutcome(value) && value <= MAX_SAFE_INTEGER
    ensures var params := UninstallPassThrough(env, channels, u).value.interpreterParams.twoParty;
            && Due(env, channels, u) == (FixedShare(value, params, env.kth(u.initiatorXpub, 0)),
                                         FixedShare(value, params, env.kth(u.responderXpub, 0)))
            && ({params.player1, params.player2} !! {env.kth(u.initiatorXpub, 0), env.kth(u.responderXpub, 0)} ==>
                  Due(env, channels, u) == (0, 0))
  {
    FixedSharesPaid(value, UninstallPassThrough(env, channels, u).value.interpreterParams.twoParty);
  }

  /** So over install and uninstall of a virtual app with a fixed outcome, the intermediary is restored, and each
      channel's money conserved, exactly when the shares of the users' 0th addresses, by the players of the
      pass-through app, make up the capital. When the players are other addresses, it loses all of it, and
      so do the users their stakes. */
  lemma FixedOutcomeNeutralIff(env: Environment, before: Channels, p: InstallVirtualAppParams, virtualApp: Hash, defaultOutcome: Outcome,
                               env': Environment, later: Channels, u: UninstallVirtualAppParams, lifeI: Life, lifeR: Life, value: nat)
    requires Lives(env, before, p, virtualApp, defaultOutcome, env', later, u, lifeI, lifeR)
    requires env.kth(p.intermediaryXpub, 0) != env.kth(p.initiatorXpub, 0)
    requires env.kth(p.intermediaryXpub, 0) != env.kth(p.responderXpub, 0)
    requires u.targetOutcome == FixedOutcome(value) && value <= MAX_SAFE_INTEGER
    requires var passThrough := UninstallPassThrough(env', later, u);
             && passThrough.Ok?
             && passThrough.value.latestState.PassThroughState? && !Expired(passThrough.value, env'.provider)
             && passThrough.value.outcomeType == TWO_PARTY_FIXED_OUTCOME
             && passThrough.value.interpreterParams.TwoParty?
             && passThrough.value.interpreterParams.twoParty.tokenAddress == p.tokenAddress
    ensures var (a, b, token) := (p.initiatorBalanceDecrement, p.responderBalanceDecrement, p.tokenAddress);
            var (i, im, r) := (env.kth(p.initiatorXpub, 0), env.kth(p.intermediaryXpub, 0), env.kth(p.responderXpub, 0));
            var players := UninstallPassThrough(env', later, u).value.interpreterParams.twoParty;
            var (x, y) := (FixedShare(value, players, i), FixedShare(value, players, r));
            && Settled(lifeI, lifeR, token, i, im, r, a, b, x, y)
            && (lifeI.Net(token, im) + lifeR.Net(token, im) == 0 <==> x + y == a + b)
            && ({players.player1, players.player2} !! {i, r} ==>
                  lifeI.Net(token, im) + lifeR.Net(token, im) == -(a + b) && lifeI.Net(token, i) == -a && lifeR.Net(token, r) == -b)
  {
    FixedOutcomeDue(env', later, u, value);
    IntermediaryNeutral(env, before, p, virtualApp, defaultOutcome, env', later, u, lifeI, lifeR);
  }

  // ---- A whole lifetime ----

  /** A virtual app's install, updates and uninstall, and the three stores it starts from. */
  datatype Lifetime = Lifetime(
    env: Environment,
    initiator: Channels, intermediary: Channels, responder: Channels,
    install: InstallVirtualAppParams,
    states: seq<AppState>,
    uninstall: UninstallVirtualAppParams,
    blocks: (nat, nat, nat))
  {
    function I(): Result<EndpointInstall> { InstallForInitiating(env, initiator, install) }

    function R(): Result<EndpointInstall> { InstallForResponding(env, responder, install) }

    function M(): Result<IntermediaryInstall> {
      var i :- I();
      IntermediaryView(env, intermediary, install, i.virtualApp)
    }

    /** The channel of the two users when the uninstall starts. */
    function BetweenUsers(): Result<StateChannel> {
      var i :- I();
      Updated(i.betweenUsers, i.virtualApp.IdentityHash(), states)
    }

    ghost predicate Starts() {
      && StoreKeyed(initiator) && StoreKeyed(intermediary) && StoreKeyed(responder)
      && DistinctParties(env.kth, install.initiatorXpub, install.intermediaryXpub, install.responderXpub)
      && CopiesAgree(env.kth, initiator, intermediary, responder, install.initiatorXpub, install.intermediaryXpub, install.responderXpub)
      && !install.initialState.RefundState? && (forall state :: state in states ==> !state.RefundState?)
      && M().Ok?
      && uninstall.initiatorXpub == install.initiatorXpub && uninstall.responderXpub == install.responderXpub
      && uninstall.intermediaryXpub == install.intermediaryXpub
      && uninstall.targetAppIdentityHash == I().value.virtualApp.IdentityHash()
      && blocks.0 < MAX_UINT256 && blocks.1 < MAX_UINT256 && blocks.2 < MAX_UINT256
    }

    /** The stores after all three saved what install computed, and the users the updates. */
    function InitiatorLater(): Channels
      requires I().Ok? && BetweenUsers().Ok?
    {
      SaveAll(initiator, I().value.withIntermediary, BetweenUsers().value, I().value.threeParty)
    }

    function IntermediaryLater(): Channels
      requires M().Ok?
    {
      SaveAll(intermediary, M().value.threeParty, M().value.withResponding, M().value.withInitiating)
    }

    function ResponderLater(): Channels
      requires R().Ok? && BetweenUsers().Ok?
    {
      SaveAll(responder, R().value.withIntermediary, R().value.threeParty, BetweenUsers().value)
    }

    function SharedLater(): Shared
      requires M().Ok? && BetweenUsers().Ok?
    {
      Shared(I().value.threeParty, M().value.withInitiating, M().value.withResponding, BetweenUsers().value)
    }
  }

  /** When the uninstall starts, all three stores share the four channels, and these are ready. */
  lemma LifetimeReady(t: Lifetime, blockNumber: nat)
    requires t.Starts() && blockNumber < MAX_UINT256
    ensures t.R().Ok? && t.BetweenUsers().Ok?
    ensures StoresShare(t.env.kth, t.InitiatorLater(), t.IntermediaryLater(), t.ResponderLater(), t.uninstall, t.SharedLater())
    ensures ReadyToUninstall(t.SharedLater(), t.uninstall.targetAppIdentityHash, blockNumber)
    ensures var basis := BasisOf(t.SharedLater(), t.uninstall.targetAppIdentityHash);
            && basis.passThrough == t.I().value.passThrough && basis.token == t.install.tokenAddress
            && basis.virtualApp.interpreterParams == t.I().value.virtualApp.interpreterParams
  {
    InstallFitsTogether(t.env, t.initiator, t.intermediary, t.responder, t.install);
    InstalledReady(t.env, t.initiator, t.intermediary, t.install, blockNumber);
    var i, m, r := t.I().value, t.M().value, t.R().value;
    UpdatesKeepReady(Shared(i.threeParty, m.withInitiating, m.withResponding, i.betweenUsers), t.uninstall.targetAppIdentityHash, blockNumber, t.states);
    var between := t.BetweenUsers().value;
    SavedCopiesAgree(t.env.kth, t.initiator, t.intermediary, t.responder, t.install,
                     i.(betweenUsers := between), m, r.(betweenUsers := between), t.uninstall);
  }

  /** An outcome pays x and y to two addresses, as an app with these parameters interprets it. */
  predicate Pays(params: InterpreterParams, outcome: Outcome, initiator: Address, x: int, responder: Address, y: int) {
    match (params, outcome)
    case (SingleAsset(_), TwoTransfers(_, _)) => PaysUsers(outcome, initiator, x, responder, y)
    case (TwoParty(p), FixedOutcome(value)) =>
      value <= MAX_SAFE_INTEGER && x == FixedShare(value, p, initiator) && y == FixedShare(value, p, responder)
    case _ => false
  }

  /** The outcome asked for is that of the virtual app in its last state. */
  ghost predicate AsksForLast(t: Lifetime)
    requires t.Starts()
  {
    && t.BetweenUsers().Ok?
    && Has(t.BetweenUsers().value.appInstances, t.uninstall.targetAppIdentityHash)
    && t.uninstall.targetOutcome ==
       ComputeOutcome(Lookup(t.BetweenUsers().value.appInstances, t.uninstall.targetAppIdentityHash).value, t.env.provider)
  }

  /** The outcome asked for is that of the virtual app in its last state, and it pays the users' 0th addresses x
      and y, by the virtual app and by its pass-through app. */
  ghost predicate EndsWith(t: Lifetime, x: int, y: int)
    requires t.Starts()
  {
    var (outcome, i, r) := (t.uninstall.targetOutcome, t.env.kth(t.install.initiatorXpub, 0), t.env.kth(t.install.responderXpub, 0));
    && AsksForLast(t)
    && Pays(t.I().value.virtualApp.interpreterParams, outcome, i, x, r, y)
    && Pays(t.I().value.passThrough.interpreterParams, outcome, i, x, r, y)
  }

  /** The token that an app's parameters name, when its outcome type goes with them. */
  predicate InToken(app: AppInstance, token: Token) {
    match app.interpreterParams
    case SingleAsset(p) => app.outcomeType == SINGLE_ASSET_TWO_PARTY_COIN_TRANSFER && p.tokenAddress == token
    case TwoParty(p) => app.outcomeType == TWO_PARTY_FIXED_OUTCOME && p.tokenAddress == token
    case _ => false
  }

  lemma PaysAmounts(app: AppInstance, outcome: Outcome, token: Token, initiator: Address, x: int, responder: Address, y: int)
    requires InToken(app, token) && !app.latestState.RefundState?
    requires Pays(app.interpreterParams, outcome, initiator, x, responder, y) && initiator != responder
    ensures var increments := ComputeIncrements(app, outcome);
            && increments.Ok? && Has(increments.value, token)
            && Amount(IncrementsOf(increments.value, token), initiator) == x && Amount(IncrementsOf(increments.value, token), responder) == y
  {
    match app.interpreterParams
    case SingleAsset(_) =>
      PairTotal(initiator, x, responder, y);
      PairTotal(responder, y, initiator, x);
    case TwoParty(p) => FixedSharesPaid(outcome.value, p);
  }

  lemma EndsWithSameShares(t: Lifetime, x: int, y: int)
    requires t.Starts() && EndsWith(t, x, y)
    ensures t.R().Ok? && ReadyToUninstall(t.SharedLater(), t.uninstall.targetAppIdentityHash, 0)
    ensures SameShares(t.env.kth, t.uninstall, BasisOf(t.SharedLater(), t.uninstall.targetAppIdentityHash))
  {
    LifetimeReady(t, 0);
  }

  /** A whole lifetime: installed from agreeing copies, updated any number of times and uninstalled with the
      outcome of its last state, a virtual app leaves the three parties in agreement again. The endpoints
      net x - a and y - b; the intermediary's money over its two channels, and the total of each channel, is
      restored exactly when x + y is the capital a + b. */
  lemma VirtualLifetime(t: Lifetime, x: int, y: int)
    requires t.Starts() && EndsWith(t, x, y)
    ensures t.R().Ok? && t.BetweenUsers().Ok?
    ensures UninstalledTogether(UninstallForInitiating(AtBlock(t.env, t.blocks.0), t.InitiatorLater(), t.uninstall),
                                UninstallForIntermediary(AtBlock(t.env, t.blocks.1), t.IntermediaryLater(), t.uninstall),
                                UninstallForResponding(AtBlock(t.env, t.blocks.2), t.ResponderLater(), t.uninstall))
    ensures UninstallForIntermediary(AtBlock(t.env, t.blocks.1), t.IntermediaryLater(), t.uninstall).Ok? ==>
              var (kth, p) := (t.env.kth, t.install);
              var ended := UninstallForIntermediary(AtBlock(t.env, t.blocks.1), t.IntermediaryLater(), t.uninstall).value;
              var beforeI := GetChannel(kth, t.intermediary, [p.initiatorXpub, p.intermediaryXpub]);
              var beforeR := GetChannel(kth, t.intermediary, [p.responderXpub, p.intermediaryXpub]);
              && beforeI.Ok? && beforeR.Ok?
              && Settled(Life(beforeI.value, t.M().value.withInitiating, t.M().value.withInitiating, ended.withInitiating),
                         Life(beforeR.value, t.M().value.withResponding, t.M().value.withResponding, ended.withResponding),
                         p.tokenAddress, kth(p.initiatorXpub, 0), kth(p.intermediaryXpub, 0), kth(p.responderXpub, 0),
                         p.initiatorBalanceDecrement, p.responderBalanceDecrement, x, y)
  {
    LifetimeReady(t, t.blocks.0);
    LifetimeReady(t, t.blocks.1);
    LifetimeReady(t, t.blocks.2);
    EndsWithSameShares(t, x, y);
    UninstallAgreement(t.env, t.blocks, t.InitiatorLater(), t.IntermediaryLater(), t.ResponderLater(), t.uninstall, t.SharedLater());
    if UninstallForIntermediary(AtBlock(t.env, t.blocks.1), t.IntermediaryLater(), t.uninstall).Ok? {
      LifetimeSettles(t, x, y);
    }
  }

  lemma LifetimeSettles(t: Lifetime, x: int, y: int)
    requires t.Starts() && EndsWith(t, x, y)
    requires UninstallForIntermediary(AtBlock(t.env, t.blocks.1), t.IntermediaryLater(), t.uninstall).Ok?
    ensures var (kth, p) := (t.env.kth, t.install);
            var ended := UninstallForIntermediary(AtBlock(t.env, t.blocks.1), t.IntermediaryLater(), t.uninstall).value;
            var beforeI := GetChannel(kth, t.intermediary, [p.initiatorXpub, p.intermediaryXpub]);
            var beforeR := GetChannel(kth, t.intermediary, [p.responderXpub, p.intermediaryXpub]);
            && beforeI.Ok? && beforeR.Ok?
            && Settled(Life(beforeI.value, t.M().value.withInitiating, t.M().value.withInitiating, ended.withInitiating),
                       Life(beforeR.value, t.M().value.withResponding, t.M().value.withResponding, ended.withResponding),
                       p.tokenAddress, kth(p.initiatorXpub, 0), kth(p.intermediaryXpub, 0), kth(p.responderXpub, 0),
                       p.initiatorBalanceDecrement, p.responderBalanceDecrement, x, y)
  {
    var kth, p, u := t.env.kth, t.install, t.uninstall;
    var env := AtBlock(t.env, t.blocks.1);
    var m := t.M().value;
    var ended := UninstallForIntermediary(env, t.IntermediaryLater(), u).value;
    LifetimeReady(t, t.blocks.1);
    OwnersInAnyOrder(kth, p.intermediaryXpub, p.responderXpub);
    LifetimeDue(t, x, y);
    var lifeI := Life(GetChannel(kth, t.intermediary, [p.initiatorXpub, p.intermediaryXpub]).value, m.withInitiating, m.withInitiating, ended.withInitiating);
    var lifeR := Life(GetChannel(kth, t.intermediary, [p.responderXpub, p.intermediaryXpub]).value, m.withResponding, m.withResponding, ended.withResponding);
    var (virtualApp, outcome) := (t.I().value.virtualApp.IdentityHash(), ComputeOutcome(t.I().value.virtualApp, t.env.provider));
    IntermediaryNeutral(t.env, t.intermediary, p, virtualApp, outcome, env, t.IntermediaryLater(), u, lifeI, lifeR);
  }

  lemma LaterPassThrough(t: Lifetime)
    requires t.Starts()
    ensures var env := AtBlock(t.env, t.blocks.1);
            && UninstallPassThrough(env, t.IntermediaryLater(), t.uninstall) == Ok(t.I().value.passThrough)
            && TokenOf(env, t.IntermediaryLater(), t.uninstall) == t.install.tokenAddress
            && t.I().value.passThrough.latestState.PassThroughState? && !Expired(t.I().value.passThrough, env.provider)
  {
    LifetimeReady(t, t.blocks.1);
  }

  lemma NewAppsInToken(env: Environment, channels: Channels, p: InstallVirtualAppParams)
    requires InstallForInitiating(env, channels, p).Ok?
    ensures InToken(InstallForInitiating(env, channels, p).value.passThrough, p.tokenAddress)
  {
  }

  lemma DueByPassThrough(env: Environment, channels: Channels, u: UninstallVirtualAppParams, passThrough: AppInstance, token: Token, x: int, y: int)
    requires UninstallPassThrough(env, channels, u) == Ok(passThrough) && TokenOf(env, channels, u) == token
    requires passThrough.latestState.PassThroughState? && !Expired(passThrough, env.provider) && InToken(passThrough, token)
    requires Pays(passThrough.interpreterParams, u.targetOutcome, env.kth(u.initiatorXpub, 0), x, env.kth(u.responderXpub, 0), y)
    requires env.kth(u.initiatorXpub, 0) != env.kth(u.responderXpub, 0)
    ensures Due(env, channels, u) == (x, y)
  {
    PaysAmounts(passThrough, u.targetOutcome, token, env.kth(u.initiatorXpub, 0), x, env.kth(u.responderXpub, 0), y);
  }

  lemma LifetimeDue(t: Lifetime, x: int, y: int)
    requires t.Starts() && EndsWith(t, x, y)
    ensures var env := AtBlock(t.env, t.blocks.1);
            && TokenOf(env, t.IntermediaryLater(), t.uninstall) == t.install.tokenAddress
            && Due(env, t.IntermediaryLater(), t.uninstall) == (x, y)
  {
    LaterPassThrough(t);
    NewAppsInToken(t.env, t.initiator, t.install);
    DueByPassThrough(AtBlock(t.env, t.blocks.1), t.IntermediaryLater(), t.uninstall, t.I().value.passThrough, t.install.tokenAddress, x, y);
  }
}
