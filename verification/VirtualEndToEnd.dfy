/** A virtual app from its install to its uninstall, through the protocols: that they can be completed, and where
    this leaves the three stores and the money. */
module VirtualEndToEnd {
  import opened AppInstances
  import opened Commitments
  import opened Dictionaries
  import opened FreeBalances
  import opened Outcomes
  import opened Engine
  import opened Primitives
  import opened Results
  import opened StateChannels
  import opened VirtualAgreement
  import opened VirtualApps
  import opened VirtualChanges
  import opened VirtualConservation
  import opened VirtualFixedOutcomes
  import opened VirtualLifecycle
  import opened VirtualProgress
  import Install = InstallVirtualProtocol
  import Uninstall = UninstallVirtualProtocol

  /** The three parties run the install protocol, each from its own store and with the plan for what it computed. */
  ghost predicate Installs(sys: System, t: Lifetime) {
    var (kth, p) := (t.env.kth, t.install);
    var (i, m, r) := (p.initiatorXpub, p.intermediaryXpub, p.responderXpub);
    && t.Starts() && t.R().Ok? && i != m && i != r && m != r && sys.parties.Keys == {i, m, r}
    && var planI := Install.InitiatorPlanOf(kth, p, t.I().value);
       var planM := Install.IntermediaryPlanOf(kth, p, t.M().value, t.I().value.virtualApp.IdentityHash());
       var planR := Install.ResponderPlanOf(kth, p, t.R().value);
       && planI.Ok? && planM.Ok? && planR.Ok?
       && Install.Initiates(sys, i, m, r, planI.value, t.initiator)
       && Install.Intermediates(sys, i, m, r, planM.value, t.intermediary)
       && Install.Responds(sys, i, m, r, planR.value, t.responder)
  }

  /** The results of the three roles' uninstalls, each from its later store and at its own block. */
  function EndI(t: Lifetime): Result<EndpointUninstall>
    requires t.I().Ok? && t.BetweenUsers().Ok?
  {
    UninstallForInitiating(AtBlock(t.env, t.blocks.0), t.InitiatorLater(), t.uninstall)
  }

  function EndM(t: Lifetime): Result<IntermediaryUninstall>
    requires t.M().Ok?
  {
    UninstallForIntermediary(AtBlock(t.env, t.blocks.1), t.IntermediaryLater(), t.uninstall)
  }

  function EndR(t: Lifetime): Result<EndpointUninstall>
    requires t.R().Ok? && t.BetweenUsers().Ok?
  {
    UninstallForResponding(AtBlock(t.env, t.blocks.2), t.ResponderLater(), t.uninstall)
  }

  /** The three parties run the uninstall protocol with the plans for these results. */
  ghost predicate Uninstalls(sys: System, t: Lifetime)
    requires t.Starts() && t.R().Ok? && t.BetweenUsers().Ok?
  {
    var (i, m, r) := (t.uninstall.initiatorXpub, t.uninstall.intermediaryXpub, t.uninstall.responderXpub);
    && i != m && i != r && m != r && sys.parties.Keys == {i, m, r}
    && EndI(t).Ok? && EndM(t).Ok? && EndR(t).Ok?
    && var planI := Uninstall.EndpointPlanOf(EndI(t).value);
       var planM := Uninstall.IntermediaryPlanOf(EndM(t).value);
       var planR := Uninstall.EndpointPlanOf(EndR(t).value);
       && planI.Ok? && planM.Ok? && planR.Ok?
       && Uninstall.Initiates(sys, i, m, r, planI.value, t.InitiatorLater())
       && Uninstall.Intermediates(sys, i, m, r, planM.value, t.IntermediaryLater())
       && Uninstall.Responds(sys, i, m, r, planR.value, t.ResponderLater())
  }

  /** All three have saved what they computed for the install. */
  ghost predicate Installed(sys: System, events: seq<Event>, t: Lifetime)
    requires t.M().Ok? && t.R().Ok? && t.(states := []).BetweenUsers().Ok?
    requires sys.parties.Keys == {t.install.initiatorXpub, t.install.intermediaryXpub, t.install.responderXpub}
  {
    && NodeOf(sys, events, t.install.initiatorXpub).store == t.(states := []).InitiatorLater()
    && NodeOf(sys, events, t.install.intermediaryXpub).store == t.IntermediaryLater()
    && NodeOf(sys, events, t.install.responderXpub).store == t.(states := []).ResponderLater()
  }

  /** And for the uninstall. */
  ghost predicate Uninstalled(sys: System, events: seq<Event>, t: Lifetime)
    requires t.M().Ok? && t.R().Ok? && t.BetweenUsers().Ok? && EndI(t).Ok? && EndM(t).Ok? && EndR(t).Ok?
    requires sys.parties.Keys == {t.uninstall.initiatorXpub, t.uninstall.intermediaryXpub, t.uninstall.responderXpub}
  {
    && NodeOf(sys, events, t.uninstall.initiatorXpub).store ==
       SaveAll(t.InitiatorLater(), EndI(t).value.withIntermediary, EndI(t).value.threeParty, EndI(t).value.betweenUsers)
    && NodeOf(sys, events, t.uninstall.intermediaryXpub).store ==
       SaveAll(t.IntermediaryLater(), EndM(t).value.withInitiating, EndM(t).value.threeParty, EndM(t).value.withResponding)
    && NodeOf(sys, events, t.uninstall.responderXpub).store ==
       SaveAll(t.ResponderLater(), EndR(t).value.withIntermediary, EndR(t).value.threeParty, EndR(t).value.betweenUsers)
  }

  /** All three have stored the pass-through app of the install in a state that pays the outcome asked for, from any block
      on, signed by all three. */
  ghost predicate OutcomeStored(sys: System, events: seq<Event>, t: Lifetime)
    requires t.I().Ok? && sys.parties.Keys == {t.uninstall.initiatorXpub, t.uninstall.intermediaryXpub, t.uninstall.responderXpub}
  {
    var (i, m, r) := (t.uninstall.initiatorXpub, t.uninstall.intermediaryXpub, t.uninstall.responderXpub);
    var passThrough := t.I().value.passThrough;
    var final := SetStateCommitment(passThrough.IdentityHash(), PassThroughState(t.uninstall.targetAppIdentityHash, 0, t.uninstall.targetOutcome),
                                    passThrough.appSeqNo, CHALLENGE_TIMEOUT);
    var stored := Stored(ForUpdate(passThrough.IdentityHash()), SignedByThree(sys.keys, final, i, m, r));
    && ProperlySigned(stored.transaction)
    && forall p :: p in {i, m, r} ==> stored in NodeOf(sys, events, p).commitments
  }

  /** Both owners of a channel have stored exactly its free balance, signed by both. */
  ghost predicate BalancesStored(sys: System, events: seq<Event>, channel: StateChannel, user: Xpub, intermediary: Xpub)
    requires sys.parties.Keys >= {user, intermediary}
  {
    && channel.freeBalanceAppInstance.Some?
    && var c := FreeBalanceCommitment(channel);
       var stored := Stored(ForUpdate(channel.freeBalanceAppInstance.value.IdentityHash()), Countersigned(sys.keys, c, user, intermediary));
       && OnFreeBalanceOf(c, channel) && ProperlySigned(stored.transaction)
       && forall p :: p in {user, intermediary} ==> stored in NodeOf(sys, events, p).commitments
  }

  /** What could be taken to the chain: the outcome, and the balances of both channels of the intermediary. */
  ghost predicate SettlementStored(sys: System, events: seq<Event>, t: Lifetime)
    requires t.M().Ok? && EndM(t).Ok?
    requires sys.parties.Keys == {t.uninstall.initiatorXpub, t.uninstall.intermediaryXpub, t.uninstall.responderXpub}
  {
    && OutcomeStored(sys, events, t)
    && BalancesStored(sys, events, EndM(t).value.withInitiating, t.uninstall.initiatorXpub, t.uninstall.intermediaryXpub)
    && BalancesStored(sys, events, EndM(t).value.withResponding, t.uninstall.responderXpub, t.uninstall.intermediaryXpub)
  }

  /** The intermediary's two channels over the lifetime. */
  function LifeI(t: Lifetime): Result<Life>
    requires t.M().Ok? && EndM(t).Ok?
  {
    var before :- GetChannel(t.env.kth, t.intermediary, [t.install.initiatorXpub, t.install.intermediaryXpub]);
    Ok(Life(before, t.M().value.withInitiating, t.M().value.withInitiating, EndM(t).value.withInitiating))
  }

  function LifeR(t: Lifetime): Result<Life>
    requires t.M().Ok? && EndM(t).Ok?
  {
    var before :- GetChannel(t.env.kth, t.intermediary, [t.install.responderXpub, t.install.intermediaryXpub]);
    Ok(Life(before, t.M().value.withResponding, t.M().value.withResponding, EndM(t).value.withResponding))
  }

  /** Who gained what. */
  ghost predicate MoneySettled(t: Lifetime, x: int, y: int)
    requires t.M().Ok? && EndM(t).Ok?
  {
    var (kth, p) := (t.env.kth, t.install);
    && LifeI(t).Ok? && LifeR(t).Ok?
    && Settled(LifeI(t).value, LifeR(t).value,
               p.tokenAddress, kth(p.initiatorXpub, 0), kth(p.intermediaryXpub, 0), kth(p.responderXpub, 0),
               p.initiatorBalanceDecrement, p.responderBalanceDecrement, x, y)
  }

  /** With no updates yet, the later stores are the stores after the install. */
  lemma LaterStores(t: Lifetime)
    requires t.I().Ok? && t.R().Ok? && t.I().value.betweenUsers == t.R().value.betweenUsers
    ensures var t0 := t.(states := []);
            && t0.BetweenUsers().Ok?
            && t0.InitiatorLater() == SaveAll(t.initiator, t.I().value.withIntermediary, t.I().value.betweenUsers, t.I().value.threeParty)
            && t0.ResponderLater() == SaveAll(t.responder, t.R().value.withIntermediary, t.R().value.threeParty, t.R().value.betweenUsers)
  {
  }

  /** What each role's plan saves is what the role computed. */
  lemma InstallRun(sys: System, t: Lifetime) returns (events: seq<Event>)
    requires Installs(sys, t) && InstalledAlike(t.I().value, t.M().value, t.R().value)
    ensures NodeOf(sys, events, t.install.initiatorXpub).store ==
            SaveAll(t.initiator, t.I().value.withIntermediary, t.I().value.betweenUsers, t.I().value.threeParty)
    ensures NodeOf(sys, events, t.install.intermediaryXpub).store ==
            SaveAll(t.intermediary, t.M().value.threeParty, t.M().value.withResponding, t.M().value.withInitiating)
    ensures NodeOf(sys, events, t.install.responderXpub).store ==
            SaveAll(t.responder, t.R().value.withIntermediary, t.R().value.threeParty, t.R().value.betweenUsers)
  {
    events := InstallRunOf(sys, t.env.kth, t.install, t.I().value, t.M().value, t.R().value, t.initiator, t.intermediary, t.responder);
  }

  lemma InstallRunOf(sys: System, kth: Derivation, p: InstallVirtualAppParams, i: EndpointInstall, m: IntermediaryInstall, r: EndpointInstall,
                     initiator: Channels, intermediary: Channels, responder: Channels) returns (events: seq<Event>)
    requires InstalledAlike(i, m, r)
    requires p.initiatorXpub != p.intermediaryXpub && p.initiatorXpub != p.responderXpub && p.intermediaryXpub != p.responderXpub
    requires sys.parties.Keys == {p.initiatorXpub, p.intermediaryXpub, p.responderXpub}
    requires var planI, planR := Install.InitiatorPlanOf(kth, p, i), Install.ResponderPlanOf(kth, p, r);
             var planM := Install.IntermediaryPlanOf(kth, p, m, i.virtualApp.IdentityHash());
             && planI.Ok? && planM.Ok? && planR.Ok?
             && Install.Initiates(sys, p.initiatorXpub, p.intermediaryXpub, p.responderXpub, planI.value, initiator)
             && Install.Intermediates(sys, p.initiatorXpub, p.intermediaryXpub, p.responderXpub, planM.value, intermediary)
             && Install.Responds(sys, p.initiatorXpub, p.intermediaryXpub, p.responderXpub, planR.value, responder)
    ensures NodeOf(sys, events, p.initiatorXpub).store == SaveAll(initiator, i.withIntermediary, i.betweenUsers, i.threeParty)
    ensures NodeOf(sys, events, p.intermediaryXpub).store == SaveAll(intermediary, m.threeParty, m.withResponding, m.withInitiating)
    ensures NodeOf(sys, events, p.responderXpub).store == SaveAll(responder, r.withIntermediary, r.threeParty, r.betweenUsers)
  {
    Install.PlansMatch(kth, p, i, m, r);
    events := Install.Completes(sys, p.initiatorXpub, p.intermediaryXpub, p.responderXpub,
                                Install.InitiatorPlanOf(kth, p, i).value, initiator,
                                Install.IntermediaryPlanOf(kth, p, m, i.virtualApp.IdentityHash()).value, intermediary,
                                Install.ResponderPlanOf(kth, p, r).value, responder);
  }

  /** From agreeing copies the install protocol can be completed, and leaves the three stores from which, once the
      users have made their updates, the virtual app can be uninstalled at any time. */
  lemma InstallCompletes(sys: System, t: Lifetime, blockNumber: nat) returns (events: seq<Event>)
    requires Installs(sys, t) && blockNumber < MAX_UINT256
    ensures t.R().Ok? && t.(states := []).BetweenUsers().Ok? && t.BetweenUsers().Ok?
    ensures Installed(sys, events, t)
    ensures ReadyToUninstall(t.SharedLater(), t.uninstall.targetAppIdentityHash, blockNumber)
  {
    LifetimeReady(t, blockNumber);
    InstallFitsTogether(t.env, t.initiator, t.intermediary, t.responder, t.install);
    events := InstallRun(sys, t);
    LaterStores(t);
  }

  lemma UninstallRunOf(sys: System, p: UninstallVirtualAppParams,
                       i: Result<EndpointUninstall>, m: Result<IntermediaryUninstall>, r: Result<EndpointUninstall>,
                       initiator: Channels, intermediary: Channels, responder: Channels) returns (events: seq<Event>)
    requires UninstalledTogether(i, m, r) && m.Ok?
    requires p.initiatorXpub != p.intermediaryXpub && p.initiatorXpub != p.responderXpub && p.intermediaryXpub != p.responderXpub
    requires sys.parties.Keys == {p.initiatorXpub, p.intermediaryXpub, p.responderXpub}
    requires var planI, planR := Uninstall.EndpointPlanOf(i.value), Uninstall.EndpointPlanOf(r.value);
             var planM := Uninstall.IntermediaryPlanOf(m.value);
             && planI.Ok? && planM.Ok? && planR.Ok?
             && Uninstall.Initiates(sys, p.initiatorXpub, p.intermediaryXpub, p.responderXpub, planI.value, initiator)
             && Uninstall.Intermediates(sys, p.initiatorXpub, p.intermediaryXpub, p.responderXpub, planM.value, intermediary)
             && Uninstall.Responds(sys, p.initiatorXpub, p.intermediaryXpub, p.responderXpub, planR.value, responder)
    ensures NodeOf(sys, events, p.initiatorXpub).store == SaveAll(initiator, i.value.withIntermediary, i.value.threeParty, i.value.betweenUsers)
    ensures NodeOf(sys, events, p.intermediaryXpub).store == SaveAll(intermediary, m.value.withInitiating, m.value.threeParty, m.value.withResponding)
    ensures NodeOf(sys, events, p.responderXpub).store == SaveAll(responder, r.value.withIntermediary, r.value.threeParty, r.value.betweenUsers)
    ensures Uninstall.DistinctSigners(sys.keys, p.initiatorXpub, p.intermediaryXpub, p.responderXpub) ==>
              Uninstall.AllStored(sys, events, p.initiatorXpub, p.intermediaryXpub, p.responderXpub, Uninstall.EndpointPlanOf(i.value).value,
                                  Uninstall.IntermediaryPlanOf(m.value).value, Uninstall.EndpointPlanOf(r.value).value)
  {
    var planI, planM, planR := Uninstall.EndpointPlanOf(i.value).value, Uninstall.IntermediaryPlanOf(m.value).value, Uninstall.EndpointPlanOf(r.value).value;
    Uninstall.PlansMatch(i, m, r);
    events := Uninstall.Completes(sys, p.initiatorXpub, p.intermediaryXpub, p.responderXpub, planI, initiator, planM, intermediary, planR, responder);
    if Uninstall.DistinctSigners(sys.keys, p.initiatorXpub, p.intermediaryXpub, p.responderXpub) {
      Uninstall.EndsWithAllStored(sys, events, p.initiatorXpub, p.intermediaryXpub, p.responderXpub, planI, initiator, planM, intermediary, planR, responder);
    }
  }

  /** The pass-through app as it was installed, and as each role leaves it. */
  lemma LastPassThrough(t: Lifetime)
    requires t.Starts() && EndM(t).Ok?
    ensures var (before, after) := (t.I().value.passThrough, EndM(t).value.passThrough);
            && after.IdentityHash() == before.IdentityHash() && after.appSeqNo == before.appSeqNo
            && after.defaultTimeout == CHALLENGE_TIMEOUT
            && after.latestState == PassThroughState(t.uninstall.targetAppIdentityHash, 0, t.uninstall.targetOutcome)
  {
    LaterPassThrough(t);
    IntermediaryFinalises(AtBlock(t.env, t.blocks.1), t.IntermediaryLater(), t.uninstall);
    InitiatorAdds(t.env, t.initiator, t.install);
  }

  lemma OutcomeIsStored(sys: System, events: seq<Event>, t: Lifetime)
    requires t.Starts() && t.R().Ok? && t.BetweenUsers().Ok? && Uninstalls(sys, t) && UninstalledTogether(EndI(t), EndM(t), EndR(t))
    requires Uninstall.AllStored(sys, events, t.uninstall.initiatorXpub, t.uninstall.intermediaryXpub, t.uninstall.responderXpub,
                                 Uninstall.EndpointPlanOf(EndI(t).value).value, Uninstall.IntermediaryPlanOf(EndM(t).value).value,
                                 Uninstall.EndpointPlanOf(EndR(t).value).value)
    ensures OutcomeStored(sys, events, t)
  {
    LastPassThrough(t);
    var (i, m, r) := (t.uninstall.initiatorXpub, t.uninstall.intermediaryXpub, t.uninstall.responderXpub);
    var (planI, planM, planR) := (Uninstall.EndpointPlanOf(EndI(t).value).value, Uninstall.IntermediaryPlanOf(EndM(t).value).value,
                                  Uninstall.EndpointPlanOf(EndR(t).value).value);
    assert Uninstall.EndpointStored(sys.keys, i, m, r, i, planI)[0] in Uninstall.EndpointStored(sys.keys, i, m, r, i, planI);
    assert Uninstall.IntermediaryStored(sys.keys, i, m, r, planM)[0] in Uninstall.IntermediaryStored(sys.keys, i, m, r, planM);
    assert Uninstall.EndpointStored(sys.keys, i, m, r, r, planR)[0] in Uninstall.EndpointStored(sys.keys, i, m, r, r, planR);
  }

  lemma BalancesAreStored(sys: System, events: seq<Event>, t: Lifetime)
    requires t.Starts() && t.R().Ok? && t.BetweenUsers().Ok? && Uninstalls(sys, t) && UninstalledTogether(EndI(t), EndM(t), EndR(t))
    requires GetFreeBalance(EndM(t).value.withInitiating).Ok? && GetFreeBalance(EndM(t).value.withResponding).Ok?
    requires Uninstall.AllStored(sys, events, t.uninstall.initiatorXpub, t.uninstall.intermediaryXpub, t.uninstall.responderXpub,
                                 Uninstall.EndpointPlanOf(EndI(t).value).value, Uninstall.IntermediaryPlanOf(EndM(t).value).value,
                                 Uninstall.EndpointPlanOf(EndR(t).value).value)
    ensures BalancesStored(sys, events, EndM(t).value.withInitiating, t.uninstall.initiatorXpub, t.uninstall.intermediaryXpub)
    ensures BalancesStored(sys, events, EndM(t).value.withResponding, t.uninstall.responderXpub, t.uninstall.intermediaryXpub)
  {
    CommitsToFreeBalance(EndM(t).value.withInitiating);
    CommitsToFreeBalance(EndM(t).value.withResponding);
    var (i, m, r) := (t.uninstall.initiatorXpub, t.uninstall.intermediaryXpub, t.uninstall.responderXpub);
    var (planI, planM, planR) := (Uninstall.EndpointPlanOf(EndI(t).value).value, Uninstall.IntermediaryPlanOf(EndM(t).value).value,
                                  Uninstall.EndpointPlanOf(EndR(t).value).value);
    assert Uninstall.EndpointStored(sys.keys, i, m, r, i, planI)[1] in Uninstall.EndpointStored(sys.keys, i, m, r, i, planI);
    assert Uninstall.IntermediaryStored(sys.keys, i, m, r, planM)[1] in Uninstall.IntermediaryStored(sys.keys, i, m, r, planM);
    assert Uninstall.IntermediaryStored(sys.keys, i, m, r, planM)[2] in Uninstall.IntermediaryStored(sys.keys, i, m, r, planM);
    assert Uninstall.EndpointStored(sys.keys, i, m, r, r, planR)[1] in Uninstall.EndpointStored(sys.keys, i, m, r, r, planR);
  }

  /** And then the uninstall protocol can be completed, when the outcome asked for is that of the last state, which
      pays the users x and y. It leaves each party with its computed channels, equal between any two parties
      that share one, and with the outcome and the balances signed by all who have to sign them; over the
      whole lifetime the endpoints net x - a and y - b, and the intermediary is restored exactly when x + y
      is the capital a + b. */
  lemma UninstallCompletes(sys: System, t: Lifetime, x: int, y: int) returns (events: seq<Event>)
    requires t.Starts() && EndsWith(t, x, y) && t.R().Ok? && Uninstalls(sys, t)
    ensures UninstalledTogether(EndI(t), EndM(t), EndR(t))
    ensures Uninstalled(sys, events, t) && MoneySettled(t, x, y)
    ensures sys.keys.kth == t.env.kth ==> SettlementStored(sys, events, t)
  {
    VirtualLifetime(t, x, y);
    events := UninstallRunOf(sys, t.uninstall, EndI(t), EndM(t), EndR(t), t.InitiatorLater(), t.IntermediaryLater(), t.ResponderLater());
    if sys.keys.kth == t.env.kth {
      OutcomeIsStored(sys, events, t);
      BalancesAreStored(sys, events, t);
    }
  }

  // ---- Nothing else is needed ----

  /** The channels list their owners. */
  predicate OwnersListed(t: Lifetime) {
    var (kth, p) := (t.env.kth, t.install);
    var channelI := GetChannel(kth, t.intermediary, [p.initiatorXpub, p.intermediaryXpub]);
    var channelR := GetChannel(kth, t.intermediary, [p.responderXpub, p.intermediaryXpub]);
    && channelI.Ok? && Install.OwnedBy(channelI.value, p.initiatorXpub, p.intermediaryXpub)
    && channelR.Ok? && Install.OwnedBy(channelR.value, p.responderXpub, p.intermediaryXpub)
    && Install.OwnedBy(GetOrCreate(kth, t.initiator, [p.initiatorXpub, p.responderXpub]), p.initiatorXpub, p.responderXpub)
  }

  lemma AgreementKeepsOwners(channel: StateChannel, target: Hash, agreement: Agreement, decrements: CoinTransferMap, token: Token)
    requires AddAgreement(channel, target, agreement, decrements, token).Ok?
    ensures var channel' := AddAgreement(channel, target, agreement, decrements, token).value;
            && channel'.userNeuteredExtendedKeys == channel.userNeuteredExtendedKeys
            && channel'.freeBalanceAppInstance.Some? && Has(channel'.agreements, target)
  {
  }

  lemma InstallKeepsOwners(env: Environment, channels: Channels, p: InstallVirtualAppParams, virtualApp: Hash, defaultOutcome: Outcome)
    requires InstallForIntermediary(env, channels, p, virtualApp, defaultOutcome).Ok?
    ensures var m := InstallForIntermediary(env, channels, p, virtualApp, defaultOutcome).value;
            var channelI := GetChannel(env.kth, channels, [p.initiatorXpub, p.intermediaryXpub]);
            var channelR := GetChannel(env.kth, channels, [p.responderXpub, p.intermediaryXpub]);
            && channelI.Ok? && channelR.Ok?
            && m.withInitiating.userNeuteredExtendedKeys == channelI.value.userNeuteredExtendedKeys
            && m.withResponding.userNeuteredExtendedKeys == channelR.value.userNeuteredExtendedKeys
            && m.withInitiating.freeBalanceAppInstance.Some? && Has(m.withInitiating.agreements, virtualApp)
            && m.withResponding.freeBalanceAppInstance.Some? && Has(m.withResponding.agreements, virtualApp)
  {
    var m := InstallForIntermediary(env, channels, p, virtualApp, defaultOutcome).value;
    AgreementKeepsOwners(GetChannel(env.kth, channels, [p.initiatorXpub, p.intermediaryXpub]).value, virtualApp,
                         AgreementWith(env.kth, p, m.passThrough, p.initiatorXpub),
                         Pair(env.kth(p.initiatorXpub, 0), p.initiatorBalanceDecrement,
                              env.kth(p.intermediaryXpub, 0), p.responderBalanceDecrement), p.tokenAddress);
    AgreementKeepsOwners(GetChannel(env.kth, channels, [p.responderXpub, p.intermediaryXpub]).value, virtualApp,
                         AgreementWith(env.kth, p, m.passThrough, p.responderXpub),
                         Pair(env.kth(p.intermediaryXpub, 0), p.initiatorBalanceDecrement,
                              env.kth(p.responderXpub, 0), p.responderBalanceDecrement), p.tokenAddress);
  }

  lemma BetweenUsersKeepsOwners(t: Lifetime)
    requires t.I().Ok?
    ensures t.I().value.betweenUsers.userNeuteredExtendedKeys ==
            GetOrCreate(t.env.kth, t.initiator, [t.install.initiatorXpub, t.install.responderXpub]).userNeuteredExtendedKeys
  {
  }

  /** Three parties that set out to install can do so. */
  lemma InstallStarts(t: Lifetime, keys: Keys) returns (sys: System)
    requires t.Starts() && OwnersListed(t)
    ensures Installs(sys, t)
  {
    var (kth, p) := (t.env.kth, t.install);
    InstallFitsTogether(t.env, t.initiator, t.intermediary, t.responder, t.install);
    var virtualApp := t.I().value.virtualApp;
    InstallKeepsOwners(t.env, t.intermediary, p, virtualApp.IdentityHash(), ComputeOutcome(virtualApp, t.env.provider));
    BetweenUsersKeepsOwners(t);
    Install.PlansExist(kth, p, t.I().value, t.M().value, t.R().value);
    sys := Install.Parties(keys, p.initiatorXpub, p.intermediaryXpub, p.responderXpub,
                           Install.InitiatorPlanOf(kth, p, t.I().value).value, t.initiator,
                           Install.IntermediaryPlanOf(kth, p, t.M().value, virtualApp.IdentityHash()).value, t.intermediary,
                           Install.ResponderPlanOf(kth, p, t.R().value).value, t.responder);
  }

  lemma UninstallKeepsFreeBalances(env: Environment, channels: Channels, p: UninstallVirtualAppParams)
    requires UninstallForIntermediary(env, channels, p).Ok?
    requires DistinctParties(env.kth, p.initiatorXpub, p.intermediaryXpub, p.responderXpub)
    ensures UninstallForIntermediary(env, channels, p).value.withInitiating.freeBalanceAppInstance.Some?
    ensures UninstallForIntermediary(env, channels, p).value.withResponding.freeBalanceAppInstance.Some?
  {
    UninstallMoves(env, channels, p);
  }

  lemma UninstallParties(keys: Keys, p: UninstallVirtualAppParams,
                         i: Result<EndpointUninstall>, m: Result<IntermediaryUninstall>, r: Result<EndpointUninstall>,
                         initiator: Channels, intermediary: Channels, responder: Channels) returns (sys: System)
    requires UninstalledTogether(i, m, r) && m.Ok?
    requires m.value.withInitiating.freeBalanceAppInstance.Some? && m.value.withResponding.freeBalanceAppInstance.Some?
    requires p.initiatorXpub != p.intermediaryXpub && p.initiatorXpub != p.responderXpub && p.intermediaryXpub != p.responderXpub
    ensures sys.keys == keys && sys.parties.Keys == {p.initiatorXpub, p.intermediaryXpub, p.responderXpub}
    ensures var planI, planR := Uninstall.EndpointPlanOf(i.value), Uninstall.EndpointPlanOf(r.value);
            var planM := Uninstall.IntermediaryPlanOf(m.value);
            && planI.Ok? && planM.Ok? && planR.Ok?
            && Uninstall.Initiates(sys, p.initiatorXpub, p.intermediaryXpub, p.responderXpub, planI.value, initiator)
            && Uninstall.Intermediates(sys, p.initiatorXpub, p.intermediaryXpub, p.responderXpub, planM.value, intermediary)
            && Uninstall.Responds(sys, p.initiatorXpub, p.intermediaryXpub, p.responderXpub, planR.value, responder)
  {
    sys := Uninstall.Parties(keys, p.initiatorXpub, p.intermediaryXpub, p.responderXpub,
                             Uninstall.EndpointPlanOf(i.value).value, initiator,
                             Uninstall.IntermediaryPlanOf(m.value).value, intermediary,
                             Uninstall.EndpointPlanOf(r.value).value, responder);
  }

  /** And to uninstall, once their uninstalls go through. */
  lemma UninstallStarts(t: Lifetime, keys: Keys) returns (sys: System)
    requires t.Starts() && t.R().Ok? && t.BetweenUsers().Ok?
    requires EndM(t).Ok? && UninstalledTogether(EndI(t), EndM(t), EndR(t))
    ensures Uninstalls(sys, t) && sys.keys == keys
  {
    var u := t.uninstall;
    UninstallKeepsFreeBalances(AtBlock(t.env, t.blocks.1), t.IntermediaryLater(), u);
    sys := UninstallParties(keys, u, EndI(t), EndM(t), EndR(t), t.InitiatorLater(), t.IntermediaryLater(), t.ResponderLater());
  }

  /** From agreeing stores, solvent channels and any stakes that everybody could lock, a virtual app can be
      installed and, when it ends with an outcome that takes nothing from either user, uninstalled again: each
      protocol has a run to its end, the copies agree again, and the money is settled. */
  lemma WholeLife(t: Lifetime, x: nat, y: nat, keys: Keys)
      returns (installing: System, first: seq<Event>, uninstalling: System, second: seq<Event>)
    requires t.Starts() && OwnersListed(t) && EndsWith(t, x, y) && BothSolvent(t.env.kth, t.intermediary, t.install)
    ensures t.R().Ok? && t.BetweenUsers().Ok? && t.(states := []).BetweenUsers().Ok?
    ensures Installs(installing, t) && Uninstalls(uninstalling, t)
    ensures Installed(installing, first, t)
    ensures UninstalledTogether(EndI(t), EndM(t), EndR(t)) && EndM(t).Ok?
    ensures Uninstalled(uninstalling, second, t) && MoneySettled(t, x, y)
    ensures keys.kth == t.env.kth ==> SettlementStored(uninstalling, second, t)
  {
    UninstallGoesThrough(t, x, y);
    VirtualLifetime(t, x, y);
    installing := InstallStarts(t, keys);
    first := InstallCompletes(installing, t, t.blocks.1);
    uninstalling := UninstallStarts(t, keys);
    second := UninstallCompletes(uninstalling, t, x, y);
  }

  // ---- Fixed outcomes ----

  /** Over its two channels, the intermediary ends with what it started with. */
  ghost predicate IntermediaryRestored(t: Lifetime)
    requires t.M().Ok? && EndM(t).Ok?
    requires LifeI(t).Ok? && LifeI(t).value.Readable() && LifeR(t).Ok? && LifeR(t).value.Readable()
  {
    var (token, im) := (t.install.tokenAddress, t.env.kth(t.install.intermediaryXpub, 0));
    LifeI(t).value.Net(token, im) + LifeR(t).value.Net(token, im) == 0
  }

  /** It loses the whole capital, and the users lose their stakes. */
  ghost predicate CapitalLost(t: Lifetime)
    requires t.M().Ok? && EndM(t).Ok?
    requires LifeI(t).Ok? && LifeI(t).value.Readable() && LifeR(t).Ok? && LifeR(t).value.Readable()
  {
    var (kth, p, lifeI, lifeR) := (t.env.kth, t.install, LifeI(t).value, LifeR(t).value);
    var (token, im) := (p.tokenAddress, kth(p.intermediaryXpub, 0));
    && lifeI.Net(token, im) + lifeR.Net(token, im) == -(p.initiatorBalanceDecrement + p.responderBalanceDecrement)
    && lifeI.Net(token, kth(p.initiatorXpub, 0)) == -p.initiatorBalanceDecrement
    && lifeR.Net(token, kth(p.responderXpub, 0)) == -p.responderBalanceDecrement
  }

  /** With a fixed outcome too both protocols can be completed, all checks passing and all copies in agreement. But
      then the intermediary is restored exactly when the shares of the users' 0th addresses make up the
      capital; and with numbered keys it loses the whole capital, whatever the outcome. */
  lemma FixedLife(t: Lifetime, value: nat, keys: Keys)
      returns (installing: System, first: seq<Event>, uninstalling: System, second: seq<Event>)
    requires t.Starts() && OwnersListed(t) && AsksForLast(t) && BothSolvent(t.env.kth, t.intermediary, t.install)
    requires t.install.outcomeType == TWO_PARTY_FIXED_OUTCOME && SharesAgree(t)
    requires t.install.initiatorBalanceDecrement + t.install.responderBalanceDecrement >= 0
    requires t.uninstall.targetOutcome == FixedOutcome(value) && value <= MAX_SAFE_INTEGER
    ensures t.R().Ok? && t.BetweenUsers().Ok? && t.(states := []).BetweenUsers().Ok?
    ensures Installs(installing, t) && Uninstalls(uninstalling, t)
    ensures Installed(installing, first, t)
    ensures UninstalledTogether(EndI(t), EndM(t), EndR(t)) && EndM(t).Ok?
    ensures Uninstalled(uninstalling, second, t)
    ensures keys.kth == t.env.kth ==> SettlementStored(uninstalling, second, t)
    ensures var (x, y) := Shares(t, value, PassThroughNumber(t));
            && MoneySettled(t, x, y)
            && (IntermediaryRestored(t) <==> x + y == t.install.initiatorBalanceDecrement + t.install.responderBalanceDecrement)
            && (PlayersApart(t, PassThroughNumber(t)) ==> CapitalLost(t))
  {
    var (x, y) := Shares(t, value, PassThroughNumber(t));
    SharesNonNegative(t, value, PassThroughNumber(t));
    FixedEnds(t, value);
    installing, first, uninstalling, second := WholeLife(t, x, y, keys);
    if PlayersApart(t, PassThroughNumber(t)) {
      ApartSharesNothing(t, value, PassThroughNumber(t));
    }
  }
}
