/** The protocol of three roles and eight messages that installs a virtual app (engine/install-virtual-app.ts). */
module InstallVirtualProtocol {
  import opened AppInstances
  import opened Commitments
  import opened Dictionaries
  import opened Engine
  import opened HonestRuns
  import opened Primitives
  import opened Results
  import opened Sorting
  import opened StateChannels
  import opened StoredCommitments
  import opened ThreePartyExchange
  import opened VirtualAgreement
  import opened VirtualApps
  import opened VirtualChanges
  import opened VirtualLifecycle

  /** What an endpoint computes from its own copies: the three channels to save and the four commitments. */
  datatype EndpointPlan = EndpointPlan(
    withIntermediary: StateChannel,
    betweenUsers: StateChannel,
    threeParty: StateChannel,
    virtualAppId: Hash,
    passThroughId: Hash,
    agreement: Commitment,
    activation: Commitment,
    passThrough: Commitment,
    virtualApp: Commitment)

  /** What the intermediary computes, from its copies and the first message. */
  datatype IntermediaryPlan = IntermediaryPlan(
    withInitiating: StateChannel,
    withResponding: StateChannel,
    threeParty: StateChannel,
    passThroughId: Hash,
    agreementI: Commitment,
    agreementR: Commitment,
    activationI: Commitment,
    activationR: Commitment,
    passThrough: Commitment)

  /** The commitment on an app's first state goes by its default timeout. */
  function InitialCommitment(app: AppInstance): Commitment {
    SetStateCommitment(app.IdentityHash(), app.latestState, app.latestVersionNumber, app.defaultTimeout)
  }

  function AgreementCommitment(kth: Derivation, channel: StateChannel, passThrough: Hash, virtualApp: Hash): Result<Commitment> {
    var agreement :- GetAgreement(channel, virtualApp);
    if channel.freeBalanceAppInstance.None? then Err(NoFreeBalance)
    else Ok(AgreementTransaction(kth, channel, passThrough, agreement))
  }

  function EndpointPlanOf(kth: Derivation, e: EndpointInstall): Result<EndpointPlan> {
    var agreement :- AgreementCommitment(kth, e.withIntermediary, e.passThrough.IdentityHash(), e.virtualApp.IdentityHash());
    if e.withIntermediary.freeBalanceAppInstance.None? then Err(NoFreeBalance) else
    Ok(EndpointPlan(e.withIntermediary, e.betweenUsers, e.threeParty, e.virtualApp.IdentityHash(), e.passThrough.IdentityHash(),
                    agreement, FreeBalanceCommitment(e.withIntermediary), InitialCommitment(e.passThrough), InitialCommitment(e.virtualApp)))
  }

  /** The endpoints look up the addresses that the two others sign with, and the plan is theirs. */
  function InitiatorPlanOf(kth: Derivation, p: InstallVirtualAppParams, e: EndpointInstall): Result<EndpointPlan> {
    var intermediary :- MultisigOwnerAddrOf(kth, e.withIntermediary, p.intermediaryXpub);
    var responder :- MultisigOwnerAddrOf(kth, e.betweenUsers, p.responderXpub);
    EndpointPlanOf(kth, e)
  }

  function ResponderPlanOf(kth: Derivation, p: InstallVirtualAppParams, e: EndpointInstall): Result<EndpointPlan> {
    var intermediary :- MultisigOwnerAddrOf(kth, e.withIntermediary, p.intermediaryXpub);
    var initiator :- MultisigOwnerAddrOf(kth, e.betweenUsers, p.initiatorXpub);
    EndpointPlanOf(kth, e)
  }

  function IntermediaryPlanOf(kth: Derivation, p: InstallVirtualAppParams, m: IntermediaryInstall, virtualApp: Hash): Result<IntermediaryPlan> {
    var initiator :- MultisigOwnerAddrOf(kth, m.withInitiating, p.initiatorXpub);
    var responder :- MultisigOwnerAddrOf(kth, m.withResponding, p.responderXpub);
    var agreementI :- AgreementCommitment(kth, m.withInitiating, m.passThrough.IdentityHash(), virtualApp);
    var agreementR :- AgreementCommitment(kth, m.withResponding, m.passThrough.IdentityHash(), virtualApp);
    if m.withInitiating.freeBalanceAppInstance.None? || m.withResponding.freeBalanceAppInstance.None? then Err(NoFreeBalance) else
    Ok(IntermediaryPlan(m.withInitiating, m.withResponding, m.threeParty, m.passThrough.IdentityHash(), agreementI, agreementR,
                        FreeBalanceCommitment(m.withInitiating), FreeBalanceCommitment(m.withResponding), InitialCommitment(m.passThrough)))
  }

  function FreeBalanceKey(channel: StateChannel): Key {
    match channel.freeBalanceAppInstance
    case None => ForUpdate(AppHash(0, []))
    case Some(app) => ForUpdate(app.IdentityHash())
  }

  // ---- What is signed ----

  /** An endpoint signs: the agreement on the capital, for the pass-through app; the free balance that it saves for its
      channel with the intermediary; the pass-through app's state, which pays the default outcome; and the
      virtual app's initial state. */
  ghost predicate EndpointCommits(env: Environment, channels: Channels, p: InstallVirtualAppParams, user: Xpub, e: EndpointInstall, plan: EndpointPlan) {
    var before := GetChannel(env.kth, channels, [user, p.intermediaryXpub]);
    var (virtualApp, passThrough) := (e.virtualApp.IdentityHash(), e.passThrough.IdentityHash());
    && before.Ok? && before.value.freeBalanceAppInstance.Some?
    && plan.withIntermediary == e.withIntermediary && plan.betweenUsers == e.betweenUsers && plan.threeParty == e.threeParty
    && plan.virtualAppId == virtualApp && plan.passThroughId == passThrough
    && plan.agreement == ConditionalTransaction(SortedKthAddresses(env.kth, before.value.userNeuteredExtendedKeys, 0), passThrough,
                                                before.value.freeBalanceAppInstance.value.IdentityHash(),
                                                OfAgreement(CapitalFor(env.kth, p, passThrough, user)))
    && OnFreeBalanceOf(plan.activation, e.withIntermediary)
    && plan.passThrough == SetStateCommitment(passThrough, PassThroughState(virtualApp, MAX_UINT256, ComputeOutcome(e.virtualApp, env.provider)),
                                              0, CHALLENGE_TIMEOUT)
    && plan.virtualApp == SetStateCommitment(virtualApp, p.initialState, 0, p.defaultTimeout)
  }

  lemma InitiatorCommits(env: Environment, channels: Channels, p: InstallVirtualAppParams)
    requires InstallForInitiating(env, channels, p).Ok?
    requires InitiatorPlanOf(env.kth, p, InstallForInitiating(env, channels, p).value).Ok?
    ensures var e := InstallForInitiating(env, channels, p).value;
            EndpointCommits(env, channels, p, p.initiatorXpub, e, InitiatorPlanOf(env.kth, p, e).value)
  {
    InitiatorAdds(env, channels, p);
    PlanCommits(env, channels, p, p.initiatorXpub, InstallForInitiating(env, channels, p).value);
  }

  lemma ResponderCommits(env: Environment, channels: Channels, p: InstallVirtualAppParams)
    requires InstallForResponding(env, channels, p).Ok?
    requires ResponderPlanOf(env.kth, p, InstallForResponding(env, channels, p).value).Ok?
    ensures var e := InstallForResponding(env, channels, p).value;
            EndpointCommits(env, channels, p, p.responderXpub, e, ResponderPlanOf(env.kth, p, e).value)
  {
    ResponderAdds(env, channels, p);
    PlanCommits(env, channels, p, p.responderXpub, InstallForResponding(env, channels, p).value);
  }

  lemma PlanCommits(env: Environment, channels: Channels, p: InstallVirtualAppParams, user: Xpub, e: EndpointInstall)
    requires EndpointAdds(env, channels, p, user, e) && EndpointPlanOf(env.kth, e).Ok?
    ensures EndpointCommits(env, channels, p, user, e, EndpointPlanOf(env.kth, e).value)
  {
    CommitsToFreeBalance(e.withIntermediary);
  }

  /** And the intermediary signs both agreements and both free balances, and the pass-through app's state. */
  ghost predicate IntermediaryCommits(env: Environment, channels: Channels, p: InstallVirtualAppParams, virtualApp: Hash, defaultOutcome: Outcome,
                                      m: IntermediaryInstall, plan: IntermediaryPlan)
  {
    var channelI := GetChannel(env.kth, channels, [p.initiatorXpub, p.intermediaryXpub]);
    var channelR := GetChannel(env.kth, channels, [p.responderXpub, p.intermediaryXpub]);
    var passThrough := m.passThrough.IdentityHash();
    && channelI.Ok? && channelI.value.freeBalanceAppInstance.Some? && channelR.Ok? && channelR.value.freeBalanceAppInstance.Some?
    && plan.withInitiating == m.withInitiating && plan.withResponding == m.withResponding && plan.threeParty == m.threeParty
    && plan.passThroughId == passThrough
    && plan.agreementI == ConditionalTransaction(SortedKthAddresses(env.kth, channelI.value.userNeuteredExtendedKeys, 0), passThrough,
                                                 channelI.value.freeBalanceAppInstance.value.IdentityHash(),
                                                 OfAgreement(CapitalFor(env.kth, p, passThrough, p.initiatorXpub)))
    && plan.agreementR == ConditionalTransaction(SortedKthAddresses(env.kth, channelR.value.userNeuteredExtendedKeys, 0), passThrough,
                                                 channelR.value.freeBalanceAppInstance.value.IdentityHash(),
                                                 OfAgreement(CapitalFor(env.kth, p, passThrough, p.responderXpub)))
    && OnFreeBalanceOf(plan.activationI, m.withInitiating) && OnFreeBalanceOf(plan.activationR, m.withResponding)
    && plan.passThrough == SetStateCommitment(passThrough, PassThroughState(virtualApp, MAX_UINT256, defaultOutcome), 0, CHALLENGE_TIMEOUT)
  }

  lemma IntermediaryCommitsBoth(env: Environment, channels: Channels, p: InstallVirtualAppParams, virtualApp: Hash, defaultOutcome: Outcome)
    requires InstallForIntermediary(env, channels, p, virtualApp, defaultOutcome).Ok?
    requires IntermediaryPlanOf(env.kth, p, InstallForIntermediary(env, channels, p, virtualApp, defaultOutcome).value, virtualApp).Ok?
    ensures var m := InstallForIntermediary(env, channels, p, virtualApp, defaultOutcome).value;
            IntermediaryCommits(env, channels, p, virtualApp, defaultOutcome, m, IntermediaryPlanOf(env.kth, p, m, virtualApp).value)
  {
    var m := InstallForIntermediary(env, channels, p, virtualApp, defaultOutcome).value;
    IntermediaryAddsBoth(env, channels, p, virtualApp, defaultOutcome);
    CommitsToFreeBalance(m.withInitiating);
    CommitsToFreeBalance(m.withResponding);
  }

  // ---- The scripts ----

  function Initiating(m: Xpub, r: Xpub, plan: EndpointPlan): Script {
    [ Sign(0, plan.agreement),
      Send(m, [Mine(0, plan.agreement)], 1),                                                               // message 1
      Receive,                                                                                             // message 4
      Verify(m, 0, plan.agreement, 0, 0),
      SetCommitment(ForInstallVirtualApp(plan.virtualAppId), plan.agreement, [Mine(0, plan.agreement), Received(0, 0)]),
      Verify(m, 0, plan.activation, 0, 1),
      Sign(0, plan.activation),
      SetCommitment(FreeBalanceKey(plan.withIntermediary), plan.activation, [Mine(0, plan.activation), Received(0, 1)]),
      Sign(0, plan.passThrough),
      Sign(0, plan.virtualApp),
      Send(m, [Mine(0, plan.activation), Mine(0, plan.passThrough), Mine(0, plan.virtualApp)]),            // message 5
      Receive,                                                                                             // message 8
      Verify(m, 0, plan.passThrough, 1, 0),
      Verify(r, 0, plan.passThrough, 1, 1),
      Verify(r, 0, plan.virtualApp, 1, 2),
      SetCommitment(ForUpdate(plan.passThroughId), plan.passThrough, [Mine(0, plan.passThrough), Received(1, 1), Received(1, 0)]),
      SetCommitment(ForUpdate(plan.virtualAppId), plan.virtualApp, [Mine(0, plan.virtualApp), Received(1, 2)]),
      Save(plan.withIntermediary),
      Save(plan.betweenUsers),
      Save(plan.threeParty) ]
  }

  /** Step 13 stores, as the update of the responder's channel, the signatures on that of the initiator's. */
  function Intermediating(i: Xpub, r: Xpub, plan: IntermediaryPlan): Script {
    [ Receive,                                                                                             // message 1
      Verify(i, 0, plan.agreementI, 0, 0),
      Sign(0, plan.agreementR),
      Send(r, [Mine(0, plan.agreementR)], 2),                                                              // message 2
      Receive,                                                                                             // message 3
      Verify(r, 0, plan.agreementR, 1, 0),
      Verify(r, 0, plan.activationR, 1, 1),
      Sign(0, plan.activationI),
      Sign(0, plan.agreementI),
      SetCommitment(ForInstallVirtualApp(plan.passThroughId), plan.agreementI, [Received(0, 0), Mine(0, plan.agreementI)]),
      Send(i, [Mine(0, plan.agreementI), Mine(0, plan.activationI)]),                                      // message 4
      Receive,                                                                                             // message 5
      Verify(i, 0, plan.activationI, 2, 0),
      SetCommitment(FreeBalanceKey(plan.withResponding), plan.activationR, [Received(2, 0), Mine(0, plan.activationI)]),
      Verify(i, 0, plan.passThrough, 2, 1),
      Sign(0, plan.activationR),
      SetCommitment(FreeBalanceKey(plan.withResponding), plan.activationR, [Received(1, 1), Mine(0, plan.activationR)]),
      Sign(0, plan.passThrough),
      Send(r, [Mine(0, plan.activationR), Mine(0, plan.passThrough), Received(2, 1), Received(2, 2)]),     // message 6
      Receive,                                                                                             // message 7
      Verify(r, 0, plan.passThrough, 3, 0),
      SetCommitment(ForUpdate(plan.passThroughId), plan.passThrough, [Received(2, 1), Received(3, 0), Mine(0, plan.passThrough)]),
      Send(i, [Mine(0, plan.passThrough), Received(3, 0), Received(3, 1)]),                                // message 8
      Save(plan.threeParty),
      Save(plan.withResponding),
      Save(plan.withInitiating) ]
  }

  function Responding(i: Xpub, m: Xpub, plan: EndpointPlan): Script {
    [ Receive,                                                                                             // message 2
      Verify(m, 0, plan.agreement, 0, 0),
      Sign(0, plan.agreement),
      SetCommitment(ForInstallVirtualApp(plan.virtualAppId), plan.agreement, [Mine(0, plan.agreement), Received(0, 0)]),
      Sign(0, plan.activation),
      Send(m, [Mine(0, plan.agreement), Mine(0, plan.activation)]),                                        // message 3
      Receive,                                                                                             // message 6
      Verify(m, 0, plan.activation, 1, 0),
      SetCommitment(FreeBalanceKey(plan.withIntermediary), plan.activation, [Received(1, 0), Mine(0, plan.activation)]),
      Verify(m, 0, plan.passThrough, 1, 1),
      Verify(i, 0, plan.passThrough, 1, 2),
      Verify(i, 0, plan.virtualApp, 1, 3),
      Sign(0, plan.passThrough),
      Sign(0, plan.virtualApp),
      SetCommitment(ForUpdate(plan.passThroughId), plan.passThrough, [Received(1, 2), Mine(0, plan.passThrough), Received(1, 1)]),
      SetCommitment(ForUpdate(plan.virtualAppId), plan.virtualApp, [Received(1, 3), Mine(0, plan.virtualApp)]),
      Send(m, [Mine(0, plan.passThrough), Mine(0, plan.virtualApp)]),                                      // message 7
      Save(plan.withIntermediary),
      Save(plan.threeParty),
      Save(plan.betweenUsers) ]
  }

  // ---- Honest parties ----

  predicate Initiates(sys: System, i: Xpub, m: Xpub, r: Xpub, plan: EndpointPlan, channels: Channels) {
    i in sys.parties && sys.parties[i] == Party(Initiating(m, r, plan), channels)
  }

  predicate Intermediates(sys: System, i: Xpub, m: Xpub, r: Xpub, plan: IntermediaryPlan, channels: Channels) {
    m in sys.parties && sys.parties[m] == Party(Intermediating(i, r, plan), channels)
  }

  predicate Responds(sys: System, i: Xpub, m: Xpub, r: Xpub, plan: EndpointPlan, channels: Channels) {
    r in sys.parties && sys.parties[r] == Party(Responding(i, m, plan), channels)
  }

  predicate EndpointShaped(plan: EndpointPlan) {
    && plan.agreement.ConditionalTransaction? && plan.activation.SetStateCommitment?
    && plan.passThrough.SetStateCommitment? && plan.virtualApp.SetStateCommitment?
    && plan.activation != plan.passThrough && plan.activation != plan.virtualApp && plan.passThrough != plan.virtualApp
  }

  predicate IntermediaryShaped(plan: IntermediaryPlan) {
    && plan.agreementI.ConditionalTransaction? && plan.agreementR.ConditionalTransaction?
    && plan.activationI.SetStateCommitment? && plan.activationR.SetStateCommitment? && plan.passThrough.SetStateCommitment?
    && plan.activationI != plan.activationR && plan.passThrough != plan.activationI && plan.passThrough != plan.activationR
  }

  // ---- In which order each role signs ----

  lemma InitiatorOrder(i: Xpub, m: Xpub, r: Xpub, plan: EndpointPlan, n: nat)
    requires EndpointShaped(plan) && n <= |Initiating(m, r, plan)|
    requires Signature(i, 0, plan.activation) in SignedBy(i, Initiating(m, r, plan), n)
    ensures Signature(m, 0, plan.agreement) in VerifiedBy(Initiating(m, r, plan), n)
    ensures Signature(m, 0, plan.activation) in VerifiedBy(Initiating(m, r, plan), n)
  {
    var script := Initiating(m, r, plan);
    var k := SignedAt(i, script, n, Signature(i, 0, plan.activation));
    VerifiedOnce(script, n, 3);
    VerifiedOnce(script, n, 5);
  }

  lemma ResponderOrder(i: Xpub, m: Xpub, r: Xpub, plan: EndpointPlan, n: nat)
    requires EndpointShaped(plan) && n <= |Responding(i, m, plan)|
    requires Signature(r, 0, plan.activation) in SignedBy(r, Responding(i, m, plan), n)
    ensures Signature(m, 0, plan.agreement) in VerifiedBy(Responding(i, m, plan), n)
  {
    var script := Responding(i, m, plan);
    var k := SignedAt(r, script, n, Signature(r, 0, plan.activation));
    VerifiedOnce(script, n, 1);
  }

  lemma IntermediarySigns(i: Xpub, r: Xpub, plan: IntermediaryPlan, k: nat)
    requires IntermediaryShaped(plan) && k < |Intermediating(i, r, plan)|
    ensures Intermediating(i, r, plan)[k] == Sign(0, plan.activationI) ==> k == 7
    ensures Intermediating(i, r, plan)[k] == Sign(0, plan.activationR) ==> k == 15
  {
  }

  lemma IntermediaryOrder(i: Xpub, m: Xpub, r: Xpub, plan: IntermediaryPlan, n: nat, c: Commitment)
    requires IntermediaryShaped(plan) && n <= |Intermediating(i, r, plan)|
    requires c in {plan.activationI, plan.activationR} && Signature(m, 0, c) in SignedBy(m, Intermediating(i, r, plan), n)
    ensures var verified := VerifiedBy(Intermediating(i, r, plan), n);
            && Signature(i, 0, plan.agreementI) in verified
            && Signature(r, 0, plan.agreementR) in verified && Signature(r, 0, plan.activationR) in verified
            && (c == plan.activationR ==> Signature(i, 0, plan.activationI) in verified)
  {
    var script := Intermediating(i, r, plan);
    var k := SignedAt(m, script, n, Signature(m, 0, c));
    IntermediarySigns(i, r, plan, k);
    IntermediaryChecked(i, m, r, plan, n);
  }

  /** What the intermediary has verified by the time it signs, and by the time it saves. */
  lemma IntermediaryChecked(i: Xpub, m: Xpub, r: Xpub, plan: IntermediaryPlan, n: nat)
    requires 7 <= n <= |Intermediating(i, r, plan)|
    ensures var verified := VerifiedBy(Intermediating(i, r, plan), n);
            && Signature(i, 0, plan.agreementI) in verified
            && Signature(r, 0, plan.agreementR) in verified && Signature(r, 0, plan.activationR) in verified
            && (n > 12 ==> Signature(i, 0, plan.activationI) in verified)
            && (n > 14 ==> Signature(i, 0, plan.passThrough) in verified)
            && (n > 20 ==> Signature(r, 0, plan.passThrough) in verified)
  {
    var script := Intermediating(i, r, plan);
    VerifiedOnce(script, n, 1);
    VerifiedOnce(script, n, 5);
    VerifiedOnce(script, n, 6);
    IntermediaryCheckedLater(i, r, plan, n);
  }

  lemma IntermediaryCheckedLater(i: Xpub, r: Xpub, plan: IntermediaryPlan, n: nat)
    requires n <= |Intermediating(i, r, plan)|
    ensures var verified := VerifiedBy(Intermediating(i, r, plan), n);
            && (n > 12 ==> Signature(i, 0, plan.activationI) in verified)
            && (n > 14 ==> Signature(i, 0, plan.passThrough) in verified)
            && (n > 20 ==> Signature(r, 0, plan.passThrough) in verified)
  {
    var script := Intermediating(i, r, plan);
    if n > 12 { VerifiedOnce(script, n, 12); }
    if n > 14 { VerifiedOnce(script, n, 14); }
    if n > 20 { VerifiedOnce(script, n, 20); }
  }

  /** In every run, wherever parties stop: no role signs a free balance update that activates the agreement
      before it has verified its counterparty's signature on the agreement's conditional transaction. The
      intermediary signs neither update before the responder has signed both the agreement and its update,
      and the responder's only after the initiator has signed its own. */
  lemma NoActivationBeforeAgreement(sys: System, events: seq<Event>, i: Xpub, m: Xpub, r: Xpub,
                                    planI: EndpointPlan, channelsI: Channels, planM: IntermediaryPlan, channelsM: Channels,
                                    planR: EndpointPlan, channelsR: Channels)
    requires EndpointShaped(planI) && IntermediaryShaped(planM) && EndpointShaped(planR)
    ensures Initiates(sys, i, m, r, planI, channelsI) && Signature(i, 0, planI.activation) in NodeOf(sys, events, i).signed ==>
              Signature(m, 0, planI.agreement) in NodeOf(sys, events, i).verified
    ensures Responds(sys, i, m, r, planR, channelsR) && Signature(r, 0, planR.activation) in NodeOf(sys, events, r).signed ==>
              Signature(m, 0, planR.agreement) in NodeOf(sys, events, r).verified
    ensures Intermediates(sys, i, m, r, planM, channelsM) ==>
              forall c :: c in {planM.activationI, planM.activationR} && Signature(m, 0, c) in NodeOf(sys, events, m).signed ==>
                var verified := NodeOf(sys, events, m).verified;
                && Signature(i, 0, planM.agreementI) in verified
                && Signature(r, 0, planM.agreementR) in verified && Signature(r, 0, planM.activationR) in verified
                && (c == planM.activationR ==> Signature(i, 0, planM.activationI) in verified)
  {
    RunOk(sys, events);
    if Initiates(sys, i, m, r, planI, channelsI) && Signature(i, 0, planI.activation) in NodeOf(sys, events, i).signed {
      assert NodeOk(i, sys.parties[i], NodeOf(sys, events, i));
      InitiatorOrder(i, m, r, planI, NodeOf(sys, events, i).pc);
    }
    if Responds(sys, i, m, r, planR, channelsR) && Signature(r, 0, planR.activation) in NodeOf(sys, events, r).signed {
      assert NodeOk(r, sys.parties[r], NodeOf(sys, events, r));
      ResponderOrder(i, m, r, planR, NodeOf(sys, events, r).pc);
    }
    if Intermediates(sys, i, m, r, planM, channelsM) {
      assert NodeOk(m, sys.parties[m], NodeOf(sys, events, m));
      forall c | c in {planM.activationI, planM.activationR} && Signature(m, 0, c) in NodeOf(sys, events, m).signed
        ensures var verified := NodeOf(sys, events, m).verified;
                && Signature(i, 0, planM.agreementI) in verified
                && Signature(r, 0, planM.agreementR) in verified && Signature(r, 0, planM.activationR) in verified
                && (c == planM.activationR ==> Signature(i, 0, planM.activationI) in verified)
      {
        IntermediaryOrder(i, m, r, planM, NodeOf(sys, events, m).pc, c);
      }
    }
  }

  // ---- What each role has verified when it saves ----

  /** In every run, an initiator that has saved anything has verified the intermediary's signature on exactly the
      free balance of the channel between them, and both others' on the pass-through app. */
  lemma InitiatorSaves(sys: System, events: seq<Event>, i: Xpub, m: Xpub, r: Xpub, plan: EndpointPlan, channels: Channels)
    requires Initiates(sys, i, m, r, plan, channels)
    ensures var node := NodeOf(sys, events, i);
            && node.pc <= 20
            && (node.pc <= 17 ==> node.store == channels)
            && (node.pc == 20 ==> node.store == SaveAll(channels, plan.withIntermediary, plan.betweenUsers, plan.threeParty))
            && (node.pc > 17 ==>
                  && Signature(m, 0, plan.agreement) in node.verified && Signature(m, 0, plan.activation) in node.verified
                  && Signature(m, 0, plan.passThrough) in node.verified && Signature(r, 0, plan.passThrough) in node.verified
                  && Signature(r, 0, plan.virtualApp) in node.verified)
  {
    var script := sys.parties[i].script;
    SavesThrice(sys, events, i, 17);
    assert script[3].Verify? && script[5].Verify? && script[12].Verify? && script[13].Verify? && script[14].Verify?;
  }

  lemma IntermediarySaveSteps(i: Xpub, r: Xpub, plan: IntermediaryPlan)
    ensures forall j :: 0 <= j < 26 ==> (Intermediating(i, r, plan)[j].Save? <==> 23 <= j)
  {
  }

  /** Likewise an intermediary has verified the owners' signatures on exactly both free balances. */
  lemma IntermediarySaves(sys: System, events: seq<Event>, i: Xpub, m: Xpub, r: Xpub, plan: IntermediaryPlan, channels: Channels)
    requires Intermediates(sys, i, m, r, plan, channels)
    ensures var node := NodeOf(sys, events, m);
            && node.pc <= 26
            && (node.pc <= 23 ==> node.store == channels)
            && (node.pc == 26 ==> node.store == SaveAll(channels, plan.threeParty, plan.withResponding, plan.withInitiating))
            && (node.pc > 23 ==>
                  && Signature(i, 0, plan.agreementI) in node.verified && Signature(i, 0, plan.activationI) in node.verified
                  && Signature(r, 0, plan.agreementR) in node.verified && Signature(r, 0, plan.activationR) in node.verified
                  && Signature(i, 0, plan.passThrough) in node.verified && Signature(r, 0, plan.passThrough) in node.verified)
  {
    IntermediarySaveSteps(i, r, plan);
    SavesThrice(sys, events, m, 23);
    RunOk(sys, events);
    assert NodeOk(m, sys.parties[m], NodeOf(sys, events, m));
    if NodeOf(sys, events, m).pc > 23 {
      IntermediaryChecked(i, m, r, plan, NodeOf(sys, events, m).pc);
    }
  }

  lemma ResponderSaveSteps(i: Xpub, m: Xpub, plan: EndpointPlan)
    ensures forall j :: 0 <= j < 20 ==> (Responding(i, m, plan)[j].Save? <==> 17 <= j)
  {
  }

  lemma ResponderChecked(i: Xpub, m: Xpub, r: Xpub, plan: EndpointPlan, n: nat)
    requires 11 < n <= |Responding(i, m, plan)|
    ensures var verified := VerifiedBy(Responding(i, m, plan), n);
            && Signature(m, 0, plan.agreement) in verified
            && Signature(m, 0, plan.activation) in verified && Signature(m, 0, plan.passThrough) in verified
            && Signature(i, 0, plan.passThrough) in verified && Signature(i, 0, plan.virtualApp) in verified
  {
    var script := Responding(i, m, plan);
    VerifiedOnce(script, n, 1);
    VerifiedOnce(script, n, 7);
    VerifiedOnce(script, n, 9);
    VerifiedOnce(script, n, 10);
    VerifiedOnce(script, n, 11);
  }

  /** And so has a responder. */
  lemma ResponderSaves(sys: System, events: seq<Event>, i: Xpub, m: Xpub, r: Xpub, plan: EndpointPlan, channels: Channels)
    requires Responds(sys, i, m, r, plan, channels)
    ensures var node := NodeOf(sys, events, r);
            && node.pc <= 20
            && (node.pc <= 17 ==> node.store == channels)
            && (node.pc == 20 ==> node.store == SaveAll(channels, plan.withIntermediary, plan.threeParty, plan.betweenUsers))
            && (node.pc > 17 ==>
                  && Signature(m, 0, plan.agreement) in node.verified && Signature(m, 0, plan.activation) in node.verified
                  && Signature(m, 0, plan.passThrough) in node.verified && Signature(i, 0, plan.passThrough) in node.verified
                  && Signature(i, 0, plan.virtualApp) in node.verified)
  {
    ResponderSaveSteps(i, m, plan);
    SavesThrice(sys, events, r, 17);
    RunOk(sys, events);
    assert NodeOk(r, sys.parties[r], NodeOf(sys, events, r));
    if NodeOf(sys, events, r).pc > 17 {
      ResponderChecked(i, m, r, plan, NodeOf(sys, events, r).pc);
    }
  }

  // ---- When anybody has saved ----

  /** The identities that tell the four kinds of updates apart: free balances of the two channels, which have
      number 0, pass-through apps of three participants and virtual apps of two. */
  predicate Separate(planI: EndpointPlan, planM: IntermediaryPlan, planR: EndpointPlan, channelI: Hash, channelR: Hash) {
    && EndpointShaped(planI) && IntermediaryShaped(planM) && EndpointShaped(planR)
    && channelI != channelR && channelI.channelNonce == 0 && channelR.channelNonce == 0
    && |channelI.participants| == 2 && |channelR.participants| == 2
    && planI.activation.identityHash == planM.activationI.identityHash == channelI
    && planR.activation.identityHash == planM.activationR.identityHash == channelR
    && |planI.passThrough.identityHash.participants| == 3 && |planM.passThrough.identityHash.participants| == 3
    && |planR.passThrough.identityHash.participants| == 3
    && |planI.virtualApp.identityHash.participants| == 2 && planI.virtualApp.identityHash.channelNonce != 0
    && |planR.virtualApp.identityHash.participants| == 2 && planR.virtualApp.identityHash.channelNonce != 0
  }

  /** What the scripts send, and how far they are when they have. */
  lemma InitiatorSends(i: Xpub, m: Xpub, r: Xpub, plan: EndpointPlan, n: nat, c: Commitment)
    requires EndpointShaped(plan) && n <= |Initiating(m, r, plan)| && c.SetStateCommitment?
    requires Signature(i, 0, c) in SentBy(i, Initiating(m, r, plan), n)
    ensures n > 10 && c in {plan.activation, plan.passThrough, plan.virtualApp}
  {
    var k := SentAt(i, Initiating(m, r, plan), n, Signature(i, 0, c));
  }

  lemma IntermediarySendSteps(i: Xpub, r: Xpub, plan: IntermediaryPlan, k: nat, c: Commitment)
    requires IntermediaryShaped(plan) && k < |Intermediating(i, r, plan)| && c.SetStateCommitment?
    requires Intermediating(i, r, plan)[k].Send? && Mine(0, c) in Intermediating(i, r, plan)[k].fields
    ensures k >= 10 && c in {plan.activationI, plan.activationR, plan.passThrough}
    ensures c != plan.activationI ==> k >= 18
  {
  }

  lemma IntermediarySends(i: Xpub, m: Xpub, r: Xpub, plan: IntermediaryPlan, n: nat, c: Commitment)
    requires IntermediaryShaped(plan) && n <= |Intermediating(i, r, plan)| && c.SetStateCommitment?
    requires Signature(m, 0, c) in SentBy(m, Intermediating(i, r, plan), n)
    ensures n > 10 && c in {plan.activationI, plan.activationR, plan.passThrough}
    ensures c != plan.activationI ==> n > 18
  {
    var k := SentAt(m, Intermediating(i, r, plan), n, Signature(m, 0, c));
    IntermediarySendSteps(i, r, plan, k, c);
  }

  lemma ResponderSends(i: Xpub, m: Xpub, r: Xpub, plan: EndpointPlan, n: nat, c: Commitment)
    requires EndpointShaped(plan) && n <= |Responding(i, m, plan)| && c.SetStateCommitment?
    requires Signature(r, 0, c) in SentBy(r, Responding(i, m, plan), n)
    ensures n > 5 && c in {plan.activation, plan.passThrough, plan.virtualApp}
    ensures c != plan.activation ==> n > 16
  {
    var k := SentAt(r, Responding(i, m, plan), n, Signature(r, 0, c));
  }

  /** Signatures that a party makes in this run, and that are not known from before. */
  predicate FreshFrom(sys: System, x: Xpub, commitments: set<Commitment>) {
    forall c :: c in commitments ==> Signature(x, 0, c) !in sys.known
  }

  /** Three honest parties, with whatever plans; the network may know any of their signatures from before, but for
      those on the very updates that this run is about. */
  predicate AllHonest(sys: System, i: Xpub, m: Xpub, r: Xpub, planI: EndpointPlan, channelsI: Channels,
                      planM: IntermediaryPlan, channelsM: Channels, planR: EndpointPlan, channelsR: Channels)
  {
    && i != m && i != r && m != r
    && Initiates(sys, i, m, r, planI, channelsI)
    && Intermediates(sys, i, m, r, planM, channelsM)
    && Responds(sys, i, m, r, planR, channelsR)
    && FreshFrom(sys, i, {planI.passThrough, planM.activationI, planM.passThrough, planR.passThrough, planR.virtualApp})
    && FreshFrom(sys, m, {planI.activation, planI.passThrough, planR.activation, planR.passThrough})
    && FreshFrom(sys, r, {planI.passThrough, planI.virtualApp, planM.activationR, planM.passThrough})
  }

  /** How far everybody is: the initiator has signed its update and the virtual app, the intermediary both
      updates, the responder its own, and all three sign the same things. */
  ghost predicate Sealed(sys: System, events: seq<Event>, i: Xpub, m: Xpub, r: Xpub,
                         planI: EndpointPlan, planM: IntermediaryPlan, planR: EndpointPlan)
    requires i in sys.parties && m in sys.parties && r in sys.parties
  {
    && NodeOf(sys, events, i).pc > 10 && NodeOf(sys, events, m).pc > 18 && NodeOf(sys, events, r).pc > 5
    && planI.activation == planM.activationI && planR.activation == planM.activationR
    && planI.passThrough == planM.passThrough
  }

  lemma SealedByIntermediary(sys: System, events: seq<Event>, i: Xpub, m: Xpub, r: Xpub, planI: EndpointPlan, channelsI: Channels,
                             planM: IntermediaryPlan, channelsM: Channels, planR: EndpointPlan, channelsR: Channels, channelI: Hash, channelR: Hash)
    requires AllHonest(sys, i, m, r, planI, channelsI, planM, channelsM, planR, channelsR)
    requires Separate(planI, planM, planR, channelI, channelR)
    requires NodeOf(sys, events, m).pc > 18
    ensures Sealed(sys, events, i, m, r, planI, planM, planR)
  {
    RunOk(sys, events);
    var node := NodeOf(sys, events, m);
    assert NodeOk(m, sys.parties[m], node);
    assert NodeOk(i, sys.parties[i], NodeOf(sys, events, i)) && NodeOk(r, sys.parties[r], NodeOf(sys, events, r));
    IntermediaryChecked(i, m, r, planM, node.pc);
    var k := VerifiedWasSent(sys, events, m, Signature(i, 0, planM.activationI));
    InitiatorSends(i, m, r, planI, NodeOf(sys, events, i).pc, planM.activationI);
    k := VerifiedWasSent(sys, events, m, Signature(i, 0, planM.passThrough));
    InitiatorSends(i, m, r, planI, NodeOf(sys, events, i).pc, planM.passThrough);
    k := VerifiedWasSent(sys, events, m, Signature(r, 0, planM.activationR));
    ResponderSends(i, m, r, planR, NodeOf(sys, events, r).pc, planM.activationR);
  }

  /** Once the responder's checks have passed, everybody agrees on everything. */
  lemma SealedByResponder(sys: System, events: seq<Event>, i: Xpub, m: Xpub, r: Xpub, planI: EndpointPlan, channelsI: Channels,
                          planM: IntermediaryPlan, channelsM: Channels, planR: EndpointPlan, channelsR: Channels, channelI: Hash, channelR: Hash)
    requires AllHonest(sys, i, m, r, planI, channelsI, planM, channelsM, planR, channelsR)
    requires Separate(planI, planM, planR, channelI, channelR)
    requires NodeOf(sys, events, r).pc > 11
    ensures Sealed(sys, events, i, m, r, planI, planM, planR)
    ensures planR.passThrough == planM.passThrough && planR.virtualApp == planI.virtualApp
  {
    RunOk(sys, events);
    assert NodeOk(m, sys.parties[m], NodeOf(sys, events, m)) && NodeOk(r, sys.parties[r], NodeOf(sys, events, r));
    assert NodeOk(i, sys.parties[i], NodeOf(sys, events, i));
    ResponderChecked(i, m, r, planR, NodeOf(sys, events, r).pc);
    var k := VerifiedWasSent(sys, events, r, Signature(m, 0, planR.activation));
    IntermediarySends(i, m, r, planM, NodeOf(sys, events, m).pc, planR.activation);
    k := VerifiedWasSent(sys, events, r, Signature(m, 0, planR.passThrough));
    IntermediarySends(i, m, r, planM, NodeOf(sys, events, m).pc, planR.passThrough);
    k := VerifiedWasSent(sys, events, r, Signature(i, 0, planR.virtualApp));
    InitiatorSends(i, m, r, planI, NodeOf(sys, events, i).pc, planR.virtualApp);
    SealedByIntermediary(sys, events, i, m, r, planI, channelsI, planM, channelsM, planR, channelsR, channelI, channelR);
  }

  /** Between three honest parties, whatever each of them had stored: in every run, nobody saves anything before
      every free balance update is signed by both its owners, on the same content, with one pass-through app;
      and when the initiator or the intermediary has saved, the responder's checks have all passed and it
      has only its own saves left, with the same virtual app. The responder, which saves before its last
      message is answered, may be the first or the last to save. */
  lemma NobodySavesAlone(sys: System, events: seq<Event>, i: Xpub, m: Xpub, r: Xpub, planI: EndpointPlan, channelsI: Channels,
                         planM: IntermediaryPlan, channelsM: Channels, planR: EndpointPlan, channelsR: Channels, channelI: Hash, channelR: Hash)
    requires AllHonest(sys, i, m, r, planI, channelsI, planM, channelsM, planR, channelsR)
    requires Separate(planI, planM, planR, channelI, channelR)
    ensures NodeOf(sys, events, i).store != channelsI || NodeOf(sys, events, m).store != channelsM || NodeOf(sys, events, r).store != channelsR ==>
              && Sealed(sys, events, i, m, r, planI, planM, planR)
              && NodeOf(sys, events, r).pc > 16
              && planR.passThrough == planM.passThrough && planR.virtualApp == planI.virtualApp
  {
    InitiatorSaves(sys, events, i, m, r, planI, channelsI);
    IntermediarySaves(sys, events, i, m, r, planM, channelsM);
    ResponderSaves(sys, events, i, m, r, planR, channelsR);
    RunOk(sys, events);
    var n := NodeOf(sys, events, r).pc;
    assert NodeOk(r, sys.parties[r], NodeOf(sys, events, r));
    if NodeOf(sys, events, m).pc > 23 {
      var k := VerifiedWasSent(sys, events, m, Signature(r, 0, planM.passThrough));
      ResponderSends(i, m, r, planR, n, planM.passThrough);
    } else if NodeOf(sys, events, i).pc > 17 {
      var k := VerifiedWasSent(sys, events, i, Signature(r, 0, planI.passThrough));
      ResponderSends(i, m, r, planR, n, planI.passThrough);
    }
    if n > 16 {
      SealedByResponder(sys, events, i, m, r, planI, channelsI, planM, channelsM, planR, channelsR, channelI, channelR);
    }
  }

  // ---- The signed commitments ----

  lemma InitiatorChecks(m: Xpub, r: Xpub, plan: EndpointPlan)
    ensures var script := Initiating(m, r, plan);
            && ChecksFor(script, 3, 4, Received(0, 0))
            && ChecksFor(script, 5, 7, Received(0, 1))
            && ChecksFor(script, 13, 15, Received(1, 1))
            && ChecksFor(script, 12, 15, Received(1, 0))
            && ChecksFor(script, 14, 16, Received(1, 2))
  {
  }

  lemma InitiatorStores(m: Xpub, r: Xpub, plan: EndpointPlan)
    ensures StoresChecked(Initiating(m, r, plan))
  {
    InitiatorChecks(m, r, plan);
  }

  lemma ResponderChecks(i: Xpub, m: Xpub, plan: EndpointPlan)
    ensures var script := Responding(i, m, plan);
            && ChecksFor(script, 1, 3, Received(0, 0))
            && ChecksFor(script, 7, 8, Received(1, 0))
            && ChecksFor(script, 10, 14, Received(1, 2))
            && ChecksFor(script, 9, 14, Received(1, 1))
            && ChecksFor(script, 11, 15, Received(1, 3))
  {
  }

  lemma ResponderStores(i: Xpub, m: Xpub, plan: EndpointPlan)
    ensures StoresChecked(Responding(i, m, plan))
  {
    ResponderChecks(i, m, plan);
  }

  lemma IntermediaryChecks(i: Xpub, r: Xpub, plan: IntermediaryPlan)
    ensures var script := Intermediating(i, r, plan);
            && ChecksFor(script, 1, 9, Received(0, 0))
            && ChecksFor(script, 12, 13, Received(2, 0))
            && ChecksFor(script, 6, 16, Received(1, 1))
            && ChecksFor(script, 14, 21, Received(2, 1))
            && ChecksFor(script, 20, 21, Received(3, 0))
  {
  }

  lemma IntermediaryStores(i: Xpub, r: Xpub, plan: IntermediaryPlan)
    ensures StoresChecked(Intermediating(i, r, plan))
  {
    IntermediaryChecks(i, r, plan);
  }

  /** The signed commitments that an endpoint p ends up with: the agreement and its update signed with the
      intermediary, the pass-through app by all three, and the virtual app by both users. */
  function EndpointStored(keys: Keys, i: Xpub, m: Xpub, r: Xpub, p: Xpub, plan: EndpointPlan): seq<Stored> {
    [ Stored(ForInstallVirtualApp(plan.virtualAppId), Countersigned(keys, plan.agreement, p, m)),
      Stored(FreeBalanceKey(plan.withIntermediary), Countersigned(keys, plan.activation, p, m)),
      Stored(ForUpdate(plan.passThroughId), SignedByThree(keys, plan.passThrough, i, r, m)),
      Stored(ForUpdate(plan.virtualAppId), Countersigned(keys, plan.virtualApp, i, r)) ]
  }

  ghost predicate DistinctSigners(keys: Keys, i: Xpub, m: Xpub, r: Xpub) {
    keys.kth(i, 0) != keys.kth(m, 0) && keys.kth(i, 0) != keys.kth(r, 0) && keys.kth(m, 0) != keys.kth(r, 0)
  }

  lemma EndpointStoredProperly(keys: Keys, i: Xpub, m: Xpub, r: Xpub, p: Xpub, plan: EndpointPlan)
    requires DistinctSigners(keys, i, m, r) && p in {i, r}
    ensures forall t :: t in EndpointStored(keys, i, m, r, p, plan) ==> ProperlySigned(t.transaction)
  {
    CountersignedAlike(keys, plan.agreement, p, m);
    CountersignedAlike(keys, plan.activation, p, m);
    CountersignedAlike(keys, plan.virtualApp, i, r);
    SignedByThreeAlike(keys, plan.passThrough, i, r, m,
                       [Signature(i, 0, plan.passThrough), Signature(r, 0, plan.passThrough), Signature(m, 0, plan.passThrough)]);
  }

  lemma InitiatorStores4(keys: Keys, i: Xpub, m: Xpub, r: Xpub, plan: EndpointPlan)
    ensures StoresAs(keys, i, Initiating(m, r, plan), 4, EndpointStored(keys, i, m, r, i, plan)[0])
  {
    InitiatorChecks(m, r, plan);
    StoresTwo(keys, i, Initiating(m, r, plan), 4, (0, 3), i, m);
  }

  lemma InitiatorStores7(keys: Keys, i: Xpub, m: Xpub, r: Xpub, plan: EndpointPlan)
    ensures StoresAs(keys, i, Initiating(m, r, plan), 7, EndpointStored(keys, i, m, r, i, plan)[1])
  {
    InitiatorChecks(m, r, plan);
    StoresTwo(keys, i, Initiating(m, r, plan), 7, (6, 5), i, m);
  }

  lemma InitiatorStores15(keys: Keys, i: Xpub, m: Xpub, r: Xpub, plan: EndpointPlan)
    ensures StoresAs(keys, i, Initiating(m, r, plan), 15, EndpointStored(keys, i, m, r, i, plan)[2])
  {
    InitiatorChecks(m, r, plan);
    StoresThree(keys, i, Initiating(m, r, plan), 15, (8, 13, 12), i, r, m);
  }

  lemma InitiatorStores16(keys: Keys, i: Xpub, m: Xpub, r: Xpub, plan: EndpointPlan)
    ensures StoresAs(keys, i, Initiating(m, r, plan), 16, EndpointStored(keys, i, m, r, i, plan)[3])
  {
    InitiatorChecks(m, r, plan);
    StoresTwo(keys, i, Initiating(m, r, plan), 16, (9, 14), i, r);
  }

  lemma InitiatorStoreSteps(m: Xpub, r: Xpub, plan: EndpointPlan, k: nat)
    requires k < |Initiating(m, r, plan)| && Initiating(m, r, plan)[k].SetCommitment?
    ensures k in [4, 7, 15, 16]
  {
  }

  lemma InitiatorStoresThese(keys: Keys, i: Xpub, m: Xpub, r: Xpub, plan: EndpointPlan)
    ensures StoresThese(keys, i, Initiating(m, r, plan), [4, 7, 15, 16], EndpointStored(keys, i, m, r, i, plan))
  {
    InitiatorStores4(keys, i, m, r, plan);
    InitiatorStores7(keys, i, m, r, plan);
    InitiatorStores15(keys, i, m, r, plan);
    InitiatorStores16(keys, i, m, r, plan);
    forall k: nat | k < |Initiating(m, r, plan)| && Initiating(m, r, plan)[k].SetCommitment?
      ensures k in [4, 7, 15, 16]
    {
      InitiatorStoreSteps(m, r, plan, k);
    }
  }

  lemma ResponderStores3(keys: Keys, i: Xpub, m: Xpub, r: Xpub, plan: EndpointPlan)
    ensures StoresAs(keys, r, Responding(i, m, plan), 3, EndpointStored(keys, i, m, r, r, plan)[0])
  {
    ResponderChecks(i, m, plan);
    StoresTwo(keys, r, Responding(i, m, plan), 3, (2, 1), r, m);
  }

  lemma ResponderStores8(keys: Keys, i: Xpub, m: Xpub, r: Xpub, plan: EndpointPlan)
    requires keys.kth(r, 0) != keys.kth(m, 0)
    ensures StoresAs(keys, r, Responding(i, m, plan), 8, EndpointStored(keys, i, m, r, r, plan)[1])
  {
    ResponderChecks(i, m, plan);
    StoresTwo(keys, r, Responding(i, m, plan), 8, (7, 4), m, r);
    CountersignedAlike(keys, plan.activation, m, r);
  }

  lemma ResponderStores14(keys: Keys, i: Xpub, m: Xpub, r: Xpub, plan: EndpointPlan)
    ensures StoresAs(keys, r, Responding(i, m, plan), 14, EndpointStored(keys, i, m, r, r, plan)[2])
  {
    ResponderChecks(i, m, plan);
    StoresThree(keys, r, Responding(i, m, plan), 14, (10, 12, 9), i, r, m);
  }

  lemma ResponderStores15(keys: Keys, i: Xpub, m: Xpub, r: Xpub, plan: EndpointPlan)
    ensures StoresAs(keys, r, Responding(i, m, plan), 15, EndpointStored(keys, i, m, r, r, plan)[3])
  {
    ResponderChecks(i, m, plan);
    StoresTwo(keys, r, Responding(i, m, plan), 15, (11, 13), i, r);
  }

  lemma ResponderStoreSteps(i: Xpub, m: Xpub, plan: EndpointPlan, k: nat)
    requires k < |Responding(i, m, plan)| && Responding(i, m, plan)[k].SetCommitment?
    ensures k in [3, 8, 14, 15]
  {
  }

  lemma ResponderStoresThese(keys: Keys, i: Xpub, m: Xpub, r: Xpub, plan: EndpointPlan)
    requires keys.kth(r, 0) != keys.kth(m, 0)
    ensures StoresThese(keys, r, Responding(i, m, plan), [3, 8, 14, 15], EndpointStored(keys, i, m, r, r, plan))
  {
    ResponderStores3(keys, i, m, r, plan);
    ResponderStores8(keys, i, m, r, plan);
    ResponderStores14(keys, i, m, r, plan);
    ResponderStores15(keys, i, m, r, plan);
    forall k: nat | k < |Responding(i, m, plan)| && Responding(i, m, plan)[k].SetCommitment?
      ensures k in [3, 8, 14, 15]
    {
      ResponderStoreSteps(i, m, plan, k);
    }
  }

  /** In every run, an endpoint stores nothing but these four, each on the commitment it is kept for and with exactly
      the signatures of those who have to sign it; at its end it has stored them all. */
  lemma EndpointStoresProperly(sys: System, events: seq<Event>, i: Xpub, m: Xpub, r: Xpub, p: Xpub, plan: EndpointPlan, channels: Channels)
    requires (p == i && Initiates(sys, i, m, r, plan, channels)) || (p == r && Responds(sys, i, m, r, plan, channels))
    requires DistinctSigners(sys.keys, i, m, r)
    ensures var (node, stored) := (NodeOf(sys, events, p), EndpointStored(sys.keys, i, m, r, p, plan));
            && (forall t :: t in node.commitments ==> t in stored && ProperlySigned(t.transaction))
            && (node.pc == 20 ==> forall t :: t in stored ==> t in node.commitments)
  {
    EndpointStoredProperly(sys.keys, i, m, r, p, plan);
    if p == i && Initiates(sys, i, m, r, plan, channels) {
      InitiatorStores(m, r, plan);
      InitiatorStoresThese(sys.keys, i, m, r, plan);
      StoresOnlyThese(sys, events, i, [4, 7, 15, 16], EndpointStored(sys.keys, i, m, r, i, plan));
    } else {
      ResponderStores(i, m, plan);
      ResponderStoresThese(sys.keys, i, m, r, plan);
      StoresOnlyThese(sys, events, r, [3, 8, 14, 15], EndpointStored(sys.keys, i, m, r, r, plan));
    }
  }

  /** What step 13 of the intermediary stores: the responder's update with the signatures on the initiator's. */
  function Misstored(keys: Keys, i: Xpub, m: Xpub, plan: IntermediaryPlan): Stored {
    Stored(FreeBalanceKey(plan.withResponding),
           GetSignedTransaction(keys, plan.activationR, [Signature(i, 0, plan.activationI), Signature(m, 0, plan.activationI)]))
  }

  lemma MisstoredImproper(keys: Keys, i: Xpub, m: Xpub, plan: IntermediaryPlan)
    requires plan.activationI != plan.activationR
    ensures !ProperlySigned(Misstored(keys, i, m, plan).transaction)
  {
    var signatures := [Signature(i, 0, plan.activationI), Signature(m, 0, plan.activationI)];
    SignedByTheGiven(keys, plan.activationR, signatures);
    assert signatures[0] in signatures;
  }

  /** What the intermediary ends up with: the agreement and the update of either user's channel, but the initiator's
      update not at all, and the responder's twice. */
  function IntermediaryStored(keys: Keys, i: Xpub, m: Xpub, r: Xpub, plan: IntermediaryPlan): seq<Stored> {
    [ Stored(ForInstallVirtualApp(plan.passThroughId), Countersigned(keys, plan.agreementI, i, m)),
      Misstored(keys, i, m, plan),
      Stored(FreeBalanceKey(plan.withResponding), Countersigned(keys, plan.activationR, r, m)),
      Stored(ForUpdate(plan.passThroughId), SignedByThree(keys, plan.passThrough, i, r, m)) ]
  }

  lemma IntermediaryStoredProperly(keys: Keys, i: Xpub, m: Xpub, r: Xpub, plan: IntermediaryPlan)
    requires DistinctSigners(keys, i, m, r)
    ensures ProperlySigned(Countersigned(keys, plan.agreementI, i, m)) && ProperlySigned(Countersigned(keys, plan.activationR, r, m))
    ensures ProperlySigned(SignedByThree(keys, plan.passThrough, i, r, m))
  {
    CountersignedAlike(keys, plan.agreementI, i, m);
    CountersignedAlike(keys, plan.activationR, r, m);
    SignedByThreeAlike(keys, plan.passThrough, i, r, m,
                       [Signature(i, 0, plan.passThrough), Signature(r, 0, plan.passThrough), Signature(m, 0, plan.passThrough)]);
  }

  lemma IntermediaryStores9(keys: Keys, i: Xpub, m: Xpub, r: Xpub, plan: IntermediaryPlan)
    ensures StoresAs(keys, m, Intermediating(i, r, plan), 9, IntermediaryStored(keys, i, m, r, plan)[0])
  {
    IntermediaryChecks(i, r, plan);
    StoresTwo(keys, m, Intermediating(i, r, plan), 9, (1, 8), i, m);
  }

  lemma IntermediaryStores13(keys: Keys, i: Xpub, m: Xpub, r: Xpub, plan: IntermediaryPlan)
    ensures StoresAs(keys, m, Intermediating(i, r, plan), 13, IntermediaryStored(keys, i, m, r, plan)[1])
  {
    IntermediaryChecks(i, r, plan);
    StoresExactly(keys, m, Intermediating(i, r, plan), 13, [12, 7], [Signature(i, 0, plan.activationI), Signature(m, 0, plan.activationI)]);
  }

  lemma IntermediaryStores16(keys: Keys, i: Xpub, m: Xpub, r: Xpub, plan: IntermediaryPlan)
    ensures StoresAs(keys, m, Intermediating(i, r, plan), 16, IntermediaryStored(keys, i, m, r, plan)[2])
  {
    IntermediaryChecks(i, r, plan);
    StoresTwo(keys, m, Intermediating(i, r, plan), 16, (6, 15), r, m);
  }

  lemma IntermediaryStores21(keys: Keys, i: Xpub, m: Xpub, r: Xpub, plan: IntermediaryPlan)
    ensures StoresAs(keys, m, Intermediating(i, r, plan), 21, IntermediaryStored(keys, i, m, r, plan)[3])
  {
    IntermediaryChecks(i, r, plan);
    StoresThree(keys, m, Intermediating(i, r, plan), 21, (14, 20, 17), i, r, m);
  }

  lemma IntermediaryStoreSteps(i: Xpub, r: Xpub, plan: IntermediaryPlan, k: nat)
    requires k < |Intermediating(i, r, plan)| && Intermediating(i, r, plan)[k].SetCommitment?
    ensures k in [9, 13, 16, 21]
  {
  }

  lemma IntermediaryStoresThese(keys: Keys, i: Xpub, m: Xpub, r: Xpub, plan: IntermediaryPlan)
    ensures StoresThese(keys, m, Intermediating(i, r, plan), [9, 13, 16, 21], IntermediaryStored(keys, i, m, r, plan))
  {
    IntermediaryStores9(keys, i, m, r, plan);
    IntermediaryStores13(keys, i, m, r, plan);
    IntermediaryStores16(keys, i, m, r, plan);
    IntermediaryStores21(keys, i, m, r, plan);
    forall k: nat | k < |Intermediating(i, r, plan)| && Intermediating(i, r, plan)[k].SetCommitment?
      ensures k in [9, 13, 16, 21]
    {
      IntermediaryStoreSteps(i, r, plan, k);
    }
  }

  lemma ProperButOne(commitments: set<Stored>, stored: seq<Stored>, misstored: Stored)
    requires |stored| == 4 && stored[1] == misstored && !ProperlySigned(misstored.transaction)
    requires ProperlySigned(stored[0].transaction) && ProperlySigned(stored[2].transaction) && ProperlySigned(stored[3].transaction)
    requires forall t :: t in commitments ==> t in stored
    ensures forall t :: t in commitments ==> (ProperlySigned(t.transaction) <==> t != misstored)
  {
  }

  /** In every run, an intermediary stores nothing but these, and has stored all of them after step 21. Each carries
      exactly the signatures of those who have to sign it but for one, which it has stored exactly when it has
      passed step 13. */
  lemma IntermediaryStoresProperlyButOnce(sys: System, events: seq<Event>, i: Xpub, m: Xpub, r: Xpub, plan: IntermediaryPlan, channels: Channels)
    requires Intermediates(sys, i, m, r, plan, channels) && plan.activationI != plan.activationR && DistinctSigners(sys.keys, i, m, r)
    ensures var (node, stored) := (NodeOf(sys, events, m), IntermediaryStored(sys.keys, i, m, r, plan));
            && (forall t :: t in node.commitments ==> t in stored && (ProperlySigned(t.transaction) <==> t != Misstored(sys.keys, i, m, plan)))
            && (node.pc > 21 ==> forall t :: t in stored ==> t in node.commitments)
            && (Misstored(sys.keys, i, m, plan) in node.commitments <==> node.pc > 13)
  {
    IntermediaryStoresOnly(sys, events, i, m, r, plan, channels);
    IntermediaryStoredProperly(sys.keys, i, m, r, plan);
    MisstoredImproper(sys.keys, i, m, plan);
    ProperButOne(NodeOf(sys, events, m).commitments, IntermediaryStored(sys.keys, i, m, r, plan), Misstored(sys.keys, i, m, plan));
    if Misstored(sys.keys, i, m, plan) in NodeOf(sys, events, m).commitments {
      IntermediaryStoredLate(sys, events, i, m, r, plan, channels);
    }
  }

  lemma IntermediaryStoresOnly(sys: System, events: seq<Event>, i: Xpub, m: Xpub, r: Xpub, plan: IntermediaryPlan, channels: Channels)
    requires Intermediates(sys, i, m, r, plan, channels)
    ensures var (node, stored) := (NodeOf(sys, events, m), IntermediaryStored(sys.keys, i, m, r, plan));
            && (forall t :: t in node.commitments ==> t in stored)
            && (node.pc > 13 ==> Misstored(sys.keys, i, m, plan) in node.commitments)
            && (node.pc > 21 ==> forall t :: t in stored ==> t in node.commitments)
  {
    var stored, steps := IntermediaryStored(sys.keys, i, m, r, plan), [9, 13, 16, 21];
    IntermediaryStores(i, r, plan);
    IntermediaryStoresThese(sys.keys, i, m, r, plan);
    StoresOnlyThese(sys, events, m, steps, stored);
    assert steps[1] == 13 && stored[1] == Misstored(sys.keys, i, m, plan);
  }

  lemma IntermediaryStoredLate(sys: System, events: seq<Event>, i: Xpub, m: Xpub, r: Xpub, plan: IntermediaryPlan, channels: Channels)
    requires Intermediates(sys, i, m, r, plan, channels) && plan.activationI != plan.activationR && DistinctSigners(sys.keys, i, m, r)
    requires Misstored(sys.keys, i, m, plan) in NodeOf(sys, events, m).commitments
    ensures NodeOf(sys, events, m).pc > 13
  {
    IntermediaryStores(i, r, plan);
    MisstoredImproper(sys.keys, i, m, plan);
    IntermediaryStoredProperly(sys.keys, i, m, r, plan);
    var k := StoredByTakenStep(sys, events, m, Misstored(sys.keys, i, m, plan));
    IntermediaryStoreSteps(i, r, plan, k);
    if k == 9 {
      IntermediaryStores9(sys.keys, i, m, r, plan);
    }
  }

  // ---- The computed plans are separate ----

  /** The identities an endpoint computes with: the free balance of the channel, which has number 0, a pass-through
      app of three participants and a virtual app of two. */
  predicate EndpointIdentified(kth: Derivation, e: EndpointInstall, user: Xpub, intermediary: Xpub, appSeqNo: nat) {
    && OwnFreeBalance(kth, e.withIntermediary, [user, intermediary])
    && |e.passThrough.participants| == 3
    && |e.virtualApp.participants| == 2 && e.virtualApp.appSeqNo == appSeqNo
  }

  predicate IntermediaryIdentified(kth: Derivation, m: IntermediaryInstall, p: InstallVirtualAppParams) {
    && OwnFreeBalance(kth, m.withInitiating, [p.initiatorXpub, p.intermediaryXpub])
    && OwnFreeBalance(kth, m.withResponding, [p.responderXpub, p.intermediaryXpub])
    && |m.passThrough.participants| == 3
  }

  lemma NewAppsParticipants(env: Environment, p: InstallVirtualAppParams, n: nat)
    ensures |SortAddresses([env.kth(p.initiatorXpub, p.appSeqNo), env.kth(p.responderXpub, p.appSeqNo)])| == 2
    ensures |SortAddresses([env.kth(p.initiatorXpub, n), env.kth(p.responderXpub, n), env.kth(p.intermediaryXpub, n)])| == 3
  {
    SortedLengths(env.kth(p.initiatorXpub, p.appSeqNo), env.kth(p.responderXpub, p.appSeqNo), 0);
    SortedLengths(env.kth(p.initiatorXpub, n), env.kth(p.responderXpub, n), env.kth(p.intermediaryXpub, n));
  }

  /** What installing computes keeps the identities apart, when the channels start with their own free balance apps. */
  lemma InitiatorIdentities(env: Environment, channels: Channels, p: InstallVirtualAppParams)
    requires InstallForInitiating(env, channels, p).Ok?
    requires OwnFreeBalance(env.kth, GetChannel(env.kth, channels, [p.initiatorXpub, p.intermediaryXpub]).value, [p.initiatorXpub, p.intermediaryXpub])
    ensures EndpointIdentified(env.kth, InstallForInitiating(env, channels, p).value, p.initiatorXpub, p.intermediaryXpub, p.appSeqNo)
  {
    NewAppsParticipants(env, p, GetOrCreate(env.kth, channels, [p.initiatorXpub, p.responderXpub, p.intermediaryXpub]).monotonicNumProposedApps);
  }

  lemma ResponderIdentities(env: Environment, channels: Channels, p: InstallVirtualAppParams)
    requires InstallForResponding(env, channels, p).Ok?
    requires OwnFreeBalance(env.kth, GetChannel(env.kth, channels, [p.responderXpub, p.intermediaryXpub]).value, [p.responderXpub, p.intermediaryXpub])
    ensures EndpointIdentified(env.kth, InstallForResponding(env, channels, p).value, p.responderXpub, p.intermediaryXpub, p.appSeqNo)
  {
    NewAppsParticipants(env, p, GetOrCreate(env.kth, channels, [p.initiatorXpub, p.responderXpub, p.intermediaryXpub]).monotonicNumProposedApps);
  }

  lemma IntermediaryIdentities(env: Environment, channels: Channels, p: InstallVirtualAppParams, virtualApp: Hash, defaultOutcome: Outcome)
    requires InstallForIntermediary(env, channels, p, virtualApp, defaultOutcome).Ok?
    requires OwnFreeBalance(env.kth, GetChannel(env.kth, channels, [p.initiatorXpub, p.intermediaryXpub]).value, [p.initiatorXpub, p.intermediaryXpub])
    requires OwnFreeBalance(env.kth, GetChannel(env.kth, channels, [p.responderXpub, p.intermediaryXpub]).value, [p.responderXpub, p.intermediaryXpub])
    ensures IntermediaryIdentified(env.kth, InstallForIntermediary(env, channels, p, virtualApp, defaultOutcome).value, p)
  {
    NewAppsParticipants(env, p, GetOrCreate(env.kth, channels, [p.initiatorXpub, p.responderXpub, p.intermediaryXpub]).monotonicNumProposedApps);
  }

  /** Plans made from such results tell the four kinds of updates apart, for a virtual app that was proposed. */
  lemma PlansSeparate(kth: Derivation, p: InstallVirtualAppParams, i: EndpointInstall, m: IntermediaryInstall, r: EndpointInstall, virtualApp: Hash)
    requires DistinctParties(kth, p.initiatorXpub, p.intermediaryXpub, p.responderXpub) && p.appSeqNo != 0
    requires EndpointIdentified(kth, i, p.initiatorXpub, p.intermediaryXpub, p.appSeqNo)
    requires IntermediaryIdentified(kth, m, p)
    requires EndpointIdentified(kth, r, p.responderXpub, p.intermediaryXpub, p.appSeqNo)
    requires InitiatorPlanOf(kth, p, i).Ok? && IntermediaryPlanOf(kth, p, m, virtualApp).Ok? && ResponderPlanOf(kth, p, r).Ok?
    ensures Separate(InitiatorPlanOf(kth, p, i).value, IntermediaryPlanOf(kth, p, m, virtualApp).value, ResponderPlanOf(kth, p, r).value,
                     AppHash(0, SortedKthAddresses(kth, [p.initiatorXpub, p.intermediaryXpub], 0)),
                     AppHash(0, SortedKthAddresses(kth, [p.responderXpub, p.intermediaryXpub], 0)))
  {
    ChannelIdentities(kth, p.initiatorXpub, p.intermediaryXpub, p.responderXpub);
  }

  /** The three roles, each with its own store and environment; the intermediary goes by what the first message says
      of the virtual app. */
  datatype Roles = Roles(
    initiator: Channels, intermediary: Channels, responder: Channels,
    envI: Environment, envM: Environment, envR: Environment,
    params: InstallVirtualAppParams, virtualApp: Hash, defaultOutcome: Outcome)
  {
    function I(): Result<EndpointInstall> { InstallForInitiating(envI, initiator, params) }

    function M(): Result<IntermediaryInstall> { InstallForIntermediary(envM, intermediary, params, virtualApp, defaultOutcome) }

    function R(): Result<EndpointInstall> { InstallForResponding(envR, responder, params) }

    function PlanI(): Result<EndpointPlan> {
      var i :- I();
      InitiatorPlanOf(envI.kth, params, i)
    }

    function PlanM(): Result<IntermediaryPlan> {
      var m :- M();
      IntermediaryPlanOf(envM.kth, params, m, virtualApp)
    }

    function PlanR(): Result<EndpointPlan> {
      var r :- R();
      ResponderPlanOf(envR.kth, params, r)
    }

    /** One key derivation; every channel with the free balance app that setup gave it. The copies need not agree. */
    ghost predicate Proper() {
      var (kth, i, m, r) := (envI.kth, params.initiatorXpub, params.intermediaryXpub, params.responderXpub);
      && envI.kth == envM.kth == envR.kth && DistinctParties(kth, i, m, r) && params.appSeqNo != 0
      && PlanI().Ok? && PlanM().Ok? && PlanR().Ok?
      && GetChannel(kth, initiator, [i, m]).Ok? && OwnFreeBalance(kth, GetChannel(kth, initiator, [i, m]).value, [i, m])
      && GetChannel(kth, intermediary, [i, m]).Ok? && OwnFreeBalance(kth, GetChannel(kth, intermediary, [i, m]).value, [i, m])
      && GetChannel(kth, intermediary, [r, m]).Ok? && OwnFreeBalance(kth, GetChannel(kth, intermediary, [r, m]).value, [r, m])
      && GetChannel(kth, responder, [r, m]).Ok? && OwnFreeBalance(kth, GetChannel(kth, responder, [r, m]).value, [r, m])
    }
  }

  lemma ComputedPlansSeparate(c: Roles)
    requires c.Proper()
    ensures Separate(c.PlanI().value, c.PlanM().value, c.PlanR().value,
                     AppHash(0, SortedKthAddresses(c.envI.kth, [c.params.initiatorXpub, c.params.intermediaryXpub], 0)),
                     AppHash(0, SortedKthAddresses(c.envI.kth, [c.params.responderXpub, c.params.intermediaryXpub], 0)))
  {
    InitiatorIdentities(c.envI, c.initiator, c.params);
    IntermediaryIdentities(c.envM, c.intermediary, c.params, c.virtualApp, c.defaultOutcome);
    ResponderIdentities(c.envR, c.responder, c.params);
    PlansSeparate(c.envI.kth, c.params, c.I().value, c.M().value, c.R().value, c.virtualApp);
  }

  /** For the plans that the three roles compute, each from its own store: in every run nobody saves anything before
      every free balance update is signed by both its owners, on the same content, and with one pass-through
      app and one virtual app. */
  lemma NobodySavesAloneAsComputed(sys: System, events: seq<Event>, c: Roles)
    requires c.Proper()
    requires AllHonest(sys, c.params.initiatorXpub, c.params.intermediaryXpub, c.params.responderXpub,
                       c.PlanI().value, c.initiator, c.PlanM().value, c.intermediary, c.PlanR().value, c.responder)
    ensures var (i, m, r) := (c.params.initiatorXpub, c.params.intermediaryXpub, c.params.responderXpub);
            var (planI, planM, planR) := (c.PlanI().value, c.PlanM().value, c.PlanR().value);
            NodeOf(sys, events, i).store != c.initiator || NodeOf(sys, events, m).store != c.intermediary || NodeOf(sys, events, r).store != c.responder ==>
              && Sealed(sys, events, i, m, r, planI, planM, planR)
              && NodeOf(sys, events, r).pc > 16
              && planR.passThrough == planM.passThrough && planR.virtualApp == planI.virtualApp
  {
    ComputedPlansSeparate(c);
    NobodySavesAlone(sys, events, c.params.initiatorXpub, c.params.intermediaryXpub, c.params.responderXpub,
                     c.PlanI().value, c.initiator, c.PlanM().value, c.intermediary, c.PlanR().value, c.responder,
                     AppHash(0, SortedKthAddresses(c.envI.kth, [c.params.initiatorXpub, c.params.intermediaryXpub], 0)),
                     AppHash(0, SortedKthAddresses(c.envI.kth, [c.params.responderXpub, c.params.intermediaryXpub], 0)));
  }

  // ---- From agreeing copies the protocol goes through ----

  /** The three plans fit together. */
  predicate Matching(planI: EndpointPlan, planM: IntermediaryPlan, planR: EndpointPlan) {
    && planI.agreement == planM.agreementI && planI.activation == planM.activationI
    && planR.agreement == planM.agreementR && planR.activation == planM.activationR
    && planI.withIntermediary == planM.withInitiating && planR.withIntermediary == planM.withResponding
    && planI.passThrough == planM.passThrough == planR.passThrough && planI.virtualApp == planR.virtualApp
    && planI.threeParty == planM.threeParty == planR.threeParty && planI.betweenUsers == planR.betweenUsers
  }

  /** Agreeing results make fitting plans: what each role expects to be signed is what the others sign. */
  lemma PlansMatch(kth: Derivation, p: InstallVirtualAppParams, i: EndpointInstall, m: IntermediaryInstall, r: EndpointInstall)
    requires InstalledAlike(i, m, r)
    requires InitiatorPlanOf(kth, p, i).Ok? && ResponderPlanOf(kth, p, r).Ok?
    requires IntermediaryPlanOf(kth, p, m, i.virtualApp.IdentityHash()).Ok?
    ensures Matching(InitiatorPlanOf(kth, p, i).value, IntermediaryPlanOf(kth, p, m, i.virtualApp.IdentityHash()).value,
                     ResponderPlanOf(kth, p, r).value)
  {
  }

  predicate OwnedBy(channel: StateChannel, a: Xpub, b: Xpub) {
    channel.userNeuteredExtendedKeys == [a, b] || channel.userNeuteredExtendedKeys == [b, a]
  }

  lemma OwnersFound(kth: Derivation, channel: StateChannel, a: Xpub, b: Xpub)
    requires OwnedBy(channel, a, b)
    ensures MultisigOwnerAddrOf(kth, channel, a).Ok? && MultisigOwnerAddrOf(kth, channel, b).Ok?
  {
    var owners := channel.userNeuteredExtendedKeys;
    OwnerFoundIff(kth, channel, owners[0], owners[1], a);
    OwnerFoundIff(kth, channel, owners[0], owners[1], b);
  }

  /** Agreeing results always have plans, when the channels list their owners and hold the new agreements. */
  lemma PlansExist(kth: Derivation, p: InstallVirtualAppParams, i: EndpointInstall, m: IntermediaryInstall, r: EndpointInstall)
    requires InstalledAlike(i, m, r)
    requires OwnedBy(m.withInitiating, p.initiatorXpub, p.intermediaryXpub) && m.withInitiating.freeBalanceAppInstance.Some?
    requires OwnedBy(m.withResponding, p.responderXpub, p.intermediaryXpub) && m.withResponding.freeBalanceAppInstance.Some?
    requires OwnedBy(i.betweenUsers, p.initiatorXpub, p.responderXpub)
    requires Has(m.withInitiating.agreements, i.virtualApp.IdentityHash()) && Has(m.withResponding.agreements, i.virtualApp.IdentityHash())
    ensures InitiatorPlanOf(kth, p, i).Ok? && ResponderPlanOf(kth, p, r).Ok?
    ensures IntermediaryPlanOf(kth, p, m, i.virtualApp.IdentityHash()).Ok?
  {
    OwnersFound(kth, m.withInitiating, p.initiatorXpub, p.intermediaryXpub);
    OwnersFound(kth, m.withResponding, p.responderXpub, p.intermediaryXpub);
    OwnersFound(kth, i.betweenUsers, p.initiatorXpub, p.responderXpub);
  }

  function Exchanged(i: Xpub, m: Xpub, r: Xpub, planI: EndpointPlan, planR: EndpointPlan): Messages {
    Messages(
      [Some(Signature(i, 0, planI.agreement))],
      [Some(Signature(m, 0, planR.agreement))],
      [Some(Signature(r, 0, planR.agreement)), Some(Signature(r, 0, planR.activation))],
      [Some(Signature(m, 0, planI.agreement)), Some(Signature(m, 0, planI.activation))],
      [Some(Signature(i, 0, planI.activation)), Some(Signature(i, 0, planI.passThrough)), Some(Signature(i, 0, planI.virtualApp))],
      [Some(Signature(m, 0, planR.activation)), Some(Signature(m, 0, planI.passThrough)),
       Some(Signature(i, 0, planI.passThrough)), Some(Signature(i, 0, planI.virtualApp))],
      [Some(Signature(r, 0, planR.passThrough)), Some(Signature(r, 0, planR.virtualApp))],
      [Some(Signature(m, 0, planI.passThrough)), Some(Signature(r, 0, planR.passThrough)), Some(Signature(r, 0, planR.virtualApp))])
  }

  const WAITS: Waits := Waits(2, 11, 20, 4, 11, 19, 26, 6, 20)

  lemma InitiatorReady(m: Xpub, r: Xpub, plan: EndpointPlan, x: Messages)
    requires x.m4 == [Some(Signature(m, 0, plan.agreement)), Some(Signature(m, 0, plan.activation))]
    requires x.m8 == [Some(Signature(m, 0, plan.passThrough)), Some(Signature(r, 0, plan.passThrough)), Some(Signature(r, 0, plan.virtualApp))]
    ensures InitiatorFits(Initiating(m, r, plan), WAITS, x)
  {
    var script := Initiating(m, r, plan);
    InitiatorSignsFirst(m, r, plan);
    AllPass(script, 0, 2, []);
    AllPass(script, 3, 11, [x.m4]);
    AllPass(script, 12, 20, [x.m4, x.m8]);
  }

  lemma InitiatorSignsFirst(m: Xpub, r: Xpub, plan: EndpointPlan)
    ensures SignsFirst(Initiating(m, r, plan), 20)
  {
    var script := Initiating(m, r, plan);
    assert script[0].Sign? && script[6].Sign? && script[8].Sign? && script[9].Sign?;
    AllSignFirst(script, 20);
  }

  lemma ResponderReady(i: Xpub, m: Xpub, plan: EndpointPlan, x: Messages)
    requires x.m2 == [Some(Signature(m, 0, plan.agreement))]
    requires x.m6 == [Some(Signature(m, 0, plan.activation)), Some(Signature(m, 0, plan.passThrough)),
                      Some(Signature(i, 0, plan.passThrough)), Some(Signature(i, 0, plan.virtualApp))]
    ensures ResponderFits(Responding(i, m, plan), WAITS, x)
  {
    var script := Responding(i, m, plan);
    ResponderSignsFirst(i, m, plan);
    AllPass(script, 1, 6, [x.m2]);
    AllPass(script, 7, 20, [x.m2, x.m6]);
  }

  lemma ResponderSignsFirst(i: Xpub, m: Xpub, plan: EndpointPlan)
    ensures SignsFirst(Responding(i, m, plan), 20)
  {
    var script := Responding(i, m, plan);
    assert script[2].Sign? && script[4].Sign? && script[12].Sign? && script[13].Sign?;
    AllSignFirst(script, 20);
  }

  lemma IntermediaryReady(i: Xpub, r: Xpub, plan: IntermediaryPlan, x: Messages)
    requires x.m1 == [Some(Signature(i, 0, plan.agreementI))]
    requires x.m3 == [Some(Signature(r, 0, plan.agreementR)), Some(Signature(r, 0, plan.activationR))]
    requires |x.m5| == 3 && x.m5[0] == Some(Signature(i, 0, plan.activationI)) && x.m5[1] == Some(Signature(i, 0, plan.passThrough))
    requires |x.m7| == 2 && x.m7[0] == Some(Signature(r, 0, plan.passThrough))
    ensures IntermediaryFits(Intermediating(i, r, plan), WAITS, x)
  {
    IntermediarySignsFirst(i, r, plan);
    IntermediaryPasses(i, r, plan, x);
  }

  lemma IntermediarySignsFirst(i: Xpub, r: Xpub, plan: IntermediaryPlan)
    ensures SignsFirst(Intermediating(i, r, plan), 26)
  {
    var script := Intermediating(i, r, plan);
    assert script[2].Sign? && script[7].Sign? && script[8].Sign? && script[15].Sign? && script[17].Sign?;
    AllSignFirst(script, 26);
  }

  lemma IntermediaryPasses(i: Xpub, r: Xpub, plan: IntermediaryPlan, x: Messages)
    requires x.m1 == [Some(Signature(i, 0, plan.agreementI))]
    requires x.m3 == [Some(Signature(r, 0, plan.agreementR)), Some(Signature(r, 0, plan.activationR))]
    requires |x.m5| == 3 && x.m5[0] == Some(Signature(i, 0, plan.activationI)) && x.m5[1] == Some(Signature(i, 0, plan.passThrough))
    requires |x.m7| == 2 && x.m7[0] == Some(Signature(r, 0, plan.passThrough))
    ensures var script := Intermediating(i, r, plan);
            && Passable(script, 1, 4, [x.m1]) && Passable(script, 5, 11, [x.m1, x.m3])
            && Passable(script, 12, 19, [x.m1, x.m3, x.m5]) && Passable(script, 20, 26, [x.m1, x.m3, x.m5, x.m7])
  {
    var script := Intermediating(i, r, plan);
    AllPass(script, 1, 4, [x.m1]);
    AllPass(script, 5, 11, [x.m1, x.m3]);
    AllPass(script, 12, 19, [x.m1, x.m3, x.m5]);
    AllPass(script, 20, 26, [x.m1, x.m3, x.m5, x.m7]);
  }

  lemma InitiatorSent(i: Xpub, m: Xpub, r: Xpub, plan: EndpointPlan)
    ensures var script := Initiating(m, r, plan);
            && Signature(i, 0, plan.agreement) in SentBy(i, script, 2)
            && forall c :: c in {plan.activation, plan.passThrough, plan.virtualApp} ==> Signature(i, 0, c) in SentBy(i, script, 11)
  {
    var script := Initiating(m, r, plan);
    SentOnce(i, script, 2, 1, Mine(0, plan.agreement));
    SentOnce(i, script, 11, 10, Mine(0, plan.activation));
    SentOnce(i, script, 11, 10, Mine(0, plan.passThrough));
    SentOnce(i, script, 11, 10, Mine(0, plan.virtualApp));
  }

  lemma ResponderSent(i: Xpub, m: Xpub, r: Xpub, plan: EndpointPlan)
    ensures var script := Responding(i, m, plan);
            && (forall c :: c in {plan.agreement, plan.activation} ==> Signature(r, 0, c) in SentBy(r, script, 6))
            && (forall c :: c in {plan.passThrough, plan.virtualApp} ==> Signature(r, 0, c) in SentBy(r, script, 20))
  {
    var script := Responding(i, m, plan);
    SentOnce(r, script, 6, 5, Mine(0, plan.agreement));
    SentOnce(r, script, 6, 5, Mine(0, plan.activation));
    SentOnce(r, script, 20, 16, Mine(0, plan.passThrough));
    SentOnce(r, script, 20, 16, Mine(0, plan.virtualApp));
  }

  lemma IntermediarySent(i: Xpub, m: Xpub, r: Xpub, plan: IntermediaryPlan)
    ensures var script := Intermediating(i, r, plan);
            && Signature(m, 0, plan.agreementR) in SentBy(m, script, 4)
            && (forall c :: c in {plan.agreementI, plan.activationI} ==> Signature(m, 0, c) in SentBy(m, script, 11))
            && (forall c :: c in {plan.activationR, plan.passThrough} ==> Signature(m, 0, c) in SentBy(m, script, 19))
            && Signature(m, 0, plan.passThrough) in SentBy(m, script, 26)
  {
    var script := Intermediating(i, r, plan);
    SentOnce(m, script, 4, 3, Mine(0, plan.agreementR));
    SentOnce(m, script, 11, 10, Mine(0, plan.agreementI));
    SentOnce(m, script, 11, 10, Mine(0, plan.activationI));
    SentOnce(m, script, 19, 18, Mine(0, plan.activationR));
    SentOnce(m, script, 19, 18, Mine(0, plan.passThrough));
    SentByGrows(m, script, 19, 26);
  }

  /** Every message holds what its sender has signed itself, or received in the message before. */
  lemma MessagesWithin(i: Xpub, m: Xpub, r: Xpub, planI: EndpointPlan, planR: EndpointPlan, x: Messages,
                       byI: (set<Signature>, set<Signature>), byM: (set<Signature>, set<Signature>, set<Signature>, set<Signature>),
                       byR: (set<Signature>, set<Signature>))
    requires x == Exchanged(i, m, r, planI, planR) && planI.passThrough == planR.passThrough
    requires Signature(i, 0, planI.agreement) in byI.0
    requires forall c :: c in {planI.activation, planI.passThrough, planI.virtualApp} ==> Signature(i, 0, c) in byI.1
    requires Signature(m, 0, planR.agreement) in byM.0
    requires forall c :: c in {planI.agreement, planI.activation} ==> Signature(m, 0, c) in byM.1
    requires forall c :: c in {planR.activation, planI.passThrough} ==> Signature(m, 0, c) in byM.2
    requires Signature(m, 0, planI.passThrough) in byM.3
    requires forall c :: c in {planR.agreement, planR.activation} ==> Signature(r, 0, c) in byR.0
    requires forall c :: c in {planR.passThrough, planR.virtualApp} ==> Signature(r, 0, c) in byR.1
    ensures Within(x.m1, byI.0) && Within(x.m2, byI.0 + byM.0) && Within(x.m3, byR.0) && Within(x.m4, byR.0 + byM.1)
    ensures Within(x.m5, byI.1) && Within(x.m6, byI.1 + byM.2) && Within(x.m7, byR.1) && Within(x.m8, byR.1 + byM.3)
  {
  }

  lemma AllSentHere(i: Xpub, m: Xpub, r: Xpub, planI: EndpointPlan, planM: IntermediaryPlan, planR: EndpointPlan, x: Messages)
    requires Matching(planI, planM, planR) && x == Exchanged(i, m, r, planI, planR)
    ensures MessagesSent(i, m, r, Initiating(m, r, planI), Intermediating(i, r, planM), Responding(i, m, planR), WAITS, x)
  {
    InitiatorSent(i, m, r, planI);
    IntermediarySent(i, m, r, planM);
    ResponderSent(i, m, r, planR);
    var si, sm, sr := Initiating(m, r, planI), Intermediating(i, r, planM), Responding(i, m, planR);
    MessagesWithin(i, m, r, planI, planR, x, (SentBy(i, si, 2), SentBy(i, si, 11)),
                   (SentBy(m, sm, 4), SentBy(m, sm, 11), SentBy(m, sm, 19), SentBy(m, sm, 26)), (SentBy(r, sr, 6), SentBy(r, sr, 20)));
  }

  // ---- The run ----

  /** Three parties that take the roles, before anything is signed. */
  lemma Parties(keys: Keys, i: Xpub, m: Xpub, r: Xpub, planI: EndpointPlan, channelsI: Channels,
                planM: IntermediaryPlan, channelsM: Channels, planR: EndpointPlan, channelsR: Channels) returns (sys: System)
    requires i != m && i != r && m != r
    ensures sys.keys == keys && sys.known == {} && sys.parties.Keys == {i, m, r}
    ensures Initiates(sys, i, m, r, planI, channelsI)
    ensures Intermediates(sys, i, m, r, planM, channelsM)
    ensures Responds(sys, i, m, r, planR, channelsR)
  {
    sys := System(keys, map[i := Party(Initiating(m, r, planI), channelsI),
                            m := Party(Intermediating(i, r, planM), channelsM),
                            r := Party(Responding(i, m, planR), channelsR)], {});
  }

  predicate AllTake(sys: System, i: Xpub, m: Xpub, r: Xpub, planI: EndpointPlan, channelsI: Channels,
                    planM: IntermediaryPlan, channelsM: Channels, planR: EndpointPlan, channelsR: Channels)
  {
    && i != m && i != r && m != r && sys.parties.Keys == {i, m, r}
    && Initiates(sys, i, m, r, planI, channelsI)
    && Intermediates(sys, i, m, r, planM, channelsM)
    && Responds(sys, i, m, r, planR, channelsR)
    && Matching(planI, planM, planR)
  }

  lemma AllReady(sys: System, i: Xpub, m: Xpub, r: Xpub, planI: EndpointPlan, channelsI: Channels,
                 planM: IntermediaryPlan, channelsM: Channels, planR: EndpointPlan, channelsR: Channels, x: Messages)
    requires AllTake(sys, i, m, r, planI, channelsI, planM, channelsM, planR, channelsR) && x == Exchanged(i, m, r, planI, planR)
    ensures Ready(sys, i, m, r, WAITS, x)
  {
    InitiatorReady(m, r, planI, x);
    IntermediaryReady(i, r, planM, x);
    ResponderReady(i, m, planR, x);
    AllSentHere(i, m, r, planI, planM, planR, x);
  }

  /** A run in which all three parties, whose plans fit together, get to the end, every check passing, and have
      saved their three channels. */
  lemma Completes(sys: System, i: Xpub, m: Xpub, r: Xpub, planI: EndpointPlan, channelsI: Channels,
                  planM: IntermediaryPlan, channelsM: Channels, planR: EndpointPlan, channelsR: Channels) returns (events: seq<Event>)
    requires AllTake(sys, i, m, r, planI, channelsI, planM, channelsM, planR, channelsR)
    ensures !NodeOf(sys, events, i).halted && !NodeOf(sys, events, m).halted && !NodeOf(sys, events, r).halted
    ensures NodeOf(sys, events, i).pc == 20 && NodeOf(sys, events, m).pc == 26 && NodeOf(sys, events, r).pc == 20
    ensures NodeOf(sys, events, i).store == SaveAll(channelsI, planI.withIntermediary, planI.betweenUsers, planI.threeParty)
    ensures NodeOf(sys, events, m).store == SaveAll(channelsM, planM.threeParty, planM.withResponding, planM.withInitiating)
    ensures NodeOf(sys, events, r).store == SaveAll(channelsR, planR.withIntermediary, planR.threeParty, planR.betweenUsers)
  {
    AllReady(sys, i, m, r, planI, channelsI, planM, channelsM, planR, channelsR, Exchanged(i, m, r, planI, planR));
    events := AllComplete(sys, i, m, r, WAITS, Exchanged(i, m, r, planI, planR));
    InitiatorSaves(sys, events, i, m, r, planI, channelsI);
    IntermediarySaves(sys, events, i, m, r, planM, channelsM);
    ResponderSaves(sys, events, i, m, r, planR, channelsR);
  }
}
