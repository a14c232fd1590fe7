/** The protocol of three roles and eight messages that uninstalls a virtual app (engine/uninstall-virtual-app.ts). */
module UninstallVirtualProtocol {
  import opened AppInstances
  import opened Commitments
  import opened Dictionaries
  import opened Engine
  import opened HonestRuns
  import opened FreeBalances
  import opened Outcomes
  import opened Primitives
  import opened Results
  import opened StateChannels
  import opened StoredCommitments
  import opened ThreePartyExchange
  import opened VirtualAgreement
  import opened VirtualApps
  import opened VirtualChanges
  import opened VirtualConservation
  import opened VirtualLifecycle

  datatype EndpointPlan = EndpointPlan(
    withIntermediary: StateChannel,
    threeParty: StateChannel,
    betweenUsers: StateChannel,
    passThroughId: Hash,
    freeBalanceId: Hash,
    passThrough: Commitment,
    deactivation: Commitment)

  datatype IntermediaryPlan = IntermediaryPlan(
    withInitiating: StateChannel,
    threeParty: StateChannel,
    withResponding: StateChannel,
    passThroughId: Hash,
    freeBalanceIdI: Hash,
    freeBalanceIdR: Hash,
    passThrough: Commitment,
    deactivationI: Commitment,
    deactivationR: Commitment)

  /** The commitment on the switched pass-through app: its number stands where a version number belongs. */
  function FinalCommitment(app: AppInstance): Commitment {
    SetStateCommitment(app.IdentityHash(), app.latestState, app.appSeqNo, app.defaultTimeout)
  }

  function EndpointPlanOf(e: EndpointUninstall): Result<EndpointPlan> {
    if e.withIntermediary.freeBalanceAppInstance.None? then Err(NoFreeBalance) else
    Ok(EndpointPlan(e.withIntermediary, e.threeParty, e.betweenUsers, e.passThrough.IdentityHash(),
                    e.withIntermediary.freeBalanceAppInstance.value.IdentityHash(),
                    FinalCommitment(e.passThrough), FreeBalanceCommitment(e.withIntermediary)))
  }

  function IntermediaryPlanOf(e: IntermediaryUninstall): Result<IntermediaryPlan> {
    if e.withInitiating.freeBalanceAppInstance.None? || e.withResponding.freeBalanceAppInstance.None? then Err(NoFreeBalance) else
    Ok(IntermediaryPlan(e.withInitiating, e.threeParty, e.withResponding, e.passThrough.IdentityHash(),
                        e.withInitiating.freeBalanceAppInstance.value.IdentityHash(),
                        e.withResponding.freeBalanceAppInstance.value.IdentityHash(),
                        FinalCommitment(e.passThrough), FreeBalanceCommitment(e.withInitiating), FreeBalanceCommitment(e.withResponding)))
  }

  // ---- What is signed ----

  /** What the roles sign last on a pass-through app: a state that pays the given outcome. */
  function FinalState(passThrough: AppInstance, target: Hash, outcome: Outcome): Commitment {
    SetStateCommitment(passThrough.IdentityHash(), PassThroughState(target, 0, outcome), passThrough.appSeqNo, passThrough.defaultTimeout)
  }

  /** Each role's plan, from whatever store it is made, has the role sign the outcome asked for. */
  lemma EndpointSignsOutcome(kth: Derivation, channels: Channels, p: UninstallVirtualAppParams, pair: seq<Xpub>, e: EndpointUninstall)
    requires FinalisesFrom(kth, channels, p, pair, e.passThrough) && EndpointPlanOf(e).Ok?
    ensures var (plan, target) := (EndpointPlanOf(e).value, e.passThrough.latestState.targetAppIdentityHash);
            plan.passThroughId == e.passThrough.IdentityHash() && plan.passThrough == FinalState(e.passThrough, target, p.targetOutcome)
  {
  }

  lemma IntermediarySignsOutcome(kth: Derivation, channels: Channels, p: UninstallVirtualAppParams, pair: seq<Xpub>, m: IntermediaryUninstall)
    requires FinalisesFrom(kth, channels, p, pair, m.passThrough) && IntermediaryPlanOf(m).Ok?
    ensures var (plan, target) := (IntermediaryPlanOf(m).value, m.passThrough.latestState.targetAppIdentityHash);
            plan.passThroughId == m.passThrough.IdentityHash() && plan.passThrough == FinalState(m.passThrough, target, p.targetOutcome)
  {
  }

  // ---- The scripts ----

  function Initiating(m: Xpub, r: Xpub, plan: EndpointPlan): Script {
    [ Sign(0, plan.passThrough),
      Send(m, [Mine(0, plan.passThrough)], 1),                                              // message 1
      Receive,                                                                              // message 4
      Verify(r, 0, plan.passThrough, 0, 0),
      Verify(m, 0, plan.passThrough, 0, 1),
      SetCommitment(ForUpdate(plan.passThroughId), plan.passThrough, [Mine(0, plan.passThrough), Received(0, 1), Received(0, 0)]),
      Sign(0, plan.deactivation),
      Send(m, [Mine(0, plan.deactivation)]),                                                // message 5
      Receive,                                                                              // message 8
      Verify(m, 0, plan.deactivation, 1, 0),
      SetCommitment(ForUpdate(plan.freeBalanceId), plan.deactivation, [Mine(0, plan.deactivation), Received(1, 0)]),
      Save(plan.withIntermediary),
      Save(plan.threeParty),
      Save(plan.betweenUsers) ]
  }

  function Intermediating(i: Xpub, r: Xpub, plan: IntermediaryPlan): Script {
    [ Receive,                                                                              // message 1
      Verify(i, 0, plan.passThrough, 0, 0),
      Sign(0, plan.passThrough),
      Send(r, [Received(0, 0), Mine(0, plan.passThrough)], 2),                              // message 2
      Receive,                                                                              // message 3
      Verify(r, 0, plan.passThrough, 1, 0),
      SetCommitment(ForUpdate(plan.passThroughId), plan.passThrough, [Received(0, 0), Mine(0, plan.passThrough), Received(1, 0)]),
      Send(i, [Received(1, 0), Mine(0, plan.passThrough)]),                                 // message 4
      Receive,                                                                              // message 5
      Verify(i, 0, plan.deactivationI, 2, 0),
      Sign(0, plan.deactivationI),
      SetCommitment(ForUpdate(plan.freeBalanceIdI), plan.deactivationI, [Received(2, 0), Mine(0, plan.deactivationI)]),
      Sign(0, plan.deactivationR),
      Send(r, [Mine(0, plan.deactivationR)]),                                               // message 6
      Receive,                                                                              // message 7
      Verify(r, 0, plan.deactivationR, 3, 0),
      SetCommitment(ForUpdate(plan.freeBalanceIdR), plan.deactivationR, [Received(3, 0), Mine(0, plan.deactivationR)]),
      Save(plan.withInitiating),
      Save(plan.threeParty),
      Save(plan.withResponding),
      Send(i, [Mine(0, plan.deactivationI)]) ]                                              // message 8
  }

  function Responding(i: Xpub, m: Xpub, plan: EndpointPlan): Script {
    [ Receive,                                                                              // message 2
      Verify(i, 0, plan.passThrough, 0, 0),
      Verify(m, 0, plan.passThrough, 0, 1),
      Sign(0, plan.passThrough),
      SetCommitment(ForUpdate(plan.passThroughId), plan.passThrough, [Mine(0, plan.passThrough), Received(0, 0), Received(0, 1)]),
      Send(m, [Mine(0, plan.passThrough)]),                                                 // message 3
      Receive,                                                                              // message 6
      Verify(m, 0, plan.deactivation, 1, 0),
      Sign(0, plan.deactivation),
      SetCommitment(ForUpdate(plan.freeBalanceId), plan.deactivation, [Received(1, 0), Mine(0, plan.deactivation)]),
      Save(plan.withIntermediary),
      Save(plan.threeParty),
      Save(plan.betweenUsers),
      Send(m, [Mine(0, plan.deactivation)]) ]                                               // message 7
  }

  // ---- Honest parties ----

  predicate Initiates(sys: System, i: Xpub, m: Xpub, r: Xpub, plan: EndpointPlan, channels: Channels) {
    i in sys.parties && sys.parties[i] == Party(Initiating(m, r, plan), channels)
  }

  predicate Intermediates(sys: System, i: Xpub, m: Xpub, r: Xpub, plan: IntermediaryPlan, channels: Channels) {
    m in sys.parties && sys.parties[m] == Party(Intermediating(i, r, plan), channels)
  }

  predicate Responds(sys: System, i: Xpub, m: Xpub, r: Xpub, plan: EndpointPlan, channels: Channels) {
    r in sys.parties && sys.parties[r] == Party(Responding(i, m, plan), channels)
  }

  // ---- In which order each role signs ----

  lemma InitiatorOrder(i: Xpub, m: Xpub, r: Xpub, plan: EndpointPlan, n: nat)
    requires plan.deactivation != plan.passThrough && n <= |Initiating(m, r, plan)|
    requires Signature(i, 0, plan.deactivation) in SignedBy(i, Initiating(m, r, plan), n)
    ensures forall x :: x in {m, r} ==> Signature(x, 0, plan.passThrough) in VerifiedBy(Initiating(m, r, plan), n)
  {
    var script := Initiating(m, r, plan);
    var k := SignedAt(i, script, n, Signature(i, 0, plan.deactivation));
    VerifiedOnce(script, n, 3);
    VerifiedOnce(script, n, 4);
  }

  lemma IntermediarySigns(i: Xpub, r: Xpub, plan: IntermediaryPlan, k: nat, c: Commitment)
    requires c in {plan.deactivationI, plan.deactivationR} && c != plan.passThrough
    requires k < |Intermediating(i, r, plan)| && Intermediating(i, r, plan)[k] == Sign(0, c)
    ensures k == 10 || k == 12
  {
  }

  lemma IntermediaryOrder(i: Xpub, m: Xpub, r: Xpub, plan: IntermediaryPlan, n: nat, c: Commitment)
    requires n <= |Intermediating(i, r, plan)| && c in {plan.deactivationI, plan.deactivationR} && c != plan.passThrough
    requires Signature(m, 0, c) in SignedBy(m, Intermediating(i, r, plan), n)
    ensures var verified := VerifiedBy(Intermediating(i, r, plan), n);
            && (forall x :: x in {i, r} ==> Signature(x, 0, plan.passThrough) in verified)
            && Signature(i, 0, plan.deactivationI) in verified
  {
    var script := Intermediating(i, r, plan);
    var k := SignedAt(m, script, n, Signature(m, 0, c));
    IntermediarySigns(i, r, plan, k, c);
    VerifiedOnce(script, n, 1);
    VerifiedOnce(script, n, 5);
    VerifiedOnce(script, n, 9);
  }

  lemma ResponderOrder(i: Xpub, m: Xpub, r: Xpub, plan: EndpointPlan, n: nat)
    requires plan.deactivation != plan.passThrough && n <= |Responding(i, m, plan)|
    requires Signature(r, 0, plan.deactivation) in SignedBy(r, Responding(i, m, plan), n)
    ensures var verified := VerifiedBy(Responding(i, m, plan), n);
            && (forall x :: x in {i, m} ==> Signature(x, 0, plan.passThrough) in verified)
            && Signature(m, 0, plan.deactivation) in verified
  {
    var script := Responding(i, m, plan);
    var k := SignedAt(r, script, n, Signature(r, 0, plan.deactivation));
    VerifiedOnce(script, n, 1);
    VerifiedOnce(script, n, 2);
    VerifiedOnce(script, n, 7);
  }

  /** In every run, wherever parties stop: nobody signs away an agreement before both others have signed the final
      state of the pass-through app; the intermediary signs either update only after the initiator signed
      its own, and the responder only after the intermediary did. */
  lemma NoDeactivationBeforePassThrough(sys: System, events: seq<Event>, i: Xpub, m: Xpub, r: Xpub,
                                        planI: EndpointPlan, channelsI: Channels, planM: IntermediaryPlan, channelsM: Channels,
                                        planR: EndpointPlan, channelsR: Channels)
    requires planI.deactivation != planI.passThrough && planR.deactivation != planR.passThrough
    requires planM.passThrough !in {planM.deactivationI, planM.deactivationR}
    ensures Initiates(sys, i, m, r, planI, channelsI) && Signature(i, 0, planI.deactivation) in NodeOf(sys, events, i).signed ==>
              forall x :: x in {m, r} ==> Signature(x, 0, planI.passThrough) in NodeOf(sys, events, i).verified
    ensures Responds(sys, i, m, r, planR, channelsR) && Signature(r, 0, planR.deactivation) in NodeOf(sys, events, r).signed ==>
              && (forall x :: x in {i, m} ==> Signature(x, 0, planR.passThrough) in NodeOf(sys, events, r).verified)
              && Signature(m, 0, planR.deactivation) in NodeOf(sys, events, r).verified
    ensures Intermediates(sys, i, m, r, planM, channelsM) ==>
              forall c :: c in {planM.deactivationI, planM.deactivationR} && Signature(m, 0, c) in NodeOf(sys, events, m).signed ==>
                && (forall x :: x in {i, r} ==> Signature(x, 0, planM.passThrough) in NodeOf(sys, events, m).verified)
                && Signature(i, 0, planM.deactivationI) in NodeOf(sys, events, m).verified
  {
    RunOk(sys, events);
    if Initiates(sys, i, m, r, planI, channelsI) && Signature(i, 0, planI.deactivation) in NodeOf(sys, events, i).signed {
      assert NodeOk(i, sys.parties[i], NodeOf(sys, events, i));
      InitiatorOrder(i, m, r, planI, NodeOf(sys, events, i).pc);
    }
    if Responds(sys, i, m, r, planR, channelsR) && Signature(r, 0, planR.deactivation) in NodeOf(sys, events, r).signed {
      assert NodeOk(r, sys.parties[r], NodeOf(sys, events, r));
      ResponderOrder(i, m, r, planR, NodeOf(sys, events, r).pc);
    }
    if Intermediates(sys, i, m, r, planM, channelsM) {
      assert NodeOk(m, sys.parties[m], NodeOf(sys, events, m));
      forall c | c in {planM.deactivationI, planM.deactivationR} && Signature(m, 0, c) in NodeOf(sys, events, m).signed
        ensures forall x :: x in {i, r} ==> Signature(x, 0, planM.passThrough) in NodeOf(sys, events, m).verified
        ensures Signature(i, 0, planM.deactivationI) in NodeOf(sys, events, m).verified
      {
        IntermediaryOrder(i, m, r, planM, NodeOf(sys, events, m).pc, c);
      }
    }
  }

  // ---- What each role has verified when it saves ----

  /** In every run, an initiator that has saved anything has verified the intermediary's signature on exactly the
      free balance it saved for the channel between them. */
  lemma InitiatorSaves(sys: System, events: seq<Event>, i: Xpub, m: Xpub, r: Xpub, plan: EndpointPlan, channels: Channels)
    requires Initiates(sys, i, m, r, plan, channels)
    ensures var node := NodeOf(sys, events, i);
            && node.pc <= 14
            && (node.pc <= 11 ==> node.store == channels)
            && (node.pc == 14 ==> node.store == SaveAll(channels, plan.withIntermediary, plan.threeParty, plan.betweenUsers))
            && (node.pc > 11 ==>
                  Signature(m, 0, plan.deactivation) in node.verified && Signature(m, 0, plan.passThrough) in node.verified
                  && Signature(r, 0, plan.passThrough) in node.verified)
  {
    var script := sys.parties[i].script;
    SavesThrice(sys, events, i, 11);
    assert script[3].Verify? && script[4].Verify? && script[9].Verify?;
  }

  lemma IntermediarySaveSteps(i: Xpub, r: Xpub, plan: IntermediaryPlan)
    ensures forall j :: 0 <= j < 21 ==> (Intermediating(i, r, plan)[j].Save? <==> 17 <= j < 20)
  {
  }

  lemma IntermediaryChecked(i: Xpub, r: Xpub, plan: IntermediaryPlan, n: nat)
    requires n <= |Intermediating(i, r, plan)|
    ensures var verified := VerifiedBy(Intermediating(i, r, plan), n);
            n > 17 ==> Signature(i, 0, plan.deactivationI) in verified && Signature(r, 0, plan.deactivationR) in verified
  {
    if n > 17 {
      VerifiedOnce(Intermediating(i, r, plan), n, 9);
      VerifiedOnce(Intermediating(i, r, plan), n, 15);
    }
  }

  /** An intermediary that has saved anything has verified the owners' signatures on exactly both free balances. */
  lemma IntermediarySaves(sys: System, events: seq<Event>, i: Xpub, m: Xpub, r: Xpub, plan: IntermediaryPlan, channels: Channels)
    requires Intermediates(sys, i, m, r, plan, channels)
    ensures var node := NodeOf(sys, events, m);
            && node.pc <= 21
            && (node.pc <= 17 ==> node.store == channels)
            && (node.pc >= 20 ==> node.store == SaveAll(channels, plan.withInitiating, plan.threeParty, plan.withResponding))
            && (node.pc > 17 ==> Signature(i, 0, plan.deactivationI) in node.verified && Signature(r, 0, plan.deactivationR) in node.verified)
  {
    IntermediarySaveSteps(i, r, plan);
    SavesThrice(sys, events, m, 17);
    RunOk(sys, events);
    assert NodeOk(m, sys.parties[m], NodeOf(sys, events, m));
    IntermediaryChecked(i, r, plan, NodeOf(sys, events, m).pc);
  }

  /** And a responder the intermediary's. */
  lemma ResponderSaves(sys: System, events: seq<Event>, i: Xpub, m: Xpub, r: Xpub, plan: EndpointPlan, channels: Channels)
    requires Responds(sys, i, m, r, plan, channels)
    ensures var node := NodeOf(sys, events, r);
            && node.pc <= 14
            && (node.pc <= 10 ==> node.store == channels)
            && (node.pc >= 13 ==> node.store == SaveAll(channels, plan.withIntermediary, plan.threeParty, plan.betweenUsers))
            && (node.pc > 10 ==>
                  Signature(m, 0, plan.deactivation) in node.verified && Signature(m, 0, plan.passThrough) in node.verified
                  && Signature(i, 0, plan.passThrough) in node.verified)
  {
    var script := sys.parties[r].script;
    SavesThrice(sys, events, r, 10);
    assert script[1].Verify? && script[2].Verify? && script[7].Verify?;
  }

  // ---- In which order the roles save ----

  /** The identities that tell the updates apart: the free balances of the two channels, and pass-through apps,
      which have three participants. */
  predicate Separate(planI: EndpointPlan, planM: IntermediaryPlan, planR: EndpointPlan, channelI: Hash, channelR: Hash) {
    && planI.deactivation.SetStateCommitment? && planR.deactivation.SetStateCommitment?
    && planM.deactivationI.SetStateCommitment? && planM.deactivationR.SetStateCommitment?
    && planI.passThrough.SetStateCommitment? && planM.passThrough.SetStateCommitment? && planR.passThrough.SetStateCommitment?
    && channelI != channelR && |channelI.participants| == 2 && |channelR.participants| == 2
    && planI.deactivation.identityHash == planM.deactivationI.identityHash == channelI
    && planR.deactivation.identityHash == planM.deactivationR.identityHash == channelR
    && |planI.passThrough.identityHash.participants| == 3 && |planM.passThrough.identityHash.participants| == 3
    && |planR.passThrough.identityHash.participants| == 3
  }

  /** Three honest parties, with whatever plans; the network may know any of their signatures from before, but for
      those on the very updates that take the agreements out. */
  predicate AllHonest(sys: System, i: Xpub, m: Xpub, r: Xpub, planI: EndpointPlan, channelsI: Channels,
                      planM: IntermediaryPlan, channelsM: Channels, planR: EndpointPlan, channelsR: Channels)
  {
    && i != m && i != r && m != r
    && Initiates(sys, i, m, r, planI, channelsI)
    && Intermediates(sys, i, m, r, planM, channelsM)
    && Responds(sys, i, m, r, planR, channelsR)
    && Signature(m, 0, planI.deactivation) !in sys.known && Signature(m, 0, planR.deactivation) !in sys.known
    && Signature(i, 0, planM.deactivationI) !in sys.known && Signature(r, 0, planM.deactivationR) !in sys.known
  }

  lemma IntermediarySends(i: Xpub, m: Xpub, r: Xpub, plan: IntermediaryPlan, n: nat, c: Commitment)
    requires n <= |Intermediating(i, r, plan)| && Signature(m, 0, c) in SentBy(m, Intermediating(i, r, plan), n)
    ensures c in {plan.passThrough, plan.deactivationI, plan.deactivationR}
    ensures c !in {plan.passThrough, plan.deactivationR} ==> n == 21
  {
    var k := SentAt(m, Intermediating(i, r, plan), n, Signature(m, 0, c));
  }

  lemma ResponderSends(i: Xpub, m: Xpub, r: Xpub, plan: EndpointPlan, n: nat, c: Commitment)
    requires n <= |Responding(i, m, plan)| && Signature(r, 0, c) in SentBy(r, Responding(i, m, plan), n)
    ensures c in {plan.passThrough, plan.deactivation}
    ensures c != plan.passThrough ==> n == 14
  {
    var k := SentAt(r, Responding(i, m, plan), n, Signature(r, 0, c));
  }

  lemma InitiatorSends(i: Xpub, m: Xpub, r: Xpub, plan: EndpointPlan, n: nat, c: Commitment)
    requires n <= |Initiating(m, r, plan)| && Signature(i, 0, c) in SentBy(i, Initiating(m, r, plan), n)
    ensures c in {plan.passThrough, plan.deactivation}
  {
    var k := SentAt(i, Initiating(m, r, plan), n, Signature(i, 0, c));
  }

  /** Between three honest parties, whatever each of them had stored: in every run the initiator saves only when
      the intermediary has saved all its channels, and the intermediary only when the responder has. Who has
      saved has saved the same free balance as the other owner. */
  lemma SavesInOrder(sys: System, events: seq<Event>, i: Xpub, m: Xpub, r: Xpub, planI: EndpointPlan, channelsI: Channels,
                     planM: IntermediaryPlan, channelsM: Channels, planR: EndpointPlan, channelsR: Channels, channelI: Hash, channelR: Hash)
    requires AllHonest(sys, i, m, r, planI, channelsI, planM, channelsM, planR, channelsR)
    requires Separate(planI, planM, planR, channelI, channelR)
    ensures NodeOf(sys, events, i).store != channelsI ==>
              && NodeOf(sys, events, m).store == SaveAll(channelsM, planM.withInitiating, planM.threeParty, planM.withResponding)
              && NodeOf(sys, events, r).store == SaveAll(channelsR, planR.withIntermediary, planR.threeParty, planR.betweenUsers)
              && planI.deactivation == planM.deactivationI && planM.deactivationR == planR.deactivation
    ensures NodeOf(sys, events, m).store != channelsM ==>
              && NodeOf(sys, events, r).store == SaveAll(channelsR, planR.withIntermediary, planR.threeParty, planR.betweenUsers)
              && planI.deactivation == planM.deactivationI && planM.deactivationR == planR.deactivation
    ensures NodeOf(sys, events, r).store != channelsR ==> planM.deactivationR == planR.deactivation
  {
    InitiatorSaves(sys, events, i, m, r, planI, channelsI);
    IntermediarySaves(sys, events, i, m, r, planM, channelsM);
    ResponderSaves(sys, events, i, m, r, planR, channelsR);
    RunOk(sys, events);
    if NodeOf(sys, events, i).pc > 11 {
      var k := VerifiedWasSent(sys, events, i, Signature(m, 0, planI.deactivation));
      IntermediarySends(i, m, r, planM, NodeOf(sys, events, m).pc, planI.deactivation);
    }
    if NodeOf(sys, events, m).pc > 17 {
      var k := VerifiedWasSent(sys, events, m, Signature(r, 0, planM.deactivationR));
      ResponderSends(i, m, r, planR, NodeOf(sys, events, r).pc, planM.deactivationR);
      k := VerifiedWasSent(sys, events, m, Signature(i, 0, planM.deactivationI));
      InitiatorSends(i, m, r, planI, NodeOf(sys, events, i).pc, planM.deactivationI);
    }
    if NodeOf(sys, events, r).pc > 10 {
      var k := VerifiedWasSent(sys, events, r, Signature(m, 0, planR.deactivation));
      IntermediarySends(i, m, r, planM, NodeOf(sys, events, m).pc, planR.deactivation);
    }
  }

  // ---- The computed plans are separate ----

  /** Pass-through apps, the only apps of a three-party channel, have three participants. */
  ghost predicate OfThree(threeParty: StateChannel) {
    forall h :: Has(threeParty.appInstances, h) ==> |Lookup(threeParty.appInstances, h).value.participants| == 3
  }

  lemma RemovalKeepsIdentity(kth: Derivation, channel: StateChannel, xpubs: seq<Xpub>, target: Hash, increments: CoinTransferMap, token: Token)
    requires OwnFreeBalance(kth, channel, xpubs) && RemoveAgreement(channel, target, increments, token).Ok?
    ensures OwnFreeBalance(kth, RemoveAgreement(channel, target, increments, token).value, xpubs)
  {
  }

  /** The identities a role computes with: the free balances of its channels, and a pass-through app of three. */
  predicate EndpointIdentified(kth: Derivation, e: EndpointUninstall, user: Xpub, intermediary: Xpub) {
    OwnFreeBalance(kth, e.withIntermediary, [user, intermediary]) && |e.passThrough.participants| == 3
  }

  predicate IntermediaryIdentified(kth: Derivation, m: IntermediaryUninstall, p: UninstallVirtualAppParams) {
    && OwnFreeBalance(kth, m.withInitiating, [p.initiatorXpub, p.intermediaryXpub])
    && OwnFreeBalance(kth, m.withResponding, [p.responderXpub, p.intermediaryXpub])
    && |m.passThrough.participants| == 3
  }

  /** What uninstalling computes keeps the identities apart, when the channels start with their own free balance apps. */
  lemma InitiatorIdentities(env: Environment, channels: Channels, p: UninstallVirtualAppParams)
    requires UninstallForInitiating(env, channels, p).Ok?
    requires OwnFreeBalance(env.kth, GetChannel(env.kth, channels, [p.initiatorXpub, p.intermediaryXpub]).value, [p.initiatorXpub, p.intermediaryXpub])
    requires OfThree(GetChannel(env.kth, channels, [p.initiatorXpub, p.responderXpub, p.intermediaryXpub]).value)
    ensures EndpointIdentified(env.kth, UninstallForInitiating(env, channels, p).value, p.initiatorXpub, p.intermediaryXpub)
  {
  }

  lemma ResponderIdentities(env: Environment, channels: Channels, p: UninstallVirtualAppParams)
    requires UninstallForResponding(env, channels, p).Ok?
    requires OwnFreeBalance(env.kth, GetChannel(env.kth, channels, [p.responderXpub, p.intermediaryXpub]).value, [p.responderXpub, p.intermediaryXpub])
    requires OfThree(GetChannel(env.kth, channels, [p.initiatorXpub, p.responderXpub, p.intermediaryXpub]).value)
    ensures EndpointIdentified(env.kth, UninstallForResponding(env, channels, p).value, p.responderXpub, p.intermediaryXpub)
  {
  }

  lemma IntermediaryKeepsFreeBalances(env: Environment, channels: Channels, p: UninstallVirtualAppParams)
    requires UninstallForIntermediary(env, channels, p).Ok?
    requires OwnFreeBalance(env.kth, GetChannel(env.kth, channels, [p.initiatorXpub, p.intermediaryXpub]).value, [p.initiatorXpub, p.intermediaryXpub])
    requires OwnFreeBalance(env.kth, GetChannel(env.kth, channels, [p.intermediaryXpub, p.responderXpub]).value, [p.responderXpub, p.intermediaryXpub])
    ensures var m := UninstallForIntermediary(env, channels, p).value;
            && OwnFreeBalance(env.kth, m.withInitiating, [p.initiatorXpub, p.intermediaryXpub])
            && OwnFreeBalance(env.kth, m.withResponding, [p.responderXpub, p.intermediaryXpub])
  {
    var (i, im, r) := (env.kth(p.initiatorXpub, 0), env.kth(p.intermediaryXpub, 0), env.kth(p.responderXpub, 0));
    var due, target, token := Due(env, channels, p), UninstallTarget(env, channels, p), TokenOf(env, channels, p);
    RemovalKeepsIdentity(env.kth, GetChannel(env.kth, channels, [p.initiatorXpub, p.intermediaryXpub]).value,
                         [p.initiatorXpub, p.intermediaryXpub], target, Pair(im, due.1, i, due.0), token);
    RemovalKeepsIdentity(env.kth, GetChannel(env.kth, channels, [p.intermediaryXpub, p.responderXpub]).value,
                         [p.responderXpub, p.intermediaryXpub], target, Pair(im, due.0, r, due.1), token);
  }

  lemma IntermediaryPassThrough(env: Environment, channels: Channels, p: UninstallVirtualAppParams)
    requires UninstallForIntermediary(env, channels, p).Ok?
    requires OfThree(GetChannel(env.kth, channels, [p.initiatorXpub, p.responderXpub, p.intermediaryXpub]).value)
    ensures |UninstallForIntermediary(env, channels, p).value.passThrough.participants| == 3
  {
  }

  lemma IntermediaryIdentities(env: Environment, channels: Channels, p: UninstallVirtualAppParams)
    requires UninstallForIntermediary(env, channels, p).Ok?
    requires OwnFreeBalance(env.kth, GetChannel(env.kth, channels, [p.initiatorXpub, p.intermediaryXpub]).value, [p.initiatorXpub, p.intermediaryXpub])
    requires OwnFreeBalance(env.kth, GetChannel(env.kth, channels, [p.intermediaryXpub, p.responderXpub]).value, [p.responderXpub, p.intermediaryXpub])
    requires OfThree(GetChannel(env.kth, channels, [p.initiatorXpub, p.responderXpub, p.intermediaryXpub]).value)
    ensures IntermediaryIdentified(env.kth, UninstallForIntermediary(env, channels, p).value, p)
  {
    IntermediaryKeepsFreeBalances(env, channels, p);
    IntermediaryPassThrough(env, channels, p);
  }

  /** Plans made from such results tell the kinds of updates apart. */
  lemma PlansSeparate(kth: Derivation, p: UninstallVirtualAppParams, i: EndpointUninstall, m: IntermediaryUninstall, r: EndpointUninstall)
    requires DistinctParties(kth, p.initiatorXpub, p.intermediaryXpub, p.responderXpub)
    requires EndpointIdentified(kth, i, p.initiatorXpub, p.intermediaryXpub)
    requires IntermediaryIdentified(kth, m, p)
    requires EndpointIdentified(kth, r, p.responderXpub, p.intermediaryXpub)
    ensures EndpointPlanOf(i).Ok? && IntermediaryPlanOf(m).Ok? && EndpointPlanOf(r).Ok?
    ensures Separate(EndpointPlanOf(i).value, IntermediaryPlanOf(m).value, EndpointPlanOf(r).value,
                     AppHash(0, SortedKthAddresses(kth, [p.initiatorXpub, p.intermediaryXpub], 0)),
                     AppHash(0, SortedKthAddresses(kth, [p.responderXpub, p.intermediaryXpub], 0)))
  {
    ChannelIdentities(kth, p.initiatorXpub, p.intermediaryXpub, p.responderXpub);
  }

  /** The three roles, each with its own store and environment. */
  datatype Roles = Roles(
    initiator: Channels, intermediary: Channels, responder: Channels,
    envI: Environment, envM: Environment, envR: Environment,
    params: UninstallVirtualAppParams)
  {
    function I(): Result<EndpointUninstall> { UninstallForInitiating(envI, initiator, params) }

    function M(): Result<IntermediaryUninstall> { UninstallForIntermediary(envM, intermediary, params) }

    function R(): Result<EndpointUninstall> { UninstallForResponding(envR, responder, params) }

    /** One key derivation; every channel with the free balance app that setup gave it, and pass-through apps of
        three. The copies need not agree. */
    ghost predicate Proper() {
      var (kth, i, m, r) := (envI.kth, params.initiatorXpub, params.intermediaryXpub, params.responderXpub);
      && envI.kth == envM.kth == envR.kth && DistinctParties(kth, i, m, r)
      && I().Ok? && M().Ok? && R().Ok?
      && GetChannel(kth, initiator, [i, m]).Ok? && OwnFreeBalance(kth, GetChannel(kth, initiator, [i, m]).value, [i, m])
      && GetChannel(kth, intermediary, [i, m]).Ok? && OwnFreeBalance(kth, GetChannel(kth, intermediary, [i, m]).value, [i, m])
      && GetChannel(kth, intermediary, [m, r]).Ok? && OwnFreeBalance(kth, GetChannel(kth, intermediary, [m, r]).value, [r, m])
      && GetChannel(kth, responder, [r, m]).Ok? && OwnFreeBalance(kth, GetChannel(kth, responder, [r, m]).value, [r, m])
      && GetChannel(kth, initiator, [i, r, m]).Ok? && OfThree(GetChannel(kth, initiator, [i, r, m]).value)
      && GetChannel(kth, intermediary, [i, r, m]).Ok? && OfThree(GetChannel(kth, intermediary, [i, r, m]).value)
      && GetChannel(kth, responder, [i, r, m]).Ok? && OfThree(GetChannel(kth, responder, [i, r, m]).value)
    }
  }

  lemma ComputedPlansSeparate(c: Roles)
    requires c.Proper()
    ensures EndpointPlanOf(c.I().value).Ok? && IntermediaryPlanOf(c.M().value).Ok? && EndpointPlanOf(c.R().value).Ok?
    ensures Separate(EndpointPlanOf(c.I().value).value, IntermediaryPlanOf(c.M().value).value, EndpointPlanOf(c.R().value).value,
                     AppHash(0, SortedKthAddresses(c.envI.kth, [c.params.initiatorXpub, c.params.intermediaryXpub], 0)),
                     AppHash(0, SortedKthAddresses(c.envI.kth, [c.params.responderXpub, c.params.intermediaryXpub], 0)))
  {
    InitiatorIdentities(c.envI, c.initiator, c.params);
    IntermediaryIdentities(c.envM, c.intermediary, c.params);
    ResponderIdentities(c.envR, c.responder, c.params);
    PlansSeparate(c.envI.kth, c.params, c.I().value, c.M().value, c.R().value);
  }

  /** The roles run the protocol with the plans for what they compute, each from its own store. */
  ghost predicate RunAsComputed(sys: System, c: Roles)
    requires c.I().Ok? && c.M().Ok? && c.R().Ok?
  {
    && EndpointPlanOf(c.I().value).Ok? && IntermediaryPlanOf(c.M().value).Ok? && EndpointPlanOf(c.R().value).Ok?
    && AllHonest(sys, c.params.initiatorXpub, c.params.intermediaryXpub, c.params.responderXpub,
                 EndpointPlanOf(c.I().value).value, c.initiator, IntermediaryPlanOf(c.M().value).value, c.intermediary,
                 EndpointPlanOf(c.R().value).value, c.responder)
  }

  /** For these plans: in every run the initiator saves only when the intermediary has saved all that it computed, and
      the intermediary only when the responder has; and who has saved has saved the same free balance as the
      other owner. */
  lemma SavesInOrderAsComputed(sys: System, events: seq<Event>, c: Roles)
    requires c.Proper() && RunAsComputed(sys, c)
    ensures var (storeI, storeM, storeR) := (NodeOf(sys, events, c.params.initiatorXpub).store, NodeOf(sys, events, c.params.intermediaryXpub).store,
                                             NodeOf(sys, events, c.params.responderXpub).store);
            var (i, m, r) := (c.I().value, c.M().value, c.R().value);
            && (storeI != c.initiator ==> storeM == SaveAll(c.intermediary, m.withInitiating, m.threeParty, m.withResponding))
            && (storeI != c.initiator || storeM != c.intermediary ==>
                  && storeR == SaveAll(c.responder, r.withIntermediary, r.threeParty, r.betweenUsers)
                  && FreeBalanceCommitment(i.withIntermediary) == FreeBalanceCommitment(m.withInitiating))
            && (storeI != c.initiator || storeM != c.intermediary || storeR != c.responder ==>
                  FreeBalanceCommitment(m.withResponding) == FreeBalanceCommitment(r.withIntermediary))
  {
    ComputedPlansSeparate(c);
    SavesInOrder(sys, events, c.params.initiatorXpub, c.params.intermediaryXpub, c.params.responderXpub,
                 EndpointPlanOf(c.I().value).value, c.initiator, IntermediaryPlanOf(c.M().value).value, c.intermediary,
                 EndpointPlanOf(c.R().value).value, c.responder,
                 AppHash(0, SortedKthAddresses(c.envI.kth, [c.params.initiatorXpub, c.params.intermediaryXpub], 0)),
                 AppHash(0, SortedKthAddresses(c.envI.kth, [c.params.responderXpub, c.params.intermediaryXpub], 0)));
  }

  // ---- The signed commitments ----

  lemma InitiatorChecks(m: Xpub, r: Xpub, plan: EndpointPlan)
    ensures var script := Initiating(m, r, plan);
            ChecksFor(script, 4, 5, Received(0, 1)) && ChecksFor(script, 3, 5, Received(0, 0)) && ChecksFor(script, 9, 10, Received(1, 0))
  {
  }

  lemma InitiatorStores(m: Xpub, r: Xpub, plan: EndpointPlan)
    ensures StoresChecked(Initiating(m, r, plan))
  {
    InitiatorChecks(m, r, plan);
  }

  lemma ResponderChecks(i: Xpub, m: Xpub, plan: EndpointPlan)
    ensures var script := Responding(i, m, plan);
            ChecksFor(script, 1, 4, Received(0, 0)) && ChecksFor(script, 2, 4, Received(0, 1)) && ChecksFor(script, 7, 9, Received(1, 0))
  {
  }

  lemma ResponderStores(i: Xpub, m: Xpub, plan: EndpointPlan)
    ensures StoresChecked(Responding(i, m, plan))
  {
    ResponderChecks(i, m, plan);
  }

  lemma IntermediaryChecks(i: Xpub, r: Xpub, plan: IntermediaryPlan)
    ensures var script := Intermediating(i, r, plan);
            && ChecksFor(script, 1, 6, Received(0, 0)) && ChecksFor(script, 5, 6, Received(1, 0))
            && ChecksFor(script, 9, 11, Received(2, 0)) && ChecksFor(script, 15, 16, Received(3, 0))
  {
  }

  lemma IntermediaryStores(i: Xpub, r: Xpub, plan: IntermediaryPlan)
    ensures StoresChecked(Intermediating(i, r, plan))
  {
    IntermediaryChecks(i, r, plan);
  }

  /** The two commitments of an endpoint p: the pass-through app signed by all three, and the update with the
      intermediary. */
  function EndpointStored(keys: Keys, i: Xpub, m: Xpub, r: Xpub, p: Xpub, plan: EndpointPlan): seq<Stored> {
    [ Stored(ForUpdate(plan.passThroughId), SignedByThree(keys, plan.passThrough, i, m, r)),
      Stored(ForUpdate(plan.freeBalanceId), Countersigned(keys, plan.deactivation, p, m)) ]
  }

  function IntermediaryStored(keys: Keys, i: Xpub, m: Xpub, r: Xpub, plan: IntermediaryPlan): seq<Stored> {
    [ Stored(ForUpdate(plan.passThroughId), SignedByThree(keys, plan.passThrough, i, m, r)),
      Stored(ForUpdate(plan.freeBalanceIdI), Countersigned(keys, plan.deactivationI, i, m)),
      Stored(ForUpdate(plan.freeBalanceIdR), Countersigned(keys, plan.deactivationR, r, m)) ]
  }

  ghost predicate DistinctSigners(keys: Keys, i: Xpub, m: Xpub, r: Xpub) {
    keys.kth(i, 0) != keys.kth(m, 0) && keys.kth(i, 0) != keys.kth(r, 0) && keys.kth(m, 0) != keys.kth(r, 0)
  }

  lemma InitiatorStoresThese(keys: Keys, i: Xpub, m: Xpub, r: Xpub, plan: EndpointPlan)
    ensures StoresThese(keys, i, Initiating(m, r, plan), [5, 10], EndpointStored(keys, i, m, r, i, plan))
  {
    InitiatorChecks(m, r, plan);
    StoresThree(keys, i, Initiating(m, r, plan), 5, (0, 4, 3), i, m, r);
    StoresTwo(keys, i, Initiating(m, r, plan), 10, (6, 9), i, m);
  }

  lemma ResponderStores4(keys: Keys, i: Xpub, m: Xpub, r: Xpub, plan: EndpointPlan)
    requires DistinctSigners(keys, i, m, r)
    ensures StoresAs(keys, r, Responding(i, m, plan), 4, EndpointStored(keys, i, m, r, r, plan)[0])
  {
    ResponderChecks(i, m, plan);
    StoresThree(keys, r, Responding(i, m, plan), 4, (3, 1, 2), r, i, m);
    ThreeFromResponder(keys, plan.passThrough, i, m, r);
  }

  lemma ThreeFromResponder(keys: Keys, c: Commitment, i: Xpub, m: Xpub, r: Xpub)
    requires DistinctSigners(keys, i, m, r)
    ensures SignedByThree(keys, c, r, i, m) == SignedByThree(keys, c, i, m, r)
  {
    SignedByThreeAlike(keys, c, i, m, r, [Signature(r, 0, c), Signature(i, 0, c), Signature(m, 0, c)]);
  }

  lemma ResponderStores9(keys: Keys, i: Xpub, m: Xpub, r: Xpub, plan: EndpointPlan)
    requires DistinctSigners(keys, i, m, r)
    ensures StoresAs(keys, r, Responding(i, m, plan), 9, EndpointStored(keys, i, m, r, r, plan)[1])
  {
    ResponderChecks(i, m, plan);
    StoresTwo(keys, r, Responding(i, m, plan), 9, (7, 8), m, r);
    CountersignedAlike(keys, plan.deactivation, m, r);
  }

  lemma ResponderStoresThese(keys: Keys, i: Xpub, m: Xpub, r: Xpub, plan: EndpointPlan)
    requires DistinctSigners(keys, i, m, r)
    ensures StoresThese(keys, r, Responding(i, m, plan), [4, 9], EndpointStored(keys, i, m, r, r, plan))
  {
    ResponderStores4(keys, i, m, r, plan);
    ResponderStores9(keys, i, m, r, plan);
  }

  lemma IntermediaryStores6(keys: Keys, i: Xpub, m: Xpub, r: Xpub, plan: IntermediaryPlan)
    ensures StoresAs(keys, m, Intermediating(i, r, plan), 6, IntermediaryStored(keys, i, m, r, plan)[0])
  {
    IntermediaryChecks(i, r, plan);
    StoresThree(keys, m, Intermediating(i, r, plan), 6, (1, 2, 5), i, m, r);
  }

  lemma IntermediaryStores11(keys: Keys, i: Xpub, m: Xpub, r: Xpub, plan: IntermediaryPlan)
    ensures StoresAs(keys, m, Intermediating(i, r, plan), 11, IntermediaryStored(keys, i, m, r, plan)[1])
  {
    IntermediaryChecks(i, r, plan);
    StoresTwo(keys, m, Intermediating(i, r, plan), 11, (9, 10), i, m);
  }

  lemma IntermediaryStores16(keys: Keys, i: Xpub, m: Xpub, r: Xpub, plan: IntermediaryPlan)
    ensures StoresAs(keys, m, Intermediating(i, r, plan), 16, IntermediaryStored(keys, i, m, r, plan)[2])
  {
    IntermediaryChecks(i, r, plan);
    StoresTwo(keys, m, Intermediating(i, r, plan), 16, (15, 12), r, m);
  }

  lemma IntermediaryStoresThese(keys: Keys, i: Xpub, m: Xpub, r: Xpub, plan: IntermediaryPlan)
    ensures StoresThese(keys, m, Intermediating(i, r, plan), [6, 11, 16], IntermediaryStored(keys, i, m, r, plan))
  {
    IntermediaryStores6(keys, i, m, r, plan);
    IntermediaryStores11(keys, i, m, r, plan);
    IntermediaryStores16(keys, i, m, r, plan);
  }

  /** All of these carry good signatures of all who have to sign them, and no others. */
  lemma StoredProperly(keys: Keys, i: Xpub, m: Xpub, r: Xpub, p: Xpub, plan: EndpointPlan, planM: IntermediaryPlan)
    requires DistinctSigners(keys, i, m, r) && p in {i, r}
    ensures forall t :: t in EndpointStored(keys, i, m, r, p, plan) ==> ProperlySigned(t.transaction)
    ensures forall t :: t in IntermediaryStored(keys, i, m, r, planM) ==> ProperlySigned(t.transaction)
  {
    CountersignedAlike(keys, plan.deactivation, p, m);
    CountersignedAlike(keys, planM.deactivationI, i, m);
    CountersignedAlike(keys, planM.deactivationR, r, m);
    SignedByThreeAlike(keys, plan.passThrough, i, m, r,
                       [Signature(i, 0, plan.passThrough), Signature(m, 0, plan.passThrough), Signature(r, 0, plan.passThrough)]);
    SignedByThreeAlike(keys, planM.passThrough, i, m, r,
                       [Signature(i, 0, planM.passThrough), Signature(m, 0, planM.passThrough), Signature(r, 0, planM.passThrough)]);
  }

  /** In every run, no role stores anything but its commitments, each with exactly the signatures of those who have to
      sign it; and at its end it has stored them all. */
  lemma StoresSignedCommitments(sys: System, events: seq<Event>, i: Xpub, m: Xpub, r: Xpub, p: Xpub,
                                plan: EndpointPlan, planM: IntermediaryPlan, channels: Channels)
    requires DistinctSigners(sys.keys, i, m, r)
    requires || (p == i && Initiates(sys, i, m, r, plan, channels))
             || (p == r && Responds(sys, i, m, r, plan, channels))
             || (p == m && Intermediates(sys, i, m, r, planM, channels))
    ensures var (node, stored) := (NodeOf(sys, events, p),
                                   if p == m then IntermediaryStored(sys.keys, i, m, r, planM) else EndpointStored(sys.keys, i, m, r, p, plan));
            && (forall t :: t in node.commitments ==> t in stored && ProperlySigned(t.transaction))
            && (node.pc >= |sys.parties[p].script| ==> forall t :: t in stored ==> t in node.commitments)
  {
    StoredProperly(sys.keys, i, m, r, if p == m then i else p, plan, planM);
    if p == m {
      IntermediaryStores(i, r, planM);
      IntermediaryStoresThese(sys.keys, i, m, r, planM);
      StoresOnlyThese(sys, events, m, [6, 11, 16], IntermediaryStored(sys.keys, i, m, r, planM));
    } else if p == i && Initiates(sys, i, m, r, plan, channels) {
      InitiatorStores(m, r, plan);
      InitiatorStoresThese(sys.keys, i, m, r, plan);
      StoresOnlyThese(sys, events, i, [5, 10], EndpointStored(sys.keys, i, m, r, i, plan));
    } else {
      ResponderStores(i, m, plan);
      ResponderStoresThese(sys.keys, i, m, r, plan);
      StoresOnlyThese(sys, events, r, [4, 9], EndpointStored(sys.keys, i, m, r, r, plan));
    }
  }

  // ---- From agreeing copies the protocol goes through ----

  /** The three plans fit together. */
  predicate Matching(planI: EndpointPlan, planM: IntermediaryPlan, planR: EndpointPlan) {
    && planI.deactivation == planM.deactivationI && planR.deactivation == planM.deactivationR
    && planI.passThrough == planM.passThrough == planR.passThrough
    && planI.withIntermediary == planM.withInitiating && planR.withIntermediary == planM.withResponding
    && planI.threeParty == planM.threeParty == planR.threeParty
    && planI.betweenUsers == planR.betweenUsers
  }

  /** Agreeing results make fitting plans: although each role computes in its own way, what each expects to be
      signed is what the others sign. */
  lemma PlansMatch(i: Result<EndpointUninstall>, m: Result<IntermediaryUninstall>, r: Result<EndpointUninstall>)
    requires UninstalledTogether(i, m, r) && m.Ok? && IntermediaryPlanOf(m.value).Ok?
    ensures EndpointPlanOf(i.value).Ok? && EndpointPlanOf(r.value).Ok?
    ensures Matching(EndpointPlanOf(i.value).value, IntermediaryPlanOf(m.value).value, EndpointPlanOf(r.value).value)
  {
  }

  const WAITS: Waits := Waits(2, 8, 14, 4, 8, 14, 21, 6, 14)

  function Exchanged(i: Xpub, m: Xpub, r: Xpub, planI: EndpointPlan, planR: EndpointPlan): Messages {
    Messages(
      [Some(Signature(i, 0, planI.passThrough))],
      [Some(Signature(i, 0, planI.passThrough)), Some(Signature(m, 0, planI.passThrough))],
      [Some(Signature(r, 0, planR.passThrough))],
      [Some(Signature(r, 0, planR.passThrough)), Some(Signature(m, 0, planI.passThrough))],
      [Some(Signature(i, 0, planI.deactivation))],
      [Some(Signature(m, 0, planR.deactivation))],
      [Some(Signature(r, 0, planR.deactivation))],
      [Some(Signature(m, 0, planI.deactivation))])
  }

  lemma InitiatorReady(m: Xpub, r: Xpub, plan: EndpointPlan, x: Messages)
    requires x.m4 == [Some(Signature(r, 0, plan.passThrough)), Some(Signature(m, 0, plan.passThrough))]
    requires x.m8 == [Some(Signature(m, 0, plan.deactivation))]
    ensures InitiatorFits(Initiating(m, r, plan), WAITS, x)
  {
    var script := Initiating(m, r, plan);
    assert script[0].Sign? && script[6].Sign?;
    AllSignFirst(script, 14);
    AllPass(script, 0, 2, []);
    AllPass(script, 3, 8, [x.m4]);
    AllPass(script, 9, 14, [x.m4, x.m8]);
  }

  lemma ResponderReady(i: Xpub, m: Xpub, plan: EndpointPlan, x: Messages)
    requires x.m2 == [Some(Signature(i, 0, plan.passThrough)), Some(Signature(m, 0, plan.passThrough))]
    requires x.m6 == [Some(Signature(m, 0, plan.deactivation))]
    ensures ResponderFits(Responding(i, m, plan), WAITS, x)
  {
    var script := Responding(i, m, plan);
    assert script[3].Sign? && script[8].Sign?;
    AllSignFirst(script, 14);
    AllPass(script, 1, 6, [x.m2]);
    AllPass(script, 7, 14, [x.m2, x.m6]);
  }

  lemma IntermediaryReady(i: Xpub, r: Xpub, plan: IntermediaryPlan, x: Messages)
    requires x.m1 == [Some(Signature(i, 0, plan.passThrough))]
    requires x.m3 == [Some(Signature(r, 0, plan.passThrough))]
    requires x.m5 == [Some(Signature(i, 0, plan.deactivationI))]
    requires x.m7 == [Some(Signature(r, 0, plan.deactivationR))]
    ensures IntermediaryFits(Intermediating(i, r, plan), WAITS, x)
  {
    IntermediarySignsFirst(i, r, plan);
    IntermediaryPasses(i, r, plan, x);
  }

  lemma IntermediarySignsFirst(i: Xpub, r: Xpub, plan: IntermediaryPlan)
    ensures SignsFirst(Intermediating(i, r, plan), 21)
  {
    var script := Intermediating(i, r, plan);
    assert script[2].Sign? && script[10].Sign? && script[12].Sign?;
    AllSignFirst(script, 21);
  }

  lemma IntermediaryPasses(i: Xpub, r: Xpub, plan: IntermediaryPlan, x: Messages)
    requires x.m1 == [Some(Signature(i, 0, plan.passThrough))]
    requires x.m3 == [Some(Signature(r, 0, plan.passThrough))]
    requires x.m5 == [Some(Signature(i, 0, plan.deactivationI))]
    requires x.m7 == [Some(Signature(r, 0, plan.deactivationR))]
    ensures var script := Intermediating(i, r, plan);
            && Passable(script, 1, 4, [x.m1]) && Passable(script, 5, 8, [x.m1, x.m3])
            && Passable(script, 9, 14, [x.m1, x.m3, x.m5]) && Passable(script, 15, 21, [x.m1, x.m3, x.m5, x.m7])
  {
    var script := Intermediating(i, r, plan);
    AllPass(script, 1, 4, [x.m1]);
    AllPass(script, 5, 8, [x.m1, x.m3]);
    AllPass(script, 9, 14, [x.m1, x.m3, x.m5]);
    AllPass(script, 15, 21, [x.m1, x.m3, x.m5, x.m7]);
  }

  lemma EndpointsSent(i: Xpub, m: Xpub, r: Xpub, planI: EndpointPlan, planR: EndpointPlan)
    ensures Signature(i, 0, planI.passThrough) in SentBy(i, Initiating(m, r, planI), 2)
    ensures Signature(i, 0, planI.deactivation) in SentBy(i, Initiating(m, r, planI), 8)
    ensures Signature(r, 0, planR.passThrough) in SentBy(r, Responding(i, m, planR), 6)
    ensures Signature(r, 0, planR.deactivation) in SentBy(r, Responding(i, m, planR), 14)
  {
    SentOnce(i, Initiating(m, r, planI), 2, 1, Mine(0, planI.passThrough));
    SentOnce(i, Initiating(m, r, planI), 8, 7, Mine(0, planI.deactivation));
    SentOnce(r, Responding(i, m, planR), 6, 5, Mine(0, planR.passThrough));
    SentOnce(r, Responding(i, m, planR), 14, 13, Mine(0, planR.deactivation));
  }

  lemma IntermediarySent(i: Xpub, m: Xpub, r: Xpub, plan: IntermediaryPlan)
    ensures var script := Intermediating(i, r, plan);
            && Signature(m, 0, plan.passThrough) in SentBy(m, script, 4) && Signature(m, 0, plan.passThrough) in SentBy(m, script, 8)
            && Signature(m, 0, plan.deactivationR) in SentBy(m, script, 14) && Signature(m, 0, plan.deactivationI) in SentBy(m, script, 21)
  {
    var script := Intermediating(i, r, plan);
    SentOnce(m, script, 4, 3, Mine(0, plan.passThrough));
    SentOnce(m, script, 8, 7, Mine(0, plan.passThrough));
    SentOnce(m, script, 14, 13, Mine(0, plan.deactivationR));
    SentOnce(m, script, 21, 20, Mine(0, plan.deactivationI));
  }

  lemma AllSentHere(i: Xpub, m: Xpub, r: Xpub, planI: EndpointPlan, planM: IntermediaryPlan, planR: EndpointPlan, x: Messages)
    requires Matching(planI, planM, planR) && x == Exchanged(i, m, r, planI, planR)
    ensures MessagesSent(i, m, r, Initiating(m, r, planI), Intermediating(i, r, planM), Responding(i, m, planR), WAITS, x)
  {
    EndpointsSent(i, m, r, planI, planR);
    IntermediarySent(i, m, r, planM);
  }

  /** Three parties that take the roles, before anything is signed. */
  lemma Parties(keys: Keys, i: Xpub, m: Xpub, r: Xpub, planI: EndpointPlan, channelsI: Channels,
                planM: IntermediaryPlan, channelsM: Channels, planR: EndpointPlan, channelsR: Channels) returns (sys: System)
    requires i != m && i != r && m != r
    ensures sys.keys == keys && sys.known == {} && sys.parties.Keys == {i, m, r}
    ensures Initiates(sys, i, m, r, planI, channelsI)
    ensures Intermediates(sys, i, m, r, planM, channelsM)
    ensures Responds(sys, i, m, r, planR, channelsR)
  {
    sys := System(keys, map[i := Party(Initiating(m, r, planI), channelsI),
                            m := Party(Intermediating(i, r, planM), channelsM),
                            r := Party(Responding(i, m, planR), channelsR)], {});
  }

  predicate AllTake(sys: System, i: Xpub, m: Xpub, r: Xpub, planI: EndpointPlan, channelsI: Channels,
                    planM: IntermediaryPlan, channelsM: Channels, planR: EndpointPlan, channelsR: Channels)
  {
    && i != m && i != r && m != r && sys.parties.Keys == {i, m, r}
    && Initiates(sys, i, m, r, planI, channelsI)
    && Intermediates(sys, i, m, r, planM, channelsM)
    && Responds(sys, i, m, r, planR, channelsR)
    && Matching(planI, planM, planR)
  }

  lemma AllReady(sys: System, i: Xpub, m: Xpub, r: Xpub, planI: EndpointPlan, channelsI: Channels,
                 planM: IntermediaryPlan, channelsM: Channels, planR: EndpointPlan, channelsR: Channels, x: Messages)
    requires AllTake(sys, i, m, r, planI, channelsI, planM, channelsM, planR, channelsR) && x == Exchanged(i, m, r, planI, planR)
    ensures Ready(sys, i, m, r, WAITS, x)
  {
    InitiatorReady(m, r, planI, x);
    IntermediaryReady(i, r, planM, x);
    ResponderReady(i, m, planR, x);
    AllSentHere(i, m, r, planI, planM, planR, x);
  }

  /** A run in which all three parties, whose plans fit together, get to the end, every check passing, and have
      saved their three channels. */
  lemma Completes(sys: System, i: Xpub, m: Xpub, r: Xpub, planI: EndpointPlan, channelsI: Channels,
                  planM: IntermediaryPlan, channelsM: Channels, planR: EndpointPlan, channelsR: Channels) returns (events: seq<Event>)
    requires AllTake(sys, i, m, r, planI, channelsI, planM, channelsM, planR, channelsR)
    ensures !NodeOf(sys, events, i).halted && !NodeOf(sys, events, m).halted && !NodeOf(sys, events, r).halted
    ensures NodeOf(sys, events, i).pc == 14 && NodeOf(sys, events, m).pc == 21 && NodeOf(sys, events, r).pc == 14
    ensures NodeOf(sys, events, i).store == SaveAll(channelsI, planI.withIntermediary, planI.threeParty, planI.betweenUsers)
    ensures NodeOf(sys, events, m).store == SaveAll(channelsM, planM.withInitiating, planM.threeParty, planM.withResponding)
    ensures NodeOf(sys, events, r).store == SaveAll(channelsR, planR.withIntermediary, planR.threeParty, planR.betweenUsers)
  {
    AllReady(sys, i, m, r, planI, channelsI, planM, channelsM, planR, channelsR, Exchanged(i, m, r, planI, planR));
    events := AllComplete(sys, i, m, r, WAITS, Exchanged(i, m, r, planI, planR));
    InitiatorSaves(sys, events, i, m, r, planI, channelsI);
    IntermediarySaves(sys, events, i, m, r, planM, channelsM);
    ResponderSaves(sys, events, i, m, r, planR, channelsR);
  }

  /** Who has come to the end has stored all its commitments, properly signed. */
  ghost predicate AllStored(sys: System, events: seq<Event>, i: Xpub, m: Xpub, r: Xpub,
                            planI: EndpointPlan, planM: IntermediaryPlan, planR: EndpointPlan)
    requires i in sys.parties && m in sys.parties && r in sys.parties
  {
    && (forall t :: t in EndpointStored(sys.keys, i, m, r, i, planI) ==> t in NodeOf(sys, events, i).commitments && ProperlySigned(t.transaction))
    && (forall t :: t in IntermediaryStored(sys.keys, i, m, r, planM) ==> t in NodeOf(sys, events, m).commitments && ProperlySigned(t.transaction))
    && (forall t :: t in EndpointStored(sys.keys, i, m, r, r, planR) ==> t in NodeOf(sys, events, r).commitments && ProperlySigned(t.transaction))
  }

  lemma EndsWithAllStored(sys: System, events: seq<Event>, i: Xpub, m: Xpub, r: Xpub, planI: EndpointPlan, channelsI: Channels,
                          planM: IntermediaryPlan, channelsM: Channels, planR: EndpointPlan, channelsR: Channels)
    requires AllTake(sys, i, m, r, planI, channelsI, planM, channelsM, planR, channelsR) && DistinctSigners(sys.keys, i, m, r)
    requires NodeOf(sys, events, i).pc == 14 && NodeOf(sys, events, m).pc == 21 && NodeOf(sys, events, r).pc == 14
    ensures AllStored(sys, events, i, m, r, planI, planM, planR)
  {
    StoresSignedCommitments(sys, events, i, m, r, i, planI, planM, channelsI);
    StoresSignedCommitments(sys, events, i, m, r, m, planI, planM, channelsM);
    StoresSignedCommitments(sys, events, i, m, r, r, planR, planM, channelsR);
  }
}
