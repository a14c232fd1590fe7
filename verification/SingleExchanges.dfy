/** The protocols of two messages: uninstall, update, take-action and propose (engine/uninstall.ts, update.ts,
    take-action.ts, propose.ts). The responder countersigns and saves before it answers. */
module SingleExchanges {
  import opened AppInstances
  import opened Commitments
  import opened Dictionaries
  import opened Engine
  import opened HonestRuns
  import opened Outcomes
  import opened Primitives
  import opened ProposeTransitions
  import opened Results
  import opened StateChannels
  import opened StoredCommitments
  import opened VirtualApps

  /** What a party computes from its own copy: the new channel, the commitment to sign and the key to sign it
      with; only uninstall stores the signed commitment. */
  datatype Plan = Plan(post: StateChannel, keyIndex: nat, commitment: Commitment, storedUnder: Option<Key>)

  // ---- What is computed ----

  function UninstallPlan(channels: Channels, multisig: Multisig, id: Hash, provider: Provider): Result<Plan> {
    if multisig !in channels then Err(NoChannel) else
    var app :- GetAppInstance(channels[multisig], id);
    var increments :- ComputeIncrements(app, ComputeOutcome(app, provider));
    var post :- UninstallApp(channels[multisig], id, increments);
    if post.freeBalanceAppInstance.None? then Err(NoFreeBalance) else
    Ok(Plan(post, 0, FreeBalanceCommitment(post), Some(ForUninstall(id))))
  }

  /** For take-action the new state is what the app contract answers to the action. */
  function UpdatePlan(channels: Channels, multisig: Multisig, id: Hash, newState: AppState): Result<Plan> {
    if multisig !in channels then Err(NoChannel) else
    var post :- SetState(channels[multisig], id, newState);
    var app :- GetAppInstance(post, id);
    Ok(Plan(post, app.appSeqNo, CommitmentTo(app), None))
  }

  /** The channel that a proposal is made in; a missing one is created empty. */
  function ProposingIn(channels: Channels, multisig: Multisig, p: ProposeParams): StateChannel {
    if multisig in channels then channels[multisig] else CreateEmptyChannel(multisig, [p.initiatorXpub, p.responderXpub])
  }

  function ProposePlan(kth: Derivation, channels: Channels, multisig: Multisig, p: ProposeParams, initiating: bool): Plan {
    var pre := ProposingIn(channels, multisig, p);
    var proposal := if initiating then InitiatorProposal(kth, pre, p) else ResponderProposal(kth, pre, p);
    Plan(AddProposal(pre, proposal), 0, SetStateCommitment(NextIdentity(kth, pre), p.initialState, 0, p.timeout), None)
  }

  // ---- The scripts ----

  function Initiating(other: Xpub, plan: Plan): Script {
    match plan.storedUnder
    case None =>
      [ Sign(plan.keyIndex, plan.commitment),
        Send(other, [Mine(plan.keyIndex, plan.commitment)], 1),
        Receive,
        Verify(other, plan.keyIndex, plan.commitment, 0, 0),
        Save(plan.post) ]
    case Some(key) =>
      [ Sign(plan.keyIndex, plan.commitment),
        Send(other, [Mine(plan.keyIndex, plan.commitment)], 1),
        Receive,
        Verify(other, plan.keyIndex, plan.commitment, 0, 0),
        SetCommitment(key, plan.commitment, [Mine(plan.keyIndex, plan.commitment), Received(0, 0)]),
        Save(plan.post) ]
  }

  function Responding(other: Xpub, plan: Plan): Script {
    match plan.storedUnder
    case None =>
      [ Receive,
        Verify(other, plan.keyIndex, plan.commitment, 0, 0),
        Sign(plan.keyIndex, plan.commitment),
        Save(plan.post),
        Send(other, [Mine(plan.keyIndex, plan.commitment)]) ]
    case Some(key) =>
      [ Receive,
        Verify(other, plan.keyIndex, plan.commitment, 0, 0),
        Sign(plan.keyIndex, plan.commitment),
        SetCommitment(key, plan.commitment, [Mine(plan.keyIndex, plan.commitment), Received(0, 0)]),
        Save(plan.post),
        Send(other, [Mine(plan.keyIndex, plan.commitment)]) ]
  }

  predicate Takes(sys: System, p: Xpub, other: Xpub, plan: Plan, channels: Channels) {
    && p in sys.parties
    && (sys.parties[p] == Party(Initiating(other, plan), channels) || sys.parties[p] == Party(Responding(other, plan), channels))
  }

  /** In every run, a party's store is either untouched or has the new channel in place of the old, and in the
      second case the party has verified its counterparty's signature on exactly what it saved. */
  lemma SavesWhatIsSigned(sys: System, events: seq<Event>, p: Xpub, other: Xpub, plan: Plan, channels: Channels)
    requires Takes(sys, p, other, plan, channels)
    ensures var node := NodeOf(sys, events, p);
            || node.store == channels
            || (&& node.store == channels[plan.post.multisigAddress := plan.post]
                && Signature(other, plan.keyIndex, plan.commitment) in node.verified)
  {
    var script := sys.parties[p].script;
    if script == Initiating(other, plan) {
      assert script[3].Verify?;
    } else {
      assert script[1].Verify?;
    }
    SavesOnce(sys, events, p, (if script[0].Receive? then 3 else 4) + if plan.storedUnder.Some? then 1 else 0);
  }

  /** Between two honest parties, whatever each of them had stored: in every run the initiator saves only after
      the responder has, and then both have signed and saved under one and the same commitment. */
  lemma ResponderSavesFirst(sys: System, events: seq<Event>, i: Xpub, planI: Plan, channelsI: Channels,
                            r: Xpub, planR: Plan, channelsR: Channels)
    requires Takes(sys, i, r, planI, channelsI) && sys.parties[i].script == Initiating(r, planI)
    requires Takes(sys, r, i, planR, channelsR) && sys.parties[r].script == Responding(i, planR)
    requires Signature(r, planI.keyIndex, planI.commitment) !in sys.known
    ensures NodeOf(sys, events, i).store != channelsI ==>
              && NodeOf(sys, events, r).store == channelsR[planR.post.multisigAddress := planR.post]
              && planI.commitment == planR.commitment
  {
    SavesOnce(sys, events, i, if planI.storedUnder.Some? then 5 else 4);
    SavesOnce(sys, events, r, if planR.storedUnder.Some? then 4 else 3);
    if NodeOf(sys, events, i).store != channelsI {
      assert sys.parties[i].script[3].Verify?;
      var k := VerifiedWasSent(sys, events, i, Signature(r, planI.keyIndex, planI.commitment));
    }
  }

  /** In every run of an uninstall, the one commitment stored is properly signed by both parties. */
  lemma StoresSignedCommitment(sys: System, events: seq<Event>, p: Xpub, other: Xpub, plan: Plan, channels: Channels, t: Stored)
    requires Takes(sys, p, other, plan, channels) && sys.keys.kth(p, 0) != sys.keys.kth(other, 0)
    requires plan.storedUnder.Some? && plan.keyIndex == 0
    requires t in NodeOf(sys, events, p).commitments
    ensures ProperlySigned(t.transaction) && t.key == plan.storedUnder.value
    ensures t.transaction == Countersigned(sys.keys, plan.commitment, p, other) == Countersigned(sys.keys, plan.commitment, other, p)
  {
    assert StoresPair(Initiating(other, plan), other, 0, 3, 4);
    assert StoresPair(Responding(other, plan), other, 2, 1, 3);
    var k := StoredIsCountersigned(sys, events, p, other, t);
  }

  // ---- What the one signature covers ----

  /** An update is signed with the key of the app's number, and is on exactly the new state, one version later, with the
      app's default timeout; nothing but the app changes. */
  lemma UpdateCommits(channels: Channels, multisig: Multisig, id: Hash, newState: AppState)
    requires UpdatePlan(channels, multisig, id, newState).Ok?
    ensures multisig in channels && Has(channels[multisig].appInstances, id)
    ensures var (app, plan) := (Lookup(channels[multisig].appInstances, id).value, UpdatePlan(channels, multisig, id, newState).value);
            var updated := app.(latestState := newState, latestVersionNumber := app.latestVersionNumber + 1, latestTimeout := app.defaultTimeout);
            && plan.keyIndex == app.appSeqNo && plan.storedUnder == None
            && plan.commitment == SetStateCommitment(app.IdentityHash(), newState, app.latestVersionNumber + 1, app.defaultTimeout)
            && plan.post == channels[multisig].(appInstances := Put(channels[multisig].appInstances, id, updated))
  {
  }

  /** A proposal is signed on the initial state of an app that does not exist yet: its number is one more than the
      channel has counted, and its participants are the owners' keys of that number. In a channel that is not there
      yet it is the second, between the two parties. */
  lemma ProposeCommits(kth: Derivation, channels: Channels, multisig: Multisig, p: ProposeParams, initiating: bool)
    ensures var (pre, plan) := (ProposingIn(channels, multisig, p), ProposePlan(kth, channels, multisig, p, initiating));
            var n := pre.monotonicNumProposedApps + 1;
            var id := AppHash(n, SortedKthAddresses(kth, pre.userNeuteredExtendedKeys, n));
            && (multisig in channels ==> pre == channels[multisig])
            && (multisig !in channels ==> pre == StateChannel(multisig, [p.initiatorXpub, p.responderXpub], Nil, Nil, Nil, None, 1))
            && plan.keyIndex == 0 && plan.storedUnder == None
            && plan.commitment == SetStateCommitment(id, p.initialState, 0, p.timeout)
            && Has(plan.post.proposedAppInstances, id)
            && plan.post == pre.(proposedAppInstances := Put(pre.proposedAppInstances, id, Lookup(plan.post.proposedAppInstances, id).value),
                                 monotonicNumProposedApps := n)
  {
  }

  /** Two parties that saved under one commitment have saved the same free balance at the same version after an
      uninstall, whatever else differed between their copies. */
  lemma UninstallsAlike(channelsI: Channels, channelsR: Channels, multisig: Multisig, id: Hash, providerI: Provider, providerR: Provider)
    requires var (i, r) := (UninstallPlan(channelsI, multisig, id, providerI), UninstallPlan(channelsR, multisig, id, providerR));
             i.Ok? && r.Ok? && i.value.commitment == r.value.commitment
    ensures var i, r := UninstallPlan(channelsI, multisig, id, providerI).value.post, UninstallPlan(channelsR, multisig, id, providerR).value.post;
            && GetFreeBalance(i) == GetFreeBalance(r) && GetFreeBalance(i).Ok?
            && FreeBalanceVersion(i) == FreeBalanceVersion(r)
            && !Has(i.appInstances, id) && !Has(r.appInstances, id)
            && !Has(View(i).activeApps, id)
  {
    var app := GetAppInstance(channelsI[multisig], id).value;
    var increments := ComputeIncrements(app, ComputeOutcome(app, providerI)).value;
    var without := channelsI[multisig].(appInstances := Delete(channelsI[multisig].appInstances, id));
    assert GetFreeBalance(channelsI[multisig]) == GetFreeBalance(without);
    RemoveActiveSpec(without, id, increments);
    var appR := GetAppInstance(channelsR[multisig], id).value;
    var withoutR := channelsR[multisig].(appInstances := Delete(channelsR[multisig].appInstances, id));
    assert GetFreeBalance(channelsR[multisig]) == GetFreeBalance(withoutR);
    RemoveActiveSpec(withoutR, id, ComputeIncrements(appR, ComputeOutcome(appR, providerR)).value);
  }

  /** After an update or an action the app has the same state and version at both parties, one version later
      than either had before: their versions were equal already. */
  lemma UpdatesAlike(channelsI: Channels, channelsR: Channels, multisig: Multisig, id: Hash, stateI: AppState, stateR: AppState)
    requires var (i, r) := (UpdatePlan(channelsI, multisig, id, stateI), UpdatePlan(channelsR, multisig, id, stateR));
             i.Ok? && r.Ok? && i.value.commitment == r.value.commitment
    ensures Has(channelsI[multisig].appInstances, id) && Has(channelsR[multisig].appInstances, id)
    ensures var (preI, preR) := (Lookup(channelsI[multisig].appInstances, id).value, Lookup(channelsR[multisig].appInstances, id).value);
            var (i, r) := (UpdatePlan(channelsI, multisig, id, stateI).value.post, UpdatePlan(channelsR, multisig, id, stateR).value.post);
            && stateI == stateR
            && preI.latestVersionNumber == preR.latestVersionNumber && preI.defaultTimeout == preR.defaultTimeout
            && preI.IdentityHash() == preR.IdentityHash()
            && Lookup(i.appInstances, id) == Some(preI.SetState(stateI)) && Lookup(r.appInstances, id) == Some(preR.SetState(stateI))
            && (forall h :: h != id ==> Lookup(i.appInstances, h) == Lookup(channelsI[multisig].appInstances, h))
  {
  }

  /** After a proposal both parties have stored one under the same identity and number, with the same initial
      state and timeout. The deposits are not signed: the copies mirror each other exactly when the
      two parties went by the same deposits, tokens and remaining terms. */
  lemma ProposesAlike(kth: Derivation, channelsI: Channels, channelsR: Channels, multisig: Multisig, p: ProposeParams, p': ProposeParams)
    requires ProposePlan(kth, channelsI, multisig, p, true).commitment == ProposePlan(kth, channelsR, multisig, p', false).commitment
    ensures var mine := InitiatorProposal(kth, ProposingIn(channelsI, multisig, p), p);
            var theirs := ResponderProposal(kth, ProposingIn(channelsR, multisig, p'), p');
            && Lookup(ProposePlan(kth, channelsI, multisig, p, true).post.proposedAppInstances, mine.identityHash) == Some(mine)
            && Lookup(ProposePlan(kth, channelsR, multisig, p', false).post.proposedAppInstances, mine.identityHash) == Some(theirs)
            && mine.identityHash == theirs.identityHash && mine.appSeqNo == theirs.appSeqNo
            && mine.initialState == theirs.initialState && mine.timeout == theirs.timeout
            && (theirs == mine.(initiatorDeposit := mine.responderDeposit, responderDeposit := mine.initiatorDeposit,
                                initiatorDepositTokenAddress := mine.responderDepositTokenAddress,
                                responderDepositTokenAddress := mine.initiatorDepositTokenAddress)
                <==> && p.initiatorDeposit == p'.initiatorDeposit && p.responderDeposit == p'.responderDeposit
                     && p.initiatorDepositTokenAddress.GetOr(CONVENTION_FOR_ETH_TOKEN_ADDRESS) == p'.initiatorDepositTokenAddress.GetOr(CONVENTION_FOR_ETH_TOKEN_ADDRESS)
                     && p.responderDepositTokenAddress.GetOr(CONVENTION_FOR_ETH_TOKEN_ADDRESS) == p'.responderDepositTokenAddress.GetOr(CONVENTION_FOR_ETH_TOKEN_ADDRESS)
                     && p.appInterface == p'.appInterface && p.outcomeType == p'.outcomeType
                     && p.initiatorXpub == p'.initiatorXpub && p.responderXpub == p'.responderXpub)
  {
  }

  // ---- When both computed the same commitment, the protocol goes through ----

  lemma InitiatorPasses(i: Xpub, r: Xpub, plan: Plan, answer: Message)
    requires answer == [Some(Signature(r, plan.keyIndex, plan.commitment))]
    ensures var script := Initiating(r, plan);
            && SignsFirst(script, |script|)
            && Passable(script, 0, 2, []) && Passable(script, 3, |script|, [answer])
            && Within([Some(Signature(i, plan.keyIndex, plan.commitment))], SentBy(i, script, 2))
  {
    var script := Initiating(r, plan);
    assert script[0].Sign?;
    AllSignFirst(script, |script|);
    AllPass(script, 0, 2, []);
    AllPass(script, 3, |script|, [answer]);
    SentOnce(i, script, 2, 1, Mine(plan.keyIndex, plan.commitment));
  }

  lemma ResponderPasses(i: Xpub, r: Xpub, plan: Plan, request: Message)
    requires request == [Some(Signature(i, plan.keyIndex, plan.commitment))]
    ensures var script := Responding(i, plan);
            && SignsFirst(script, |script|)
            && Passable(script, 1, |script|, [request])
            && Within([Some(Signature(r, plan.keyIndex, plan.commitment))], SentBy(r, script, |script|))
  {
    var script := Responding(i, plan);
    assert script[2].Sign?;
    AllSignFirst(script, |script|);
    AllPass(script, 1, |script|, [request]);
    SentOnce(r, script, |script|, |script| - 1, Mine(plan.keyIndex, plan.commitment));
  }

  /** A run in which both parties get to the end, every check passing; what they save may differ, as it does
      for a proposal. */
  lemma Completes(sys: System, i: Xpub, planI: Plan, channelsI: Channels, r: Xpub, planR: Plan, channelsR: Channels) returns (events: seq<Event>)
    requires i != r && sys.parties.Keys == {i, r}
    requires Takes(sys, i, r, planI, channelsI) && sys.parties[i].script == Initiating(r, planI)
    requires Takes(sys, r, i, planR, channelsR) && sys.parties[r].script == Responding(i, planR)
    requires planI.commitment == planR.commitment && planI.keyIndex == planR.keyIndex
    ensures var (nodeI, nodeR) := (NodeOf(sys, events, i), NodeOf(sys, events, r));
            && !nodeI.halted && nodeI.store == channelsI[planI.post.multisigAddress := planI.post]
            && !nodeR.halted && nodeR.store == channelsR[planR.post.multisigAddress := planR.post]
  {
    events := Exchange(sys, i, planI, channelsI, r, planR, channelsR);
    SavesOnce(sys, events, i, if planI.storedUnder.Some? then 5 else 4);
    SavesOnce(sys, events, r, if planR.storedUnder.Some? then 4 else 3);
  }

  lemma Exchange(sys: System, i: Xpub, planI: Plan, channelsI: Channels, r: Xpub, planR: Plan, channelsR: Channels) returns (events: seq<Event>)
    requires i != r && sys.parties.Keys == {i, r}
    requires Takes(sys, i, r, planI, channelsI) && sys.parties[i].script == Initiating(r, planI)
    requires Takes(sys, r, i, planR, channelsR) && sys.parties[r].script == Responding(i, planR)
    requires planI.commitment == planR.commitment && planI.keyIndex == planR.keyIndex
    ensures Reached(sys, events, i, |sys.parties[i].script|, [[Some(Signature(r, planI.keyIndex, planI.commitment))]])
    ensures Reached(sys, events, r, |sys.parties[r].script|, [[Some(Signature(i, planI.keyIndex, planI.commitment))]])
  {
    var m1, m2 := [Some(Signature(i, planI.keyIndex, planI.commitment))], [Some(Signature(r, planI.keyIndex, planI.commitment))];
    var endI, endR := |sys.parties[i].script|, |sys.parties[r].script|;
    InitiatorPasses(i, r, planI, m2);
    ResponderPasses(i, r, planR, m1);
    events := Turn(sys, [], i, 0, 2, [], r, 0, [], m1);
    events := Turn(sys, events, r, 1, endR, [m1], i, 2, [], m2);
    events := Proceed(sys, events, i, 3, endI, [m2]);
    assert Reached(sys, events, r, endR, [m1]);
  }
}
