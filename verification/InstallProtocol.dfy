/** The install protocol between two parties (engine/install.ts): in which order they sign and save, whatever
    the network does and wherever a party stops. */
module InstallProtocol {
  import opened Commitments
  import opened Dictionaries
  import opened Engine
  import opened HonestRuns
  import opened InstallTransitions
  import opened LedgerRuns
  import opened Primitives
  import opened Results
  import opened StateChannels
  import opened StoredCommitments
  import opened VirtualApps
  import opened WithdrawTransitions

  /** What a party computes before its first signature: the channel after the install, the app that it takes
      to be the new one, and the two commitments to sign. */
  datatype Plan = Plan(post: StateChannel, app: Hash, freeBalanceId: Hash, conditional: Commitment, freeBalance: Commitment)

  function PlanOf(kth: Derivation, channels: Channels, multisig: Multisig, p: InstallParams): Result<Plan> {
    if multisig !in channels then Err(NoChannel) else
    var transition :- ComputeTransition(kth, channels[multisig], p);
    var post := transition.0;
    var latest :- MostRecentlyInstalledAppInstance(post);
    if post.freeBalanceAppInstance.None? then Err(NoFreeBalance) else
    Ok(Plan(post, latest.IdentityHash(), post.freeBalanceAppInstance.value.IdentityHash(),
            ConditionalTransactionFor(kth, post, latest), FreeBalanceCommitment(post)))
  }

  function Initiating(other: Xpub, plan: Plan): Script {
    [ Sign(0, plan.conditional),
      Send(other, [Mine(0, plan.conditional)], 1),
      Receive,
      Verify(other, 0, plan.conditional, 0, 0),
      SetCommitment(ForInstall(plan.app), plan.conditional, [Mine(0, plan.conditional), Received(0, 0)]),
      Verify(other, 0, plan.freeBalance, 0, 1),
      Sign(0, plan.freeBalance),
      SetCommitment(ForUpdate(plan.freeBalanceId), plan.freeBalance, [Mine(0, plan.freeBalance), Received(0, 1)]),
      Save(plan.post),
      Send(other, [Mine(0, plan.freeBalance)]),
      Receive ]
  }

  function Responding(other: Xpub, plan: Plan): Script {
    [ Receive,
      Verify(other, 0, plan.conditional, 0, 0),
      Sign(0, plan.conditional),
      SetCommitment(ForInstall(plan.app), plan.conditional, [Mine(0, plan.conditional), Received(0, 0)]),
      Sign(0, plan.freeBalance),
      Send(other, [Mine(0, plan.conditional), Mine(0, plan.freeBalance)]),
      Receive,
      Verify(other, 0, plan.freeBalance, 1, 0),
      SetCommitment(ForUpdate(plan.freeBalanceId), plan.freeBalance, [Mine(0, plan.freeBalance), Received(1, 0)]),
      Save(plan.post),
      Send(other, []) ]
  }

  /** An honest party in either role. */
  predicate Takes(sys: System, p: Xpub, other: Xpub, plan: Plan, channels: Channels) {
    && p in sys.parties
    && (sys.parties[p] == Party(Initiating(other, plan), channels) || sys.parties[p] == Party(Responding(other, plan), channels))
    && plan.conditional.ConditionalTransaction? && plan.freeBalance.SetStateCommitment?
  }

  lemma InitiatorOrder(p: Xpub, other: Xpub, plan: Plan, n: nat, s: Signature)
    requires plan.conditional.ConditionalTransaction? && s.commitment.SetStateCommitment?
    requires n <= |Initiating(other, plan)| && s in SignedBy(p, Initiating(other, plan), n)
    ensures s == Signature(p, 0, plan.freeBalance) && Signature(other, 0, plan.conditional) in VerifiedBy(Initiating(other, plan), n)
  {
    var k := SignedAt(p, Initiating(other, plan), n, s);
    VerifiedOnce(Initiating(other, plan), n, 3);
  }

  lemma ResponderOrder(p: Xpub, other: Xpub, plan: Plan, n: nat, s: Signature)
    requires plan.conditional.ConditionalTransaction? && s.commitment.SetStateCommitment?
    requires n <= |Responding(other, plan)| && s in SignedBy(p, Responding(other, plan), n)
    ensures s == Signature(p, 0, plan.freeBalance) && Signature(other, 0, plan.conditional) in VerifiedBy(Responding(other, plan), n)
  {
    var k := SignedAt(p, Responding(other, plan), n, s);
    VerifiedOnce(Responding(other, plan), n, 1);
  }

  /** In every run, a party that has signed any free balance update, whatever its role, has already verified
      its counterparty's signature on the conditional transaction. */
  lemma SignsFreeBalanceLast(sys: System, events: seq<Event>, p: Xpub, other: Xpub, plan: Plan, channels: Channels, s: Signature)
    requires Takes(sys, p, other, plan, channels)
    requires s in NodeOf(sys, events, p).signed && s.commitment.SetStateCommitment?
    ensures s == Signature(p, 0, plan.freeBalance)
    ensures Signature(other, 0, plan.conditional) in NodeOf(sys, events, p).verified
  {
    RunOk(sys, events);
    assert NodeOk(p, sys.parties[p], NodeOf(sys, events, p));
    if sys.parties[p].script == Initiating(other, plan) {
      InitiatorOrder(p, other, plan, NodeOf(sys, events, p).pc, s);
    } else {
      ResponderOrder(p, other, plan, NodeOf(sys, events, p).pc, s);
    }
  }

  /** The free balance to be signed activates the new app. The conditional transaction is for that app exactly
      when its number is greater than that of every app installed before. */
  lemma PlanCommits(kth: Derivation, channels: Channels, multisig: Multisig, p: InstallParams)
    requires PlanOf(kth, channels, multisig, p).Ok? && Keyed(channels[multisig])
    requires var app := ComputeTransition(kth, channels[multisig], p).value.1; !Has(channels[multisig].appInstances, app.IdentityHash())
    ensures var plan := PlanOf(kth, channels, multisig, p).value;
            var app := ComputeTransition(kth, channels[multisig], p).value.1;
            && plan.conditional.ConditionalTransaction?
            && Activates(plan.freeBalance, app.IdentityHash())
            && (plan.conditional.appIdentityHash == app.IdentityHash()
                <==> forall h :: Has(channels[multisig].appInstances, h) ==> Lookup(channels[multisig].appInstances, h).value.appSeqNo < p.appSeqNo)
  {
    var pre := channels[multisig];
    var (post, app) := ComputeTransition(kth, pre, p).value;
    TransitionSpec(kth, pre, p);
    MostRecentIsNew(pre, app);
    var installed := pre.(appInstances := Put(pre.appInstances, app.IdentityHash(), app));
    assert MostRecentlyInstalledAppInstance(post) == MostRecentlyInstalledAppInstance(installed);
    assert installed.appInstances.Cons? by { assert Has(installed.appInstances, app.IdentityHash()); }
    var h := MostRecentIsGreatest(installed);
    assert Has(installed.appInstances, h);
  }

  /** What is signed: a transaction that pays out the most recently installed app by its outcome type and parameters, to the
      owners of the multisig, and the free balance that is saved, two versions after the last. When the new app
      has the greatest number it is the one, on the terms of the install. */
  lemma PlanContents(kth: Derivation, channels: Channels, multisig: Multisig, p: InstallParams)
    requires PlanOf(kth, channels, multisig, p).Ok? && Keyed(channels[multisig])
    requires var app := ComputeTransition(kth, channels[multisig], p).value.1; !Has(channels[multisig].appInstances, app.IdentityHash())
    ensures var (pre, plan) := (channels[multisig], PlanOf(kth, channels, multisig, p).value);
            var (post, app) := ComputeTransition(kth, pre, p).value;
            && plan.post == post && pre.freeBalanceAppInstance.Some?
            && plan.freeBalanceId == pre.freeBalanceAppInstance.value.IdentityHash()
            && OnFreeBalanceOf(plan.freeBalance, post) && plan.freeBalance.versionNumber == FreeBalanceVersion(pre) + 2
            && Has(post.appInstances, plan.app)
            && var latest := Lookup(post.appInstances, plan.app).value;
               && plan.conditional == ConditionalTransaction(SortedKthAddresses(kth, pre.userNeuteredExtendedKeys, 0), plan.app, plan.freeBalanceId,
                                                             OfApp(latest.outcomeType, latest.interpreterParams))
               && ((forall h :: Has(pre.appInstances, h) ==> Lookup(pre.appInstances, h).value.appSeqNo < p.appSeqNo) ==>
                     plan.app == app.IdentityHash() && latest == app && app.outcomeType == p.outcomeType
                     && TermsOf(p, kth(p.initiatorXpub, 0), kth(p.responderXpub, 0), app.interpreterParams))
  {
    var pre := channels[multisig];
    var (post, app) := ComputeTransition(kth, pre, p).value;
    TransitionSpec(kth, pre, p);
    InstalledApp(kth, pre, p);
    CommitsToFreeBalance(post);
    MostRecentIsNew(pre, app);
    var installed := pre.(appInstances := Put(pre.appInstances, app.IdentityHash(), app));
    assert MostRecentlyInstalledAppInstance(post) == MostRecentlyInstalledAppInstance(installed);
    assert installed.appInstances.Cons? by { assert Has(installed.appInstances, app.IdentityHash()); }
    var h := MostRecentIsGreatest(installed);
    assert Has(installed.appInstances, h);
  }

  /** In every run, when an app with the greatest number is installed, no party has signed a free balance in
      which it is active without having verified its counterparty's signature on the app's conditional
      transaction. */
  lemma NoActivationBeforeConditional(kth: Derivation, sys: System, events: seq<Event>, p: Xpub, other: Xpub,
                                      channels: Channels, multisig: Multisig, params: InstallParams, s: Signature)
    requires PlanOf(kth, channels, multisig, params).Ok? && Keyed(channels[multisig])
    requires Takes(sys, p, other, PlanOf(kth, channels, multisig, params).value, channels)
    requires forall h :: Has(channels[multisig].appInstances, h) ==> Lookup(channels[multisig].appInstances, h).value.appSeqNo < params.appSeqNo
    requires var app := ComputeTransition(kth, channels[multisig], params).value.1;
             s in NodeOf(sys, events, p).signed && Activates(s.commitment, app.IdentityHash())
    ensures var app := ComputeTransition(kth, channels[multisig], params).value.1;
            exists c :: Signature(other, 0, c) in NodeOf(sys, events, p).verified
                        && c.ConditionalTransaction? && c.appIdentityHash == app.IdentityHash()
  {
    var plan := PlanOf(kth, channels, multisig, params).value;
    SignsFreeBalanceLast(sys, events, p, other, plan, channels, s);
    PlanCommits(kth, channels, multisig, params);
    assert Signature(other, 0, plan.conditional) in NodeOf(sys, events, p).verified;
  }

  /** In every run, a party's store is either untouched or has the new channel in place of the old, and in the
      second case the party has verified its counterparty's signatures on the conditional transaction and on
      exactly the free balance, version and timeout that it saved. */
  lemma SavesWhatIsSigned(sys: System, events: seq<Event>, p: Xpub, other: Xpub, plan: Plan, channels: Channels)
    requires Takes(sys, p, other, plan, channels)
    ensures var node := NodeOf(sys, events, p);
            || node.store == channels
            || (&& node.store == channels[plan.post.multisigAddress := plan.post]
                && Signature(other, 0, plan.conditional) in node.verified
                && Signature(other, 0, plan.freeBalance) in node.verified)
  {
    var script := sys.parties[p].script;
    SavesOnce(sys, events, p, if script[0].Receive? then 9 else 8);
    var node := NodeOf(sys, events, p);
    assert script[if script[0].Receive? then 7 else 5].Verify?;
    assert script[if script[0].Receive? then 1 else 3].Verify?;
  }


  lemma InitiatorSends(i: Xpub, r: Xpub, plan: Plan, n: nat, c: Commitment)
    requires plan.conditional.ConditionalTransaction? && c.SetStateCommitment?
    requires n <= |Initiating(r, plan)| && Signature(i, 0, c) in SentBy(i, Initiating(r, plan), n)
    ensures c == plan.freeBalance && n > 9
  {
    var k := SentAt(i, Initiating(r, plan), n, Signature(i, 0, c));
  }

  /** Between two honest parties, whatever each of them had stored: in every run the responder saves only
      after the initiator has, and then both have saved one and the same free balance. */
  lemma InitiatorSavesFirst(sys: System, events: seq<Event>, i: Xpub, planI: Plan, channelsI: Channels,
                            r: Xpub, planR: Plan, channelsR: Channels)
    requires Takes(sys, i, r, planI, channelsI) && sys.parties[i].script == Initiating(r, planI)
    requires Takes(sys, r, i, planR, channelsR) && sys.parties[r].script == Responding(i, planR)
    requires Signature(i, 0, planR.freeBalance) !in sys.known
    ensures NodeOf(sys, events, r).store != channelsR ==>
              && NodeOf(sys, events, i).store == channelsI[planI.post.multisigAddress := planI.post]
              && planI.freeBalance == planR.freeBalance
  {
    SavesOnce(sys, events, r, 9);
    SavesOnce(sys, events, i, 8);
    if NodeOf(sys, events, r).store != channelsR {
      assert sys.parties[r].script[7].Verify?;
      var k := VerifiedWasSent(sys, events, r, Signature(i, 0, planR.freeBalance));
      InitiatorSends(i, r, planI, NodeOf(sys, events, i).pc, planR.freeBalance);
    }
  }

  // ---- The signed commitments ----

  lemma InitiatorStores(other: Xpub, plan: Plan)
    ensures StoresPairs(Initiating(other, plan), other)
  {
    assert StoresPair(Initiating(other, plan), other, 0, 3, 4);
    assert StoresPair(Initiating(other, plan), other, 6, 5, 7);
  }

  lemma ResponderStores(other: Xpub, plan: Plan)
    ensures StoresPairs(Responding(other, plan), other)
  {
    assert StoresPair(Responding(other, plan), other, 2, 1, 3);
    assert StoresPair(Responding(other, plan), other, 4, 7, 8);
  }

  /** In every run, the only commitments a party stores are the conditional transaction and the free balance
      update, each properly signed by both parties, and in the same form whichever party stores it. */
  lemma StoresSignedCommitments(sys: System, events: seq<Event>, p: Xpub, other: Xpub, plan: Plan, channels: Channels, t: Stored)
    requires Takes(sys, p, other, plan, channels) && sys.keys.kth(p, 0) != sys.keys.kth(other, 0)
    requires t in NodeOf(sys, events, p).commitments
    ensures ProperlySigned(t.transaction)
    ensures (t.key, t.transaction.commitment) in {(ForInstall(plan.app), plan.conditional), (ForUpdate(plan.freeBalanceId), plan.freeBalance)}
    ensures t.transaction == Countersigned(sys.keys, t.transaction.commitment, p, other)
                          == Countersigned(sys.keys, t.transaction.commitment, other, p)
  {
    InitiatorStores(other, plan);
    ResponderStores(other, plan);
    var k := StoredIsCountersigned(sys, events, p, other, t);
  }

  /** A party that has come to the end has stored both. */
  lemma EndsWithBothStored(sys: System, events: seq<Event>, p: Xpub, other: Xpub, plan: Plan, channels: Channels)
    requires Takes(sys, p, other, plan, channels) && NodeOf(sys, events, p).pc == 11
    ensures var stored := NodeOf(sys, events, p).commitments;
            && Stored(ForInstall(plan.app), Countersigned(sys.keys, plan.conditional, p, other)) in stored
            && Stored(ForUpdate(plan.freeBalanceId), Countersigned(sys.keys, plan.freeBalance, p, other)) in stored
  {
    InitiatorStores(other, plan);
    ResponderStores(other, plan);
    var steps := if sys.parties[p].script[0].Receive? then (3, 8) else (4, 7);
    EachIsCountersigned(sys, events, p, other, steps.0);
    EachIsCountersigned(sys, events, p, other, steps.1);
  }

  // ---- From equal copies the protocol goes through ----

  ghost predicate BothTake(sys: System, i: Xpub, r: Xpub, plan: Plan, channelsI: Channels, channelsR: Channels) {
    && i != r && sys.parties.Keys == {i, r}
    && Takes(sys, i, r, plan, channelsI) && sys.parties[i].script == Initiating(r, plan)
    && Takes(sys, r, i, plan, channelsR) && sys.parties[r].script == Responding(i, plan)
  }

  lemma BothSignFirst(i: Xpub, r: Xpub, plan: Plan)
    ensures SignsFirst(Initiating(r, plan), 11) && SignsFirst(Responding(i, plan), 11)
  {
    assert Initiating(r, plan)[0].Sign? && Initiating(r, plan)[6].Sign?;
    AllSignFirst(Initiating(r, plan), 11);
    assert Responding(i, plan)[2].Sign? && Responding(i, plan)[4].Sign?;
    AllSignFirst(Responding(i, plan), 11);
  }

  lemma Passages(sys: System, i: Xpub, r: Xpub, plan: Plan, m1: Message, m2: Message, m3: Message)
    requires m1 == [Some(Signature(i, 0, plan.conditional))]
    requires m2 == [Some(Signature(r, 0, plan.conditional)), Some(Signature(r, 0, plan.freeBalance))]
    requires m3 == [Some(Signature(i, 0, plan.freeBalance))]
    ensures Passable(Initiating(r, plan), 0, 2, []) && Passable(Initiating(r, plan), 3, 10, [m2])
    ensures Passable(Responding(i, plan), 1, 6, [m1]) && Passable(Responding(i, plan), 7, 11, [m1, m3])
    ensures Within(m1, SentBy(i, Initiating(r, plan), 2)) && Within(m3, SentBy(i, Initiating(r, plan), 10))
    ensures Within(m2, SentBy(r, Responding(i, plan), 6))
  {
    AllPass(Initiating(r, plan), 0, 2, []);
    AllPass(Initiating(r, plan), 3, 10, [m2]);
    AllPass(Responding(i, plan), 1, 6, [m1]);
    AllPass(Responding(i, plan), 7, 11, [m1, m3]);
    SentOnce(i, Initiating(r, plan), 2, 1, Mine(0, plan.conditional));
    SentOnce(i, Initiating(r, plan), 10, 9, Mine(0, plan.freeBalance));
    SentOnce(r, Responding(i, plan), 6, 5, Mine(0, plan.conditional));
    SentOnce(r, Responding(i, plan), 6, 5, Mine(0, plan.freeBalance));
  }

  lemma Opening(sys: System, i: Xpub, r: Xpub, plan: Plan, channelsI: Channels, channelsR: Channels, m1: Message, m2: Message) returns (events: seq<Event>)
    requires BothTake(sys, i, r, plan, channelsI, channelsR)
    requires m1 == [Some(Signature(i, 0, plan.conditional))]
    requires m2 == [Some(Signature(r, 0, plan.conditional)), Some(Signature(r, 0, plan.freeBalance))]
    ensures Reached(sys, events, r, 6, [m1]) && Reached(sys, events, i, 3, [m2])
  {
    BothSignFirst(i, r, plan);
    Passages(sys, i, r, plan, m1, m2, [Some(Signature(i, 0, plan.freeBalance))]);
    events := Turn(sys, [], i, 0, 2, [], r, 0, [], m1);
    events := Turn(sys, events, r, 1, 6, [m1], i, 2, [], m2);
  }

  lemma Closing(sys: System, i: Xpub, r: Xpub, plan: Plan, channelsI: Channels, channelsR: Channels, m1: Message, m2: Message,
                opening: seq<Event>) returns (events: seq<Event>)
    requires BothTake(sys, i, r, plan, channelsI, channelsR)
    requires m1 == [Some(Signature(i, 0, plan.conditional))]
    requires m2 == [Some(Signature(r, 0, plan.conditional)), Some(Signature(r, 0, plan.freeBalance))]
    requires Reached(sys, opening, r, 6, [m1]) && Reached(sys, opening, i, 3, [m2])
    ensures exists inbox :: Reached(sys, events, r, 11, inbox)
    ensures exists inbox :: Reached(sys, events, i, 11, inbox)
  {
    var m3 := [Some(Signature(i, 0, plan.freeBalance))];
    BothSignFirst(i, r, plan);
    Passages(sys, i, r, plan, m1, m2, m3);
    events := Turn(sys, opening, i, 3, 10, [m2], r, 6, [m1], m3);
    events := Turn(sys, events, r, 7, 11, [m1, m3], i, 10, [m2], []);
  }

  /** A run in which both parties, who computed the same plan, get to the end, every check passing. */
  lemma Completes(sys: System, i: Xpub, r: Xpub, plan: Plan, channelsI: Channels, channelsR: Channels) returns (events: seq<Event>)
    requires BothTake(sys, i, r, plan, channelsI, channelsR)
    ensures var (nodeI, nodeR) := (NodeOf(sys, events, i), NodeOf(sys, events, r));
            && !nodeI.halted && nodeI.pc == 11 && nodeI.store == channelsI[plan.post.multisigAddress := plan.post]
            && !nodeR.halted && nodeR.pc == 11 && nodeR.store == channelsR[plan.post.multisigAddress := plan.post]
  {
    var m1 := [Some(Signature(i, 0, plan.conditional))];
    var m2 := [Some(Signature(r, 0, plan.conditional)), Some(Signature(r, 0, plan.freeBalance))];
    events := Opening(sys, i, r, plan, channelsI, channelsR, m1, m2);
    events := Closing(sys, i, r, plan, channelsI, channelsR, m1, m2, events);
    SavesOnce(sys, events, i, 8);
    SavesOnce(sys, events, r, 9);
  }
}
