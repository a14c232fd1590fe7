/** The withdraw protocol between two parties (engine/withdraw.ts): a refund app is installed, a withdrawal
    signed and the refund app uninstalled, in one exchange. */
module WithdrawProtocol {
  import opened AppInstances
  import opened Commitments
  import opened Dictionaries
  import opened Engine
  import opened FreeBalances
  import opened HonestRuns
  import opened LedgerRuns
  import opened Primitives
  import opened Results
  import opened StateChannels
  import opened StoredCommitments
  import opened VirtualApps
  import opened WithdrawTransitions

  /** What a party computes from its own copy: the channel with the refund app, which is never saved, the
      channel without it again, and the four commitments. */
  datatype Plan = Plan(
    withRefundApp: StateChannel,
    post: StateChannel,
    refundApp: Hash,
    freeBalanceId: Hash,
    conditional: Commitment,
    installing: Commitment,
    withdrawal: Commitment,
    uninstalling: Commitment)

  function WithdrawalCommitment(kth: Derivation, channel: StateChannel, p: WithdrawParams): Commitment {
    if p.tokenAddress == CONVENTION_FOR_ETH_TOKEN_ADDRESS
    then WithdrawETHCommitment(MultisigOwners(kth, channel), p.recipient, p.amount)
    else WithdrawERC20Commitment(MultisigOwners(kth, channel), p.recipient, p.amount, p.tokenAddress)
  }

  function PlanOf(kth: Derivation, channels: Channels, p: WithdrawParams, refundAppAddress: Address, other: Xpub): Result<Plan> {
    if p.multisigAddress !in channels then Err(NoChannel) else
    var pre := channels[p.multisigAddress];
    var otherAddress :- FreeBalanceAddrOf(kth, pre, other);
    var withRefundApp :- AddRefundApp(kth, pre, p, refundAppAddress);
    var refundApp :- MostRecentlyInstalledAppInstance(withRefundApp);
    var post :- RemoveRefundApp(withRefundApp);
    if withRefundApp.freeBalanceAppInstance.None? || post.freeBalanceAppInstance.None? then Err(NoFreeBalance) else
    Ok(Plan(withRefundApp, post, refundApp.IdentityHash(), withRefundApp.freeBalanceAppInstance.value.IdentityHash(),
            ConditionalTransactionFor(kth, withRefundApp, refundApp), FreeBalanceCommitment(withRefundApp),
            WithdrawalCommitment(kth, withRefundApp, p), FreeBalanceCommitment(post)))
  }

  function Initiating(other: Xpub, plan: Plan): Script {
    [ Sign(0, plan.conditional),
      Send(other, [Mine(0, plan.conditional)], 1),
      Receive,
      Verify(other, 0, plan.conditional, 0, 0),
      SetCommitment(ForInstall(plan.refundApp), plan.conditional, [Mine(0, plan.conditional), Received(0, 0)]),
      Verify(other, 0, plan.installing, 0, 1),
      Sign(0, plan.installing),
      SetCommitment(ForUpdate(plan.freeBalanceId), plan.installing, [Mine(0, plan.installing), Received(0, 1)]),
      Sign(0, plan.withdrawal),
      Send(other, [Mine(0, plan.installing), Mine(0, plan.withdrawal)]),
      Receive,
      Verify(other, 0, plan.withdrawal, 1, 0),
      Verify(other, 0, plan.uninstalling, 1, 1),
      Save(plan.post),
      Sign(0, plan.uninstalling),
      Send(other, [Mine(0, plan.uninstalling)]),
      Receive,
      SetCommitment(ForWithdrawal(plan.post.multisigAddress), plan.withdrawal, [Mine(0, plan.withdrawal), Received(1, 0)]),
      SetCommitment(ForUpdate(plan.freeBalanceId), plan.uninstalling, [Mine(0, plan.uninstalling), Received(1, 1)]) ]
  }

  function Responding(other: Xpub, plan: Plan): Script {
    [ Receive,
      Verify(other, 0, plan.conditional, 0, 0),
      Sign(0, plan.conditional),
      SetCommitment(ForInstall(plan.refundApp), plan.conditional, [Mine(0, plan.conditional), Received(0, 0)]),
      Sign(0, plan.installing),
      Send(other, [Mine(0, plan.conditional), Mine(0, plan.installing)]),
      Receive,
      Verify(other, 0, plan.installing, 1, 0),
      SetCommitment(ForUpdate(plan.freeBalanceId), plan.installing, [Mine(0, plan.installing), Received(1, 0)]),
      Verify(other, 0, plan.withdrawal, 1, 1),
      Sign(0, plan.withdrawal),
      SetCommitment(ForWithdrawal(plan.post.multisigAddress), plan.withdrawal, [Mine(0, plan.withdrawal), Received(1, 1)]),
      Sign(0, plan.uninstalling),
      Send(other, [Mine(0, plan.withdrawal), Mine(0, plan.uninstalling)]),
      Receive,
      Verify(other, 0, plan.uninstalling, 2, 0),
      Save(plan.post),
      SetCommitment(ForUpdate(plan.freeBalanceId), plan.uninstalling, [Mine(0, plan.uninstalling), Received(2, 0)]),
      Send(other, []) ]
  }

  predicate Shaped(plan: Plan) {
    && plan.conditional.ConditionalTransaction?
    && plan.installing.SetStateCommitment? && plan.uninstalling.SetStateCommitment?
    && (plan.withdrawal.WithdrawETHCommitment? || plan.withdrawal.WithdrawERC20Commitment?)
    && plan.installing.versionNumber != plan.uninstalling.versionNumber
  }

  /** An honest party in either role. */
  predicate Takes(sys: System, p: Xpub, other: Xpub, plan: Plan, channels: Channels) {
    && p in sys.parties && Shaped(plan)
    && (sys.parties[p] == Party(Initiating(other, plan), channels) || sys.parties[p] == Party(Responding(other, plan), channels))
  }

  /** The conditional transaction commits to the refund app, the first update activates it and the second, two
      versions later, does not any more. */
  lemma PlanCommits(kth: Derivation, l: Ledger, channels: Channels, p: WithdrawParams, refundAppAddress: Address, other: Xpub)
    requires PlanOf(kth, channels, p, refundAppAddress, other).Ok? && channels[p.multisigAddress] == l.channel
    requires Valid(l) && KeysDetermined(kth, l.channel)
    ensures var plan := PlanOf(kth, channels, p, refundAppAddress, other).value;
            var refundApp := RefundApp(kth, l.channel, p, refundAppAddress);
            && Shaped(plan)
            && plan.conditional.appIdentityHash == refundApp.IdentityHash()
            && Activates(plan.installing, refundApp.IdentityHash()) && !Activates(plan.uninstalling, refundApp.IdentityHash())
            && plan.uninstalling.versionNumber == plan.installing.versionNumber + 2
  {
    var withRefundApp := AddRefundApp(kth, l.channel, p, refundAppAddress).value;
    RefundAppSpec(kth, l.channel, p, refundAppAddress);
    RefundAppIsMostRecentAnyway(kth, l.channel, p, refundAppAddress);
    var h := RefundApp(kth, l.channel, p, refundAppAddress).IdentityHash();
    var uninstalling := withRefundApp.(appInstances := Delete(withRefundApp.appInstances, h));
    assert GetFreeBalance(uninstalling) == GetFreeBalance(withRefundApp);
    RemoveActiveSpec(uninstalling, h, Nil);
  }

  // ---- What the withdrawal pays ----

  /** What a withdrawal transaction pays out of a multisig with these owners. */
  datatype Payout = Payout(owners: seq<Address>, to: Address, token: Token, amount: int)

  function PaysOut(c: Commitment): Option<Payout> {
    match c
    case WithdrawETHCommitment(owners, to, amount) => Some(Payout(owners, to, CONVENTION_FOR_ETH_TOKEN_ADDRESS, amount))
    case WithdrawERC20Commitment(owners, to, amount, token) => Some(Payout(owners, to, token, amount))
    case _ => None
  }

  /** The withdrawal pays the amount asked for, in the token asked for, to the recipient, out of the multisig of the
      channel's owners. It is an ETH transfer exactly for the address that stands for ETH. */
  lemma WithdrawalPays(kth: Derivation, channels: Channels, p: WithdrawParams, refundAppAddress: Address, other: Xpub)
    requires PlanOf(kth, channels, p, refundAppAddress, other).Ok?
    ensures var withdrawal := PlanOf(kth, channels, p, refundAppAddress, other).value.withdrawal;
            && PaysOut(withdrawal) == Some(Payout(owners := SortedKthAddresses(kth, channels[p.multisigAddress].userNeuteredExtendedKeys, 0),
                                                  to := p.recipient, token := p.tokenAddress, amount := p.amount))
            && (withdrawal.WithdrawETHCommitment? <==> p.tokenAddress == CONVENTION_FOR_ETH_TOKEN_ADDRESS)
            && (withdrawal.WithdrawERC20Commitment? <==> p.tokenAddress != CONVENTION_FOR_ETH_TOKEN_ADDRESS)
  {
    RefundAppSpec(kth, channels[p.multisigAddress], p, refundAppAddress);
  }

  /** The other commitments: the conditional transaction pays the refund app's outcome in the token asked for, and the two
      updates are on the free balances with the refund app and without it again. */
  lemma PlanContents(kth: Derivation, l: Ledger, channels: Channels, p: WithdrawParams, refundAppAddress: Address, other: Xpub)
    requires PlanOf(kth, channels, p, refundAppAddress, other).Ok? && channels[p.multisigAddress] == l.channel
    requires Valid(l) && KeysDetermined(kth, l.channel)
    ensures var (pre, plan) := (l.channel, PlanOf(kth, channels, p, refundAppAddress, other).value);
            && plan.freeBalanceId == pre.freeBalanceAppInstance.value.IdentityHash()
            && plan.conditional == ConditionalTransaction(SortedKthAddresses(kth, pre.userNeuteredExtendedKeys, 0), plan.refundApp, plan.freeBalanceId,
                                                          OfApp(SINGLE_ASSET_TWO_PARTY_COIN_TRANSFER, SingleAsset(SingleAssetParams(MAX_UINT256, p.tokenAddress))))
            && plan.refundApp == AppHash(pre.monotonicNumProposedApps, SigningKeysFor(kth, pre, pre.monotonicNumProposedApps))
            && Has(plan.withRefundApp.appInstances, plan.refundApp)
            && Lookup(plan.withRefundApp.appInstances, plan.refundApp).value.latestState == RefundState(p.recipient, p.multisigAddress, p.amount, None)
            && OnFreeBalanceOf(plan.installing, plan.withRefundApp) && plan.installing.versionNumber == FreeBalanceVersion(pre) + 2
            && OnFreeBalanceOf(plan.uninstalling, plan.post) && plan.uninstalling.versionNumber == FreeBalanceVersion(pre) + 4
  {
    var withRefundApp := AddRefundApp(kth, l.channel, p, refundAppAddress).value;
    RefundAppSpec(kth, l.channel, p, refundAppAddress);
    RefundAppIsMostRecentAnyway(kth, l.channel, p, refundAppAddress);
    var h := RefundApp(kth, l.channel, p, refundAppAddress).IdentityHash();
    var uninstalling := withRefundApp.(appInstances := Delete(withRefundApp.appInstances, h));
    assert GetFreeBalance(uninstalling) == GetFreeBalance(withRefundApp);
    RemoveActiveSpec(uninstalling, h, Nil);
    CommitsToFreeBalance(withRefundApp);
    CommitsToFreeBalance(RemoveRefundApp(withRefundApp).value);
  }

  /** What the signed transaction takes out of the multisig is exactly what the saved channel has lost: so much of this
      token, out of the initiator's balance, and nothing else. */
  lemma PaysWhatIsLost(kth: Derivation, l: Ledger, channels: Channels, p: WithdrawParams, refundAppAddress: Address, other: Xpub)
    requires PlanOf(kth, channels, p, refundAppAddress, other).Ok? && channels[p.multisigAddress] == l.channel
    requires Valid(l) && RefundNumberFree(l.channel)
    requires !Has(l.channel.agreements, RefundApp(kth, l.channel, p, refundAppAddress).IdentityHash())
    ensures var plan := PlanOf(kth, channels, p, refundAppAddress, other).value;
            && PaysOut(plan.withdrawal).Some? && GetFreeBalance(plan.post).Ok?
            && var paid := PaysOut(plan.withdrawal).value;
               && paid.to == p.recipient && paid.owners == SortedKthAddresses(kth, l.channel.userNeuteredExtendedKeys, 0)
               && forall t, to :: Balance(View(plan.post).balances, t, to) ==
                    Balance(View(l.channel).balances, t, to) - if t == paid.token && to == kth(p.initiatorXpub, 0) then paid.amount else 0
  {
    WithdrawEndToEnd(kth, l, p, refundAppAddress);
    WithdrawalPays(kth, channels, p, refundAppAddress, other);
  }

  /** The counterparty signed the conditional transaction before s was signed, and, unless s is the initiator's
      or on an earlier step, the update that puts the refund app in as well. */
  ghost predicate Ordered(plan: Plan, other: Xpub, s: Signature, verified: set<Signature>) {
    && (s.commitment.SetStateCommitment? ==> Signature(other, 0, plan.conditional) in verified)
    && (s.commitment in {plan.withdrawal, plan.uninstalling} ==>
          Signature(other, 0, plan.conditional) in verified && Signature(other, 0, plan.installing) in verified)
  }

  lemma InitiatorOrder(p: Xpub, other: Xpub, plan: Plan, n: nat, s: Signature)
    requires Shaped(plan) && n <= |Initiating(other, plan)| && s in SignedBy(p, Initiating(other, plan), n)
    ensures Ordered(plan, other, s, VerifiedBy(Initiating(other, plan), n))
  {
    var script := Initiating(other, plan);
    var k := SignedAt(p, script, n, s);
    assert k in {0, 6, 8, 14};
    if k > 0 {
      VerifiedOnce(script, n, 3);
      VerifiedOnce(script, n, 5);
    }
  }

  lemma ResponderOrder(p: Xpub, other: Xpub, plan: Plan, n: nat, s: Signature)
    requires Shaped(plan) && n <= |Responding(other, plan)| && s in SignedBy(p, Responding(other, plan), n)
    ensures Ordered(plan, other, s, VerifiedBy(Responding(other, plan), n))
  {
    var script := Responding(other, plan);
    var k := SignedAt(p, script, n, s);
    assert k in {2, 4, 10, 12};
    VerifiedOnce(script, n, 1);
    if k >= 10 {
      VerifiedOnce(script, n, 7);
    }
  }

  /** In every run, a party that has signed any free balance update has verified its counterparty's signature on
      the refund app's conditional transaction; and a party that has signed the withdrawal, or the update
      that takes the refund app out again, has also verified the counterparty's signature on the update
      that puts it in. */
  lemma SignsFreeBalanceLast(sys: System, events: seq<Event>, p: Xpub, other: Xpub, plan: Plan, channels: Channels, s: Signature)
    requires Takes(sys, p, other, plan, channels) && s in NodeOf(sys, events, p).signed
    ensures Ordered(plan, other, s, NodeOf(sys, events, p).verified)
  {
    RunOk(sys, events);
    assert NodeOk(p, sys.parties[p], NodeOf(sys, events, p));
    if sys.parties[p].script == Initiating(other, plan) {
      InitiatorOrder(p, other, plan, NodeOf(sys, events, p).pc, s);
    } else {
      ResponderOrder(p, other, plan, NodeOf(sys, events, p).pc, s);
    }
  }

  /** In every run, a party's store is untouched, or has the final channel in place of the old: the channel with
      the refund app is never stored. By then the party has verified its counterparty's signatures on all
      four commitments, the last of them on exactly the free balance that it saved. */
  lemma SavesWhatIsSigned(sys: System, events: seq<Event>, p: Xpub, other: Xpub, plan: Plan, channels: Channels)
    requires Takes(sys, p, other, plan, channels)
    ensures var node := NodeOf(sys, events, p);
            || node.store == channels
            || (&& node.store == channels[plan.post.multisigAddress := plan.post]
                && forall c :: c in {plan.conditional, plan.installing, plan.withdrawal, plan.uninstalling} ==> Signature(other, 0, c) in node.verified)
  {
    var script := sys.parties[p].script;
    if script == Initiating(other, plan) {
      SavesOnce(sys, events, p, 13);
      assert script[3].Verify? && script[5].Verify? && script[11].Verify? && script[12].Verify?;
    } else {
      SavesOnce(sys, events, p, 16);
      assert script[1].Verify? && script[7].Verify? && script[9].Verify? && script[15].Verify?;
    }
  }

  lemma InitiatorSends(i: Xpub, r: Xpub, plan: Plan, n: nat, c: Commitment)
    requires Shaped(plan) && c.SetStateCommitment?
    requires n <= |Initiating(r, plan)| && Signature(i, 0, c) in SentBy(i, Initiating(r, plan), n)
    ensures c in {plan.installing, plan.uninstalling}
    ensures c != plan.installing ==> n > 15
  {
    var k := SentAt(i, Initiating(r, plan), n, Signature(i, 0, c));
  }

  /** Between two honest parties, whatever each of them had stored, unless the initiator's first update is just what the
      responder takes for the second: in every run the responder saves only after the initiator has, and then both
      have saved one and the same free balance. */
  lemma InitiatorSavesFirst(sys: System, events: seq<Event>, i: Xpub, planI: Plan, channelsI: Channels,
                            r: Xpub, planR: Plan, channelsR: Channels)
    requires Takes(sys, i, r, planI, channelsI) && sys.parties[i].script == Initiating(r, planI)
    requires Takes(sys, r, i, planR, channelsR) && sys.parties[r].script == Responding(i, planR)
    requires planI.installing != planR.uninstalling
    requires Signature(i, 0, planR.uninstalling) !in sys.known
    ensures NodeOf(sys, events, r).store != channelsR ==>
              && NodeOf(sys, events, i).store == channelsI[planI.post.multisigAddress := planI.post]
              && planI.uninstalling == planR.uninstalling
  {
    SavesOnce(sys, events, r, 16);
    SavesOnce(sys, events, i, 13);
    if NodeOf(sys, events, r).store != channelsR {
      assert sys.parties[r].script[15].Verify?;
      var k := VerifiedWasSent(sys, events, r, Signature(i, 0, planR.uninstalling));
      InitiatorSends(i, r, planI, NodeOf(sys, events, i).pc, planR.uninstalling);
    }
  }

  // ---- The signed commitments ----

  lemma InitiatorStores(other: Xpub, plan: Plan)
    ensures StoresPairs(Initiating(other, plan), other)
  {
    assert StoresPair(Initiating(other, plan), other, 0, 3, 4);
    assert StoresPair(Initiating(other, plan), other, 6, 5, 7);
    assert StoresPair(Initiating(other, plan), other, 8, 11, 17);
    assert StoresPair(Initiating(other, plan), other, 14, 12, 18);
  }

  lemma ResponderStores(other: Xpub, plan: Plan)
    ensures StoresPairs(Responding(other, plan), other)
  {
    assert StoresPair(Responding(other, plan), other, 2, 1, 3);
    assert StoresPair(Responding(other, plan), other, 4, 7, 8);
    assert StoresPair(Responding(other, plan), other, 10, 9, 11);
    assert StoresPair(Responding(other, plan), other, 12, 15, 17);
  }

  /** In every run, what a party stores is one of the four commitments, properly signed by both parties, and in
      the same form whichever party stores it. */
  lemma StoresSignedCommitments(sys: System, events: seq<Event>, p: Xpub, other: Xpub, plan: Plan, channels: Channels, t: Stored)
    requires Takes(sys, p, other, plan, channels) && sys.keys.kth(p, 0) != sys.keys.kth(other, 0)
    requires t in NodeOf(sys, events, p).commitments
    ensures ProperlySigned(t.transaction)
    ensures (t.key, t.transaction.commitment) in {(ForInstall(plan.refundApp), plan.conditional), (ForUpdate(plan.freeBalanceId), plan.installing),
                                                  (ForWithdrawal(plan.post.multisigAddress), plan.withdrawal),
                                                  (ForUpdate(plan.freeBalanceId), plan.uninstalling)}
    ensures t.transaction == Countersigned(sys.keys, t.transaction.commitment, p, other)
                          == Countersigned(sys.keys, t.transaction.commitment, other, p)
  {
    InitiatorStores(other, plan);
    ResponderStores(other, plan);
    var k := StoredIsCountersigned(sys, events, p, other, t);
  }

  // ---- From equal copies the protocol goes through ----

  ghost predicate BothTake(sys: System, i: Xpub, r: Xpub, plan: Plan, channelsI: Channels, channelsR: Channels) {
    && i != r && sys.parties.Keys == {i, r}
    && Takes(sys, i, r, plan, channelsI) && sys.parties[i].script == Initiating(r, plan)
    && Takes(sys, r, i, plan, channelsR) && sys.parties[r].script == Responding(i, plan)
  }

  lemma InitiatorSignsFirst(r: Xpub, plan: Plan)
    ensures SignsFirst(Initiating(r, plan), 19)
  {
    var script := Initiating(r, plan);
    assert script[0].Sign? && script[6].Sign? && script[8].Sign? && script[14].Sign?;
    AllSignFirst(script, 19);
  }

  lemma ResponderSignsFirst(i: Xpub, plan: Plan)
    ensures SignsFirst(Responding(i, plan), 19)
  {
    var script := Responding(i, plan);
    assert script[2].Sign? && script[4].Sign? && script[10].Sign? && script[12].Sign?;
    AllSignFirst(script, 19);
  }

  /** The six messages. */
  function InitiatorsMessages(i: Xpub, plan: Plan): seq<Message> {
    [ [Some(Signature(i, 0, plan.conditional))],
      [Some(Signature(i, 0, plan.installing)), Some(Signature(i, 0, plan.withdrawal))],
      [Some(Signature(i, 0, plan.uninstalling))] ]
  }

  function RespondersMessages(r: Xpub, plan: Plan): seq<Message> {
    [ [Some(Signature(r, 0, plan.conditional)), Some(Signature(r, 0, plan.installing))],
      [Some(Signature(r, 0, plan.withdrawal)), Some(Signature(r, 0, plan.uninstalling))],
      [] ]
  }

  lemma InitiatorPasses(i: Xpub, r: Xpub, plan: Plan)
    ensures var (script, box, out) := (Initiating(r, plan), RespondersMessages(r, plan), InitiatorsMessages(i, plan));
            && Passable(script, 0, 2, []) && Passable(script, 3, 10, box[..1])
            && Passable(script, 11, 16, box[..2]) && Passable(script, 17, 19, box)
            && Within(out[0], SentBy(i, script, 2)) && Within(out[1], SentBy(i, script, 10)) && Within(out[2], SentBy(i, script, 16))
  {
    var script, box := Initiating(r, plan), RespondersMessages(r, plan);
    AllPass(script, 0, 2, []);
    AllPass(script, 3, 10, box[..1]);
    AllPass(script, 11, 16, box[..2]);
    AllPass(script, 17, 19, box);
    SentOnce(i, script, 2, 1, Mine(0, plan.conditional));
    SentOnce(i, script, 10, 9, Mine(0, plan.installing));
    SentOnce(i, script, 10, 9, Mine(0, plan.withdrawal));
    SentOnce(i, script, 16, 15, Mine(0, plan.uninstalling));
  }

  lemma ResponderPasses(i: Xpub, r: Xpub, plan: Plan)
    ensures var (script, box, out) := (Responding(i, plan), InitiatorsMessages(i, plan), RespondersMessages(r, plan));
            && Passable(script, 1, 6, box[..1]) && Passable(script, 7, 14, box[..2]) && Passable(script, 15, 19, box)
            && Within(out[0], SentBy(r, script, 6)) && Within(out[1], SentBy(r, script, 14))
  {
    var script, box := Responding(i, plan), InitiatorsMessages(i, plan);
    AllPass(script, 1, 6, box[..1]);
    AllPass(script, 7, 14, box[..2]);
    AllPass(script, 15, 19, box);
    SentOnce(r, script, 6, 5, Mine(0, plan.conditional));
    SentOnce(r, script, 6, 5, Mine(0, plan.installing));
    SentOnce(r, script, 14, 13, Mine(0, plan.withdrawal));
    SentOnce(r, script, 14, 13, Mine(0, plan.uninstalling));
  }

  lemma Opening(sys: System, i: Xpub, r: Xpub, plan: Plan, channelsI: Channels, channelsR: Channels) returns (events: seq<Event>)
    requires BothTake(sys, i, r, plan, channelsI, channelsR)
    ensures Reached(sys, events, i, 3, RespondersMessages(r, plan)[..1]) && Reached(sys, events, r, 6, InitiatorsMessages(i, plan)[..1])
  {
    InitiatorSignsFirst(r, plan);
    ResponderSignsFirst(i, plan);
    InitiatorPasses(i, r, plan);
    ResponderPasses(i, r, plan);
    var mine, theirs := InitiatorsMessages(i, plan), RespondersMessages(r, plan);
    assert mine[..1] == [] + [mine[0]] && theirs[..1] == [] + [theirs[0]];
    events := Turn(sys, [], i, 0, 2, [], r, 0, [], mine[0]);
    events := Turn(sys, events, r, 1, 6, mine[..1], i, 2, [], theirs[0]);
  }

  lemma Middle(sys: System, i: Xpub, r: Xpub, plan: Plan, channelsI: Channels, channelsR: Channels, opening: seq<Event>) returns (events: seq<Event>)
    requires BothTake(sys, i, r, plan, channelsI, channelsR)
    requires Reached(sys, opening, i, 3, RespondersMessages(r, plan)[..1]) && Reached(sys, opening, r, 6, InitiatorsMessages(i, plan)[..1])
    ensures Reached(sys, events, i, 11, RespondersMessages(r, plan)[..2]) && Reached(sys, events, r, 14, InitiatorsMessages(i, plan)[..2])
  {
    InitiatorSignsFirst(r, plan);
    ResponderSignsFirst(i, plan);
    InitiatorPasses(i, r, plan);
    ResponderPasses(i, r, plan);
    var mine, theirs := InitiatorsMessages(i, plan), RespondersMessages(r, plan);
    assert mine[..2] == mine[..1] + [mine[1]] && theirs[..2] == theirs[..1] + [theirs[1]];
    events := Turn(sys, opening, i, 3, 10, theirs[..1], r, 6, mine[..1], mine[1]);
    events := Turn(sys, events, r, 7, 14, mine[..2], i, 10, theirs[..1], theirs[1]);
  }

  lemma Closing(sys: System, i: Xpub, r: Xpub, plan: Plan, channelsI: Channels, channelsR: Channels, middle: seq<Event>) returns (events: seq<Event>)
    requires BothTake(sys, i, r, plan, channelsI, channelsR)
    requires Reached(sys, middle, i, 11, RespondersMessages(r, plan)[..2]) && Reached(sys, middle, r, 14, InitiatorsMessages(i, plan)[..2])
    ensures Reached(sys, events, i, 19, RespondersMessages(r, plan)) && Reached(sys, events, r, 19, InitiatorsMessages(i, plan))
  {
    InitiatorSignsFirst(r, plan);
    ResponderSignsFirst(i, plan);
    InitiatorPasses(i, r, plan);
    ResponderPasses(i, r, plan);
    var mine, theirs := InitiatorsMessages(i, plan), RespondersMessages(r, plan);
    assert mine == mine[..2] + [mine[2]] && theirs == theirs[..2] + [theirs[2]];
    events := Turn(sys, middle, i, 11, 16, theirs[..2], r, 14, mine[..2], mine[2]);
    events := Turn(sys, events, r, 15, 19, mine, i, 16, theirs[..2], theirs[2]);
    events := Proceed(sys, events, i, 17, 19, theirs);
    assert Reached(sys, events, r, 19, mine);
  }

  /** A run in which both parties, who computed the same plan, get to the end, every check passing. */
  lemma Completes(sys: System, i: Xpub, r: Xpub, plan: Plan, channelsI: Channels, channelsR: Channels) returns (events: seq<Event>)
    requires BothTake(sys, i, r, plan, channelsI, channelsR)
    ensures var (nodeI, nodeR) := (NodeOf(sys, events, i), NodeOf(sys, events, r));
            && !nodeI.halted && nodeI.pc == 19 && nodeI.store == channelsI[plan.post.multisigAddress := plan.post]
            && !nodeR.halted && nodeR.pc == 19 && nodeR.store == channelsR[plan.post.multisigAddress := plan.post]
  {
    events := Opening(sys, i, r, plan, channelsI, channelsR);
    events := Middle(sys, i, r, plan, channelsI, channelsR, events);
    events := Closing(sys, i, r, plan, channelsI, channelsR, events);
    SavesOnce(sys, events, i, 13);
    SavesOnce(sys, events, r, 16);
  }

  /** What a party has stored when it has come to the end: all four, each signed by both. */
  ghost predicate AllStored(keys: Keys, p: Xpub, other: Xpub, plan: Plan, stored: set<Stored>) {
    && Stored(ForInstall(plan.refundApp), Countersigned(keys, plan.conditional, p, other)) in stored
    && Stored(ForUpdate(plan.freeBalanceId), Countersigned(keys, plan.installing, p, other)) in stored
    && Stored(ForWithdrawal(plan.post.multisigAddress), Countersigned(keys, plan.withdrawal, p, other)) in stored
    && Stored(ForUpdate(plan.freeBalanceId), Countersigned(keys, plan.uninstalling, p, other)) in stored
  }

  lemma InitiatorEnds(sys: System, events: seq<Event>, p: Xpub, other: Xpub, plan: Plan, channels: Channels)
    requires Takes(sys, p, other, plan, channels) && sys.parties[p].script == Initiating(other, plan) && NodeOf(sys, events, p).pc == 19
    ensures AllStored(sys.keys, p, other, plan, NodeOf(sys, events, p).commitments)
  {
    InitiatorStores(other, plan);
    EachIsCountersigned(sys, events, p, other, 4);
    EachIsCountersigned(sys, events, p, other, 7);
    EachIsCountersigned(sys, events, p, other, 17);
    EachIsCountersigned(sys, events, p, other, 18);
  }

  lemma ResponderEndsWith(sys: System, events: seq<Event>, p: Xpub, other: Xpub, plan: Plan, k: nat)
    requires p in sys.parties && sys.parties[p].script == Responding(other, plan) && NodeOf(sys, events, p).pc == 19
    requires k < 19 && Responding(other, plan)[k].SetCommitment?
    ensures Stored(Responding(other, plan)[k].key, Countersigned(sys.keys, Responding(other, plan)[k].commitment, p, other))
            in NodeOf(sys, events, p).commitments
  {
    ResponderStores(other, plan);
    EachIsCountersigned(sys, events, p, other, k);
  }

  lemma ResponderEnds(sys: System, events: seq<Event>, p: Xpub, other: Xpub, plan: Plan, channels: Channels)
    requires Takes(sys, p, other, plan, channels) && sys.parties[p].script == Responding(other, plan) && NodeOf(sys, events, p).pc == 19
    ensures AllStored(sys.keys, p, other, plan, NodeOf(sys, events, p).commitments)
  {
    ResponderEndsWith(sys, events, p, other, plan, 3);
    ResponderEndsWith(sys, events, p, other, plan, 8);
    ResponderEndsWith(sys, events, p, other, plan, 11);
    ResponderEndsWith(sys, events, p, other, plan, 17);
  }

  /** From equal copies a withdrawal can be completed. Then both parties have stored one and the same transaction, signed
      by both, that pays out of their multisig what was asked for; and both have saved the channel that has lost
      exactly what it pays. */
  lemma WithdrawalCompletes(l: Ledger, sys: System, p: WithdrawParams, refundAppAddress: Address, channelsI: Channels, channelsR: Channels)
      returns (events: seq<Event>)
    requires PlanOf(sys.keys.kth, channelsI, p, refundAppAddress, p.responderXpub).Ok? && channelsI[p.multisigAddress] == l.channel
    requires BothTake(sys, p.initiatorXpub, p.responderXpub, PlanOf(sys.keys.kth, channelsI, p, refundAppAddress, p.responderXpub).value, channelsI, channelsR)
    requires sys.keys.kth(p.initiatorXpub, 0) != sys.keys.kth(p.responderXpub, 0)
    requires Valid(l) && RefundNumberFree(l.channel)
    requires !Has(l.channel.agreements, RefundApp(sys.keys.kth, l.channel, p, refundAppAddress).IdentityHash())
    ensures var post := PlanOf(sys.keys.kth, channelsI, p, refundAppAddress, p.responderXpub).value.post;
            && NodeOf(sys, events, p.initiatorXpub).store == channelsI[post.multisigAddress := post]
            && NodeOf(sys, events, p.responderXpub).store == channelsR[post.multisigAddress := post]
            && GetFreeBalance(post).Ok?
            && exists t: SignedTransaction ::
                 && Stored(ForWithdrawal(post.multisigAddress), t) in NodeOf(sys, events, p.initiatorXpub).commitments
                 && Stored(ForWithdrawal(post.multisigAddress), t) in NodeOf(sys, events, p.responderXpub).commitments
                 && ProperlySigned(t) && PaysOut(t.commitment).Some?
                 && Withdrawn(sys.keys.kth, l.channel, post, p, PaysOut(t.commitment).value)
  {
    var plan := PlanOf(sys.keys.kth, channelsI, p, refundAppAddress, p.responderXpub).value;
    var t := Countersigned(sys.keys, plan.withdrawal, p.initiatorXpub, p.responderXpub);
    events := Completes(sys, p.initiatorXpub, p.responderXpub, plan, channelsI, channelsR);
    InitiatorEnds(sys, events, p.initiatorXpub, p.responderXpub, plan, channelsI);
    ResponderEnds(sys, events, p.responderXpub, p.initiatorXpub, plan, channelsR);
    CountersignedAlike(sys.keys, plan.withdrawal, p.initiatorXpub, p.responderXpub);
    PaysWhatIsLost(sys.keys.kth, l, channelsI, p, refundAppAddress, p.responderXpub);
    WithdrawalPays(sys.keys.kth, channelsI, p, refundAppAddress, p.responderXpub);
    assert Stored(ForWithdrawal(plan.post.multisigAddress), t) in NodeOf(sys, events, p.initiatorXpub).commitments;
  }

  /** What was paid out is what was asked for, and has left the initiator's balance. */
  ghost predicate Withdrawn(kth: Derivation, before: StateChannel, after: StateChannel, p: WithdrawParams, paid: Payout) {
    && GetFreeBalance(before).Ok? && GetFreeBalance(after).Ok?
    && paid == Payout(SortedKthAddresses(kth, before.userNeuteredExtendedKeys, 0), p.recipient, p.tokenAddress, p.amount)
    && forall t, to :: Balance(View(after).balances, t, to) ==
         Balance(View(before).balances, t, to) - if t == paid.token && to == kth(p.initiatorXpub, 0) then paid.amount else 0
  }
}
