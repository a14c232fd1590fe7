/** Ordinary runs of a channel after which a withdrawal or a deposit takes a live app along, or an install commits to
    the wrong app. */
module LedgerExamples {
  import opened Amounts
  import opened AppInstances
  import opened Commitments
  import opened Deposits
  import opened Dictionaries
  import opened FreeBalances
  import opened InstallTransitions
  import opened LedgerRuns
  import opened Outcomes
  import opened Primitives
  import opened Results
  import opened Sorting
  import opened StateChannels
  import opened VirtualExamples
  import opened WithdrawTransitions
  import Installs = InstallProtocol

  const TOKEN: Token := CONVENTION_FOR_ETH_TOKEN_ADDRESS
  const APP_ADDRESS: Address := 7
  const REFUND_ADDRESS: Address := 8

  /** A channel of two parties in which the first has deposited ten. */
  function Start(kth: Derivation, a: Xpub, b: Xpub): Ledger {
    Ledger(Funded(kth, a, b, TOKEN, 10, 0), Nil)
  }

  lemma StartValid(kth: Derivation, a: Xpub, b: Xpub)
    requires kth(a, 0) != kth(b, 0)
    ensures Valid(Start(kth, a, b)) && Start(kth, a, b).channel.monotonicNumProposedApps == 1
  {
    FundedAffords(kth, a, b, TOKEN, 10, 0);
  }

  /** An app with number n in which nothing is locked, and its proposal. */
  function AppOf(kth: Derivation, a: Xpub, b: Xpub, n: nat): AppInstance {
    AppInstance(SortedKthAddresses(kth, [a, b], n), 100, AppInterface(APP_ADDRESS, "", None), false, n, OtherState([]), 0, 100,
                SINGLE_ASSET_TWO_PARTY_COIN_TRANSFER, SingleAsset(SingleAssetParams(0, TOKEN)))
  }

  function ProposalOf(kth: Derivation, a: Xpub, b: Xpub, n: nat): Proposal {
    var app := AppOf(kth, a, b, n);
    Proposal(app.IdentityHash(), n, app.appInterface, app.latestState, app.outcomeType, app.defaultTimeout, 0, TOKEN, 0, TOKEN, a, b)
  }

  /** A valid channel of these parties, of which the first has ten, with this counter and these apps. */
  ghost predicate Holds(kth: Derivation, a: Xpub, b: Xpub, l: Ledger, counter: nat, numbers: set<nat>) {
    && Valid(l) && KeysDetermined(kth, l.channel)
    && l.channel.userNeuteredExtendedKeys == [a, b] && l.channel.monotonicNumProposedApps == counter && l.channel.agreements == Nil
    && l.channel.freeBalanceAppInstance.Some? && l.channel.freeBalanceAppInstance.value.participants == SortedKthAddresses(kth, [a, b], 0)
    && Balance(View(l.channel).balances, TOKEN, kth(a, 0)) == 10
    && (forall n :: n in numbers ==> Lookup(l.channel.appInstances, AppOf(kth, a, b, n).IdentityHash()) == Some(AppOf(kth, a, b, n)))
    && (forall h :: Has(l.channel.appInstances, h) ==>
          Lookup(l.channel.appInstances, h).value.appSeqNo in numbers && Lookup(l.channel.appInstances, h).value.appInterface.addr == APP_ADDRESS)
  }

  lemma StartHolds(kth: Derivation, a: Xpub, b: Xpub)
    requires kth(a, 0) != kth(b, 0)
    ensures Holds(kth, a, b, Start(kth, a, b), 1, {})
  {
    StartValid(kth, a, b);
    FundedBalance(kth, a, b);
  }

  lemma FundedBalance(kth: Derivation, a: Xpub, b: Xpub)
    requires kth(a, 0) != kth(b, 0)
    ensures GetFreeBalance(Start(kth, a, b).channel).Ok? && Balance(View(Start(kth, a, b).channel).balances, TOKEN, kth(a, 0)) == 10
  {
    EntriesRoundTrip(Pair(kth(a, 0), 10, kth(b, 0), 0));
  }

  lemma ProposeHolds(kth: Derivation, a: Xpub, b: Xpub, l: Ledger, counter: nat, numbers: set<nat>)
    requires Holds(kth, a, b, l, counter, numbers)
    ensures Holds(kth, a, b, Step(kth, l, Propose(ProposalOf(kth, a, b, counter + 1))), counter + 1, numbers)
  {
    var op := Propose(ProposalOf(kth, a, b, counter + 1));
    StepKeepsValid(kth, l, op);
  }

  lemma InstallHolds(kth: Derivation, a: Xpub, b: Xpub, l: Ledger, counter: nat, numbers: set<nat>, n: nat)
    requires Holds(kth, a, b, l, counter, numbers) && n <= counter && n !in numbers
    ensures Apply(kth, l.channel, Install(AppOf(kth, a, b, n), Nil)).Ok?
    ensures Holds(kth, a, b, Step(kth, l, Install(AppOf(kth, a, b, n), Nil)), counter, numbers + {n})
  {
    var op := Install(AppOf(kth, a, b, n), Nil);
    assert !Has(l.channel.appInstances, AppOf(kth, a, b, n).IdentityHash());
    ApplySucceeds(kth, l.channel, op);
    StepKeepsValid(kth, l, op);
    ApplyEffect(kth, l.channel, op);
    ApplyTables(kth, l.channel, op);
  }

  /** The second proposal of a channel, the first since setup, installed. */
  function OneApp(kth: Derivation, a: Xpub, b: Xpub): Ledger {
    Run(kth, Start(kth, a, b), [Propose(ProposalOf(kth, a, b, 2)), Install(AppOf(kth, a, b, 2), Nil)])
  }

  lemma OneAppHolds(kth: Derivation, a: Xpub, b: Xpub)
    requires kth(a, 0) != kth(b, 0)
    ensures Holds(kth, a, b, OneApp(kth, a, b), 2, {2})
  {
    var l, ops := Start(kth, a, b), [Propose(ProposalOf(kth, a, b, 2)), Install(AppOf(kth, a, b, 2), Nil)];
    StartHolds(kth, a, b);
    ProposeHolds(kth, a, b, l, 1, {});
    assert ops[..1] == [ops[0]] && ops[..1][..0] == [];
    assert Run(kth, l, ops[..1]) == Step(kth, l, ops[0]);
    InstallHolds(kth, a, b, Step(kth, l, ops[0]), 2, {}, 2);
    assert {} + {2} == {2 as nat};
  }

  /** A withdrawal right after the first app was proposed and installed takes the app along. */
  lemma WithdrawalTakesApp(kth: Derivation, a: Xpub, b: Xpub, recipient: Address)
    requires kth(a, 0) != kth(b, 0)
    ensures var channel := OneApp(kth, a, b).channel;
            var p := WithdrawParams(a, b, channel.multisigAddress, recipient, 4, TOKEN);
            var withRefundApp := AddRefundApp(kth, channel, p, REFUND_ADDRESS);
            && Valid(OneApp(kth, a, b)) && !RefundNumberFree(channel) && withRefundApp.Ok?
            && RemoveRefundApp(withRefundApp.value).Ok?
            && Has(channel.appInstances, AppOf(kth, a, b, 2).IdentityHash())
            && !Has(RemoveRefundApp(withRefundApp.value).value.appInstances, AppOf(kth, a, b, 2).IdentityHash())
  {
    var l := OneApp(kth, a, b);
    OneAppHolds(kth, a, b);
    var p := WithdrawParams(a, b, l.channel.multisigAddress, recipient, 4, TOKEN);
    RefundAppGoesIn(kth, a, b, l, p);
    WithdrawSpec(kth, l, p, REFUND_ADDRESS);
    assert Has(l.channel.appInstances, AppOf(kth, a, b, 2).IdentityHash());
  }

  lemma FirstIsOwner(kth: Derivation, a: Xpub, b: Xpub)
    ensures kth(a, 0) in FirstTwo(SortedKthAddresses(kth, [a, b], 0)) && kth(b, 0) in FirstTwo(SortedKthAddresses(kth, [a, b], 0))
  {
    var owners := KthAddresses(kth, [a, b], 0);
    SortPermutes(owners, (x: Address) => x);
    var sorted := SortedKthAddresses(kth, [a, b], 0);
    assert |sorted| == |multiset(sorted)| == |multiset(owners)| == 2;
    assert owners[0] in multiset(owners) && owners[1] in multiset(owners);
    assert owners[0] in multiset(sorted) && owners[1] in multiset(sorted);
  }

  lemma RefundAppGoesIn(kth: Derivation, a: Xpub, b: Xpub, l: Ledger, p: WithdrawParams)
    requires Holds(kth, a, b, l, 2, {2}) && p.initiatorXpub == a && p.amount == 4 && p.tokenAddress == TOKEN
    ensures AddRefundApp(kth, l.channel, p, REFUND_ADDRESS).Ok?
  {
    FirstIsOwner(kth, a, b);
    var decrements := SingleToken(TOKEN, Single(kth(a, 0), 4));
    var op := Install(RefundApp(kth, l.channel, p, REFUND_ADDRESS), decrements);
    forall t, to
      ensures Balance(View(l.channel).balances, t, to) + Amount(IncrementsOf(EffectOf(op).increments, t), to) >= 0
    {
      assert Balance(View(l.channel).balances, t, to) >= 0;
    }
    ApplySucceeds(kth, l.channel, op);
  }

  // ---- A deposit ----

  lemma {:induction false} KindAbsent(apps: Dict<Hash, AppInstance>, address: Address)
    requires forall h :: Has(apps, h) ==> Lookup(apps, h).value.appInterface.addr != address
    ensures OfKind(apps, address) == []
    decreases apps
  {
    if apps.Cons? {
      assert Has(apps, apps.key) && Lookup(apps, apps.key) == Some(apps.value);
      forall h | Has(apps.rest, h)
        ensures Lookup(apps.rest, h) == Lookup(apps, h)
      {
      }
      KindAbsent(apps.rest, address);
    }
  }

  lemma InstallWithNothing(kth: Derivation, a: Xpub, b: Xpub, l: Ledger, counter: nat, numbers: set<nat>, p: InstallParams)
    requires Holds(kth, a, b, l, counter, numbers)
    requires p.initiatorXpub == a && p.responderXpub == b && p.outcomeType == SINGLE_ASSET_TWO_PARTY_COIN_TRANSFER
    requires p.initiatorDepositTokenAddress == p.responderDepositTokenAddress == TOKEN
    requires p.initiatorBalanceDecrement == p.responderBalanceDecrement == 0
    requires p.participants == SigningKeysFor(kth, l.channel, p.appSeqNo)
    ensures ComputeTransition(kth, l.channel, p).Ok?
  {
    FirstIsOwner(kth, a, b);
    var app := AppToBeInstalled(p, ComputeInterpreterParameters(p, kth(a, 0), kth(b, 0)).value);
    var op := Install(app, Decrements(p, kth(a, 0), kth(b, 0)));
    forall t, to
      ensures Balance(View(l.channel).balances, t, to) + Amount(IncrementsOf(EffectOf(op).increments, t), to) >= 0
    {
      assert Balance(View(l.channel).balances, t, to) >= 0;
    }
    ApplySucceeds(kth, l.channel, op);
  }

  /** So does a deposit. */
  lemma DepositTakesApp(kth: Derivation, a: Xpub, b: Xpub, other: CoinTransfer)
    requires kth(a, 0) != kth(b, 0)
    ensures var channel := OneApp(kth, a, b).channel;
            var r := Deposit(kth, channel, DepositParams(a, b, TOKEN, 0), REFUND_ADDRESS, Entry(kth(a, 0), 3), other);
            && Valid(OneApp(kth, a, b)) && r.Ok?
            && Has(channel.appInstances, AppOf(kth, a, b, 2).IdentityHash())
            && !Has(r.value.appInstances, AppOf(kth, a, b, 2).IdentityHash())
  {
    var l, p := OneApp(kth, a, b), DepositParams(a, b, TOKEN, 0);
    OneAppHolds(kth, a, b);
    assert Has(l.channel.appInstances, AppOf(kth, a, b, 2).IdentityHash());
    KindAbsent(l.channel.appInstances, REFUND_ADDRESS);
    InstallWithNothing(kth, a, b, l, 2, {2}, RefundInstall(kth, l.channel, p, REFUND_ADDRESS));
    DepositEndToEnd(kth, l, p, REFUND_ADDRESS, kth(a, 0), 3, other);
  }

  // ---- Two proposals, installed in reverse order ----

  /** Proposals 2 and 3 are made, and 3 is installed. */
  function LaterApp(kth: Derivation, a: Xpub, b: Xpub): Ledger {
    Run(kth, Start(kth, a, b), [Propose(ProposalOf(kth, a, b, 2)), Propose(ProposalOf(kth, a, b, 3)), Install(AppOf(kth, a, b, 3), Nil)])
  }

  lemma LaterAppHolds(kth: Derivation, a: Xpub, b: Xpub)
    requires kth(a, 0) != kth(b, 0)
    ensures Holds(kth, a, b, LaterApp(kth, a, b), 3, {3})
  {
    var l, ops := Start(kth, a, b), [Propose(ProposalOf(kth, a, b, 2)), Propose(ProposalOf(kth, a, b, 3)), Install(AppOf(kth, a, b, 3), Nil)];
    StartHolds(kth, a, b);
    ProposeHolds(kth, a, b, l, 1, {});
    var l1 := Step(kth, l, ops[0]);
    ProposeHolds(kth, a, b, l1, 2, {});
    var l2 := Step(kth, l1, ops[1]);
    assert ops[..2] == [ops[0], ops[1]] && ops[..2][..1] == [ops[0]] && [ops[0]][..0] == [];
    assert Run(kth, l, [ops[0]]) == l1;
    assert Run(kth, l, ops[..2]) == l2;
    InstallHolds(kth, a, b, l2, 3, {}, 3);
    assert {} + {3} == {3 as nat};
  }

  function SecondInstall(kth: Derivation, a: Xpub, b: Xpub): InstallParams {
    InstallParams(a, b, TOKEN, TOKEN, 0, 0, SortedKthAddresses(kth, [a, b], 2), OtherState([]), AppInterface(APP_ADDRESS, "", None),
                  100, 2, SINGLE_ASSET_TWO_PARTY_COIN_TRANSFER, false)
  }

  lemma ReverseInstallGoesIn(kth: Derivation, a: Xpub, b: Xpub, l: Ledger)
    requires kth(a, 0) != kth(b, 0) && Holds(kth, a, b, l, 3, {3})
    ensures ComputeTransition(kth, l.channel, SecondInstall(kth, a, b)).Ok?
    ensures var (post, app) := ComputeTransition(kth, l.channel, SecondInstall(kth, a, b)).value;
            && app.IdentityHash() == AppOf(kth, a, b, 2).IdentityHash() && !Has(l.channel.appInstances, app.IdentityHash())
            && post.freeBalanceAppInstance.Some?
            && MostRecentlyInstalledAppInstance(post).Ok?
            && MostRecentlyInstalledAppInstance(post).value.IdentityHash() == AppOf(kth, a, b, 3).IdentityHash()
  {
    InstallWithNothing(kth, a, b, l, 3, {3}, SecondInstall(kth, a, b));
    var (post, app) := ComputeTransition(kth, l.channel, SecondInstall(kth, a, b)).value;
    TransitionSpec(kth, l.channel, SecondInstall(kth, a, b));
    assert Has(l.channel.appInstances, AppOf(kth, a, b, 3).IdentityHash());
    MostRecentIsOther(kth, a, b, l.channel, post, app);
  }

  /** Installing 2 after 3: the update to be signed activates 2, but the conditional transaction, signed before it, is for
      3 once more. */
  lemma ReverseInstallCommitsToOther(kth: Derivation, a: Xpub, b: Xpub)
    requires kth(a, 0) != kth(b, 0)
    ensures var channel := LaterApp(kth, a, b).channel;
            var plan := Installs.PlanOf(kth, map[channel.multisigAddress := channel], channel.multisigAddress, SecondInstall(kth, a, b));
            && Valid(LaterApp(kth, a, b)) && plan.Ok?
            && Activates(plan.value.freeBalance, AppOf(kth, a, b, 2).IdentityHash())
            && plan.value.conditional.ConditionalTransaction?
            && plan.value.conditional.appIdentityHash == AppOf(kth, a, b, 3).IdentityHash()
  {
    LaterAppHolds(kth, a, b);
    CommitsToOther(kth, a, b, LaterApp(kth, a, b));
  }

  lemma CommitsToOther(kth: Derivation, a: Xpub, b: Xpub, l: Ledger)
    requires kth(a, 0) != kth(b, 0) && Holds(kth, a, b, l, 3, {3})
    ensures var plan := Installs.PlanOf(kth, map[l.channel.multisigAddress := l.channel], l.channel.multisigAddress, SecondInstall(kth, a, b));
            && plan.Ok?
            && Activates(plan.value.freeBalance, AppOf(kth, a, b, 2).IdentityHash())
            && plan.value.conditional.ConditionalTransaction?
            && plan.value.conditional.appIdentityHash == AppOf(kth, a, b, 3).IdentityHash()
  {
    ReverseInstallGoesIn(kth, a, b, l);
    Installs.PlanCommits(kth, map[l.channel.multisigAddress := l.channel], l.channel.multisigAddress, SecondInstall(kth, a, b));
  }

  lemma MostRecentIsOther(kth: Derivation, a: Xpub, b: Xpub, channel: StateChannel, post: StateChannel, app: AppInstance)
    requires Keyed(channel) && KeysDetermined(kth, channel) && channel.userNeuteredExtendedKeys == [a, b]
    requires Has(channel.appInstances, AppOf(kth, a, b, 3).IdentityHash())
    requires forall h :: Has(channel.appInstances, h) ==> Lookup(channel.appInstances, h).value.appSeqNo == 3
    requires post.appInstances == Put(channel.appInstances, app.IdentityHash(), app) && app.appSeqNo == 2
    ensures var latest := MostRecentlyInstalledAppInstance(post);
            latest.Ok? && latest.value.IdentityHash() == AppOf(kth, a, b, 3).IdentityHash()
  {
    var other := AppOf(kth, a, b, 3).IdentityHash();
    assert Has(post.appInstances, other) && Lookup(post.appInstances, other) == Lookup(channel.appInstances, other);
    var h := MostRecentIsGreatest(post);
    assert h != app.IdentityHash() && Has(channel.appInstances, h);
  }
}
