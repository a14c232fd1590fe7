/** An app between two parties, from the install protocol to the uninstall protocol: who gains and loses what, by the
    app's outcome (engine/install.ts, engine/uninstall.ts). */
module DirectApps {
  import opened Amounts
  import opened AppInstances
  import opened Commitments
  import opened Dictionaries
  import opened Engine
  import opened FreeBalances
  import opened InstallTransitions
  import opened Outcomes
  import opened Payouts
  import opened Primitives
  import opened Results
  import opened SingleExchanges
  import opened StateChannels
  import opened VirtualApps
  import Installs = InstallProtocol

  // ---- Uninstalling ----

  /** What uninstalling an app leaves: the channel without it, free balance two versions later. */
  ghost predicate WithoutApp(pre: StateChannel, post: StateChannel, id: Hash) {
    && GetFreeBalance(pre).Ok? && GetFreeBalance(post).Ok?
    && pre.freeBalanceAppInstance.Some? && post.freeBalanceAppInstance.Some?
    && post == pre.(appInstances := Delete(pre.appInstances, id), freeBalanceAppInstance := post.freeBalanceAppInstance)
    && View(post).activeApps == Delete(View(pre).activeApps, id)
    && FreeBalanceVersion(post) == FreeBalanceVersion(pre) + 2
    && SameFreeBalanceApp(pre.freeBalanceAppInstance.value, post.freeBalanceAppInstance.value)
  }

  lemma UninstallLeaves(channels: Channels, multisig: Multisig, id: Hash, provider: Provider)
    requires UninstallPlan(channels, multisig, id, provider).Ok?
    ensures multisig in channels && Lookup(channels[multisig].appInstances, id).Some?
    ensures var (app, post) := (Lookup(channels[multisig].appInstances, id).value, UninstallPlan(channels, multisig, id, provider).value.post);
            && app.IdentityHash() == id && ComputeIncrements(app, ComputeOutcome(app, provider)).Ok?
            && WithoutApp(channels[multisig], post, id)
            && Increment(View(channels[multisig]).balances, ComputeIncrements(app, ComputeOutcome(app, provider)).value) == Ok(View(post).balances)
  {
    var pre := channels[multisig];
    var app := Lookup(pre.appInstances, id).value;
    var without := pre.(appInstances := Delete(pre.appInstances, id));
    assert GetFreeBalance(without) == GetFreeBalance(pre);
    RemoveActiveSpec(without, id, ComputeIncrements(app, ComputeOutcome(app, provider)).value);
  }

  /** When uninstalling goes through, every balance is the old one and what the app's outcome pays; the commitment
      that both sign is on exactly these balances, and kept under the app. */
  lemma UninstallPays(channels: Channels, multisig: Multisig, id: Hash, provider: Provider, token: Token, to: Address)
    requires UninstallPlan(channels, multisig, id, provider).Ok?
    ensures multisig in channels && Lookup(channels[multisig].appInstances, id).Some?
    ensures var (app, plan) := (Lookup(channels[multisig].appInstances, id).value, UninstallPlan(channels, multisig, id, provider).value);
            && WithoutApp(channels[multisig], plan.post, id)
            && Balance(View(plan.post).balances, token, to)
               == Balance(View(channels[multisig]).balances, token, to) + Payment(app, ComputeOutcome(app, provider), token, to)
            && plan.storedUnder == Some(Key.ForUninstall(id)) && plan.keyIndex == 0
            && OnFreeBalanceOf(plan.commitment, plan.post)
  {
    var app := Lookup(channels[multisig].appInstances, id).value;
    UninstallLeaves(channels, multisig, id, provider);
    IncrementAdds(View(channels[multisig]).balances, ComputeIncrements(app, ComputeOutcome(app, provider)).value, token);
    IncrementsPay(app, ComputeOutcome(app, provider), token, to);
    CommitsToFreeBalance(UninstallPlan(channels, multisig, id, provider).value.post);
  }

  // ---- From install to uninstall ----

  /** An app that one channel installs by a plan, and a later channel uninstalls by a plan. */
  datatype Life = Life(kth: Derivation, channels: Channels, multisig: Multisig, params: InstallParams, later: Channels, provider: Provider)
  {
    function App(): AppInstance
      requires multisig in channels && ComputeTransition(kth, channels[multisig], params).Ok?
    {
      ComputeTransition(kth, channels[multisig], params).value.1
    }

    /** In between the app may have been updated, and everything else in the channel changed. */
    ghost predicate Lived() {
      && Installs.PlanOf(kth, channels, multisig, params).Ok?
      && kth(params.initiatorXpub, 0) != kth(params.responderXpub, 0)
      && UninstallPlan(later, multisig, App().IdentityHash(), provider).Ok?
      && multisig in later && Has(later[multisig].appInstances, App().IdentityHash())
      && Updated(App(), Last())
    }

    /** The app when it is uninstalled. */
    function Last(): AppInstance
      requires multisig in channels && ComputeTransition(kth, channels[multisig], params).Ok?
      requires multisig in later && Has(later[multisig].appInstances, App().IdentityHash())
    {
      Lookup(later[multisig].appInstances, App().IdentityHash()).value
    }

    function LastOutcome(): Outcome
      requires multisig in channels && ComputeTransition(kth, channels[multisig], params).Ok?
      requires multisig in later && Has(later[multisig].appInstances, App().IdentityHash())
    {
      ComputeOutcome(Last(), provider)
    }

    function Installed(): StateChannel
      requires Installs.PlanOf(kth, channels, multisig, params).Ok?
    {
      Installs.PlanOf(kth, channels, multisig, params).value.post
    }

    function Ended(): StateChannel
      requires multisig in channels && ComputeTransition(kth, channels[multisig], params).Ok?
      requires UninstallPlan(later, multisig, App().IdentityHash(), provider).Ok?
    {
      UninstallPlan(later, multisig, App().IdentityHash(), provider).value.post
    }

    ghost predicate Readable()
      requires Lived()
    {
      && GetFreeBalance(channels[multisig]).Ok? && GetFreeBalance(Installed()).Ok?
      && GetFreeBalance(later[multisig]).Ok? && GetFreeBalance(Ended()).Ok?
    }

    /** What somebody gains over install and uninstall. */
    ghost function Net(token: Token, to: Address): int
      requires Lived() && Readable()
    {
      Balance(View(Installed()).balances, token, to) - Balance(View(channels[multisig]).balances, token, to)
        + Balance(View(Ended()).balances, token, to) - Balance(View(later[multisig]).balances, token, to)
    }

    /** What installing takes out of the free balance. */
    ghost function Locked(token: Token): int
      requires Lived()
    {
      var (i, r) := (kth(params.initiatorXpub, 0), kth(params.responderXpub, 0));
      Debit(params, i, r, token, i) + Debit(params, i, r, token, r)
    }

    ghost function NetTotal(token: Token): int
      requires Lived() && Readable()
    {
      FreeTotal(View(Installed()).balances, token) - FreeTotal(View(channels[multisig]).balances, token)
        + FreeTotal(View(Ended()).balances, token) - FreeTotal(View(later[multisig]).balances, token)
    }
  }

  ghost predicate Updated(app: AppInstance, app': AppInstance) {
    && app' == app.(latestState := app'.latestState, latestVersionNumber := app'.latestVersionNumber, latestTimeout := app'.latestTimeout)
    && !app'.latestState.RefundState?
  }

  lemma LifeNets(life: Life, token: Token, to: Address)
    requires life.Lived()
    ensures life.Readable()
    ensures life.Net(token, to) == Payment(life.Last(), life.LastOutcome(), token, to)
              - Debit(life.params, life.kth(life.params.initiatorXpub, 0), life.kth(life.params.responderXpub, 0), token, to)
  {
    InstallDebits(life.kth, life.channels[life.multisig], life.params, token);
    UninstallPays(life.later, life.multisig, life.App().IdentityHash(), life.provider, token, to);
  }

  lemma LifeTotals(life: Life, token: Token)
    requires life.Lived()
    ensures life.Readable() && ComputeIncrements(life.Last(), life.LastOutcome()).Ok?
    ensures var (i, r) := (life.kth(life.params.initiatorXpub, 0), life.kth(life.params.responderXpub, 0));
            life.NetTotal(token) == Total(IncrementsOf(ComputeIncrements(life.Last(), life.LastOutcome()).value, token))
              - Debit(life.params, i, r, token, i) - Debit(life.params, i, r, token, r)
  {
    InstallDebits(life.kth, life.channels[life.multisig], life.params, token);
    UninstallLeaves(life.later, life.multisig, life.App().IdentityHash(), life.provider);
    IncrementAdds(View(life.later[life.multisig]).balances, ComputeIncrements(life.Last(), life.LastOutcome()).value, token);
  }

  /** The app is uninstalled on the terms on which it was installed. */
  lemma TermsKept(life: Life)
    requires life.Lived()
    ensures var (p, last) := (life.params, life.Last());
            && last.outcomeType == p.outcomeType && !last.latestState.RefundState?
            && TermsOf(p, life.kth(p.initiatorXpub, 0), life.kth(p.responderXpub, 0), last.interpreterParams)
  {
    InstalledApp(life.kth, life.channels[life.multisig], life.params);
  }

  // ---- Fixed outcomes ----

  /** What the players gain by a fixed outcome when the first staked a and the second b. */
  lemma SharesLessStakes(value: nat, i: Address, r: Address, a: int, b: int, token: Token)
    requires i != r
    ensures var players := TwoPartyParams(i, r, a + b, token);
            var (netI, netR) := (FixedShare(value, players, i) - a, FixedShare(value, players, r) - b);
            && (value == 0 ==> netI == b && netR == -b)
            && (value == 1 ==> netI == -a && netR == a)
            && (value >= 2 && a + b >= 0 ==> 0 <= netI + a && 0 <= (netR + b) - (netI + a) <= 1)
            && netI + netR == 0
            && forall to :: to != i && to != r ==> FixedShare(value, players, to) == 0
  {
  }

  /** An app with a fixed outcome, from its install protocol to its uninstall protocol: outcome 0 gives the initiator
      the responder's stake and outcome 1 gives the responder the initiator's; any other splits the two stakes
      evenly, the responder getting what an odd sum leaves over. Nobody else gains or loses anything. */
  lemma FixedOutcomePays(life: Life, value: nat, token: Token, to: Address)
    requires life.Lived() && life.params.outcomeType == TWO_PARTY_FIXED_OUTCOME && life.LastOutcome() == FixedOutcome(value)
    ensures life.Readable()
    ensures var (p, i, r) := (life.params, life.kth(life.params.initiatorXpub, 0), life.kth(life.params.responderXpub, 0));
            var (a, b, staked) := (p.initiatorBalanceDecrement, p.responderBalanceDecrement, p.initiatorDepositTokenAddress);
            var (netI, netR) := (life.Net(staked, i), life.Net(staked, r));
            && p.responderDepositTokenAddress == staked
            && (value == 0 ==> netI == b && netR == -b)
            && (value == 1 ==> netI == -a && netR == a)
            && (value >= 2 && a + b >= 0 ==> 0 <= netI + a && 0 <= (netR + b) - (netI + a) <= 1)
            && netI + netR == 0
            && (token != staked || (to != i && to != r) ==> life.Net(token, to) == 0)
  {
    var (p, i, r) := (life.params, life.kth(life.params.initiatorXpub, 0), life.kth(life.params.responderXpub, 0));
    TermsKept(life);
    SharesLessStakes(value, i, r, p.initiatorBalanceDecrement, p.responderBalanceDecrement, p.initiatorDepositTokenAddress);
    LifeNets(life, p.initiatorDepositTokenAddress, i);
    LifeNets(life, p.initiatorDepositTokenAddress, r);
    LifeNets(life, token, to);
  }

  /** And no money is made or lost, in any token. */
  lemma FixedOutcomeConserves(life: Life, value: nat, token: Token)
    requires life.Lived() && life.params.outcomeType == TWO_PARTY_FIXED_OUTCOME && life.LastOutcome() == FixedOutcome(value)
    ensures life.Readable() && life.NetTotal(token) == 0
  {
    LifeTotals(life, token);
    TermsKept(life);
    TwoPartyPaysAmount(value, life.Last().interpreterParams.twoParty);
  }

  // ---- Coin transfers ----

  /** Each limit is what installing takes out of the free balance in its token, unless the limit is disabled. */
  lemma LimitsAreLocked(life: Life, n: nat)
    requires life.Lived()
    ensures match life.Last().interpreterParams
            case TwoParty(q) => life.Locked(q.tokenAddress) == q.amount
            case SingleAsset(q) => q.limit == if life.params.disableLimit then MAX_UINT256 else life.Locked(q.tokenAddress)
            case MultiAsset(q) => |q.limit| == |q.tokenAddresses| && (n < |q.limit| ==> q.limit[n] == life.Locked(q.tokenAddresses[n]))
            case NoParams => false
  {
    TermsKept(life);
  }

  /** An app with two coin transfers: each party gains what it is transferred less its stake. */
  lemma TransfersPay(life: Life, first: CoinTransfer, second: CoinTransfer, token: Token, to: Address)
    requires life.Lived() && life.params.outcomeType == SINGLE_ASSET_TWO_PARTY_COIN_TRANSFER && life.LastOutcome() == TwoTransfers(first, second)
    ensures life.Readable()
    ensures life.Net(token, to) == (if token == life.params.initiatorDepositTokenAddress then TransferTo(first, second, to) else 0)
              - Debit(life.params, life.kth(life.params.initiatorXpub, 0), life.kth(life.params.responderXpub, 0), token, to)
  {
    TermsKept(life);
    LifeNets(life, token, to);
  }

  /** Of one or two tokens. */
  function ListedIn(lists: seq<seq<CoinTransfer>>, tokenI: Token, tokenR: Token, token: Token, to: Address): int {
    if token == tokenI && 0 < |lists| then ListTo(lists[0], to)
    else if token == tokenR && tokenR != tokenI && 1 < |lists| then ListTo(lists[1], to)
    else 0
  }

  lemma ListsInTokens(lists: seq<seq<CoinTransfer>>, tokenI: Token, tokenR: Token, token: Token, to: Address)
    ensures ListsTo(lists, if tokenI == tokenR then [tokenI] else [tokenI, tokenR], token, to) == ListedIn(lists, tokenI, tokenR, token, to)
  {
    assert LastPlace([tokenI], token) == if token == tokenI then Some(0) else None;
    assert [tokenI, tokenR][..1] == [tokenI];
    assert LastPlace([tokenI, tokenR], token) == if token == tokenR then Some(1) else if token == tokenI then Some(0) else None;
  }

  /** An app with lists of transfers: the first is in the initiator's token, and the second, if the responder's is another
      one, in the responder's. */
  lemma ListsPay(life: Life, lists: seq<seq<CoinTransfer>>, token: Token, to: Address)
    requires life.Lived() && life.params.outcomeType == MULTI_ASSET_MULTI_PARTY_COIN_TRANSFER && life.LastOutcome() == TransferLists(lists)
    ensures life.Readable()
    ensures life.Net(token, to) ==
            ListedIn(lists, life.params.initiatorDepositTokenAddress, life.params.responderDepositTokenAddress, token, to)
              - Debit(life.params, life.kth(life.params.initiatorXpub, 0), life.kth(life.params.responderXpub, 0), token, to)
  {
    TermsKept(life);
    LifeNets(life, token, to);
    ListsInTokens(lists, life.params.initiatorDepositTokenAddress, life.params.responderDepositTokenAddress, token, to);
  }
}
