/** Runs of a channel with deposits and withdrawals: all the money there is, free or locked, is what there was at the
    beginning, and what was deposited, less what was withdrawn. */
module MoneyRuns {
  import opened Amounts
  import opened AppInstances
  import opened Deposits
  import opened Dictionaries
  import opened FreeBalances
  import opened InstallTransitions
  import opened LedgerRuns
  import opened Outcomes
  import opened Primitives
  import opened Results
  import opened StateChannels
  import opened WithdrawTransitions

  /** A deposit as far as the app contract answers with these two transfers; one that fails half way is the install of a
      refund app, an ordinary operation. */
  datatype Act =
    | Ordinary(op: Op)
    | Withdraws(withdrawal: WithdrawParams, refundAppAddress: Address)
    | Deposits(deposit: DepositParams, refundAppAddress: Address, refunded: CoinTransfer, other: CoinTransfer)

  /** The identity that a refund app would take. */
  function RefundIdentity(kth: Derivation, channel: StateChannel): Hash {
    AppHash(channel.monotonicNumProposedApps, SigningKeysFor(kth, channel, channel.monotonicNumProposedApps))
  }

  /** The channel after a deposit or withdrawal; none when it throws, and nothing is saved. */
  function ChannelAfter(kth: Derivation, channel: StateChannel, act: Act): Result<StateChannel>
    requires !act.Ordinary?
  {
    match act
    case Withdraws(p, refundAppAddress) =>
      var withRefundApp :- AddRefundApp(kth, channel, p, refundAppAddress);
      RemoveRefundApp(withRefundApp)
    case Deposits(p, refundAppAddress, refunded, other) => Deposit(kth, channel, p, refundAppAddress, refunded, other)
  }

  function Do(kth: Derivation, l: Ledger, act: Act): Ledger {
    if act.Ordinary? then Step(kth, l, act.op) else
      match ChannelAfter(kth, l.channel, act)
      case Err(_) => l
      case Ok(channel) => Ledger(channel, Delete(l.locked, RefundIdentity(kth, l.channel)))
  }

  function DoAll(kth: Derivation, l: Ledger, acts: seq<Act>): Ledger {
    if acts == [] then l else Do(kth, DoAll(kth, l, acts[..|acts| - 1]), acts[|acts| - 1])
  }

  /** What an act brings into the channel in one token, when it goes through. */
  function Gain(kth: Derivation, l: Ledger, act: Act, token: Token): int {
    if act.Ordinary? || ChannelAfter(kth, l.channel, act).Err? then 0 else
      match act
      case Withdraws(p, _) => if p.tokenAddress == token then -p.amount else 0
      case Deposits(p, _, refunded, _) => if p.tokenAddress == token then refunded.value else 0
  }

  /** Deposits minus withdrawals of a run. */
  function Gains(kth: Derivation, l: Ledger, acts: seq<Act>, token: Token): int {
    if acts == [] then 0 else
      Gains(kth, l, acts[..|acts| - 1], token) + Gain(kth, DoAll(kth, l, acts[..|acts| - 1]), acts[|acts| - 1], token)
  }

  /** Ordinary operations are admissible and pay out what was locked; refund apps get an identity of their own. */
  ghost predicate Sound(kth: Derivation, l: Ledger, act: Act, token: Token) {
    match act
    case Ordinary(op) =>
      && Admissible(l.channel, op)
      && (EffectOf(op).Deactivate? ==> Total(IncrementsOf(EffectOf(op).increments, token)) == LockedBy(l.locked, EffectOf(op).id, token))
    case Withdraws(_, _) => RefundNumberFree(l.channel) && !Has(l.channel.agreements, RefundIdentity(kth, l.channel))
    case Deposits(p, _, _, _) =>
      && RefundNumberFree(l.channel) && !Has(l.channel.agreements, RefundIdentity(kth, l.channel))
      && kth(p.depositor, 0) != kth(p.peer, 0)
  }

  /** Installing an app of a new identity and uninstalling it again changes the money by what it pays out, less what it
      took, and keeps the ledger valid. */
  lemma InAndOut(kth: Derivation, l: Ledger, app: AppInstance, decrements: TokenIndexedCoinTransferMap,
                 increments: TokenIndexedCoinTransferMap, token: Token)
    requires Valid(l) && Admissible(l.channel, Install(app, decrements))
    requires InstallApp(kth, l.channel, app, decrements).Ok?
    requires UninstallApp(InstallApp(kth, l.channel, app, decrements).value, app.IdentityHash(), increments).Ok?
    ensures var after := Ledger(UninstallApp(InstallApp(kth, l.channel, app, decrements).value, app.IdentityHash(), increments).value,
                                Delete(l.locked, app.IdentityHash()));
            && Valid(after)
            && Wealth(after, token) == Wealth(l, token) + Total(IncrementsOf(increments, token)) - Total(IncrementsOf(decrements, token))
  {
    var h := app.IdentityHash();
    var l' := Step(kth, l, Install(app, decrements));
    StepKeepsValid(kth, l, Install(app, decrements));
    StepAccounts(kth, l, Install(app, decrements), token);
    assert !Has(l.locked, h);
    ApplyTables(kth, l.channel, Install(app, decrements));
    assert LiveApp(l'.channel, h);
    StepKeepsValid(kth, l', Uninstall(h, increments));
    StepAccounts(kth, l', Uninstall(h, increments), token);
    DeletePut(l.locked, h, decrements);
  }

  lemma FreshRefund(kth: Derivation, l: Ledger)
    requires Valid(l) && RefundNumberFree(l.channel)
    ensures !Has(l.channel.appInstances, RefundIdentity(kth, l.channel))
  {
  }

  /** A withdrawal takes exactly its amount out of the channel. */
  lemma WithdrawalGains(kth: Derivation, l: Ledger, p: WithdrawParams, refundAppAddress: Address, token: Token)
    requires Valid(l) && Sound(kth, l, Withdraws(p, refundAppAddress), token)
    ensures Valid(Do(kth, l, Withdraws(p, refundAppAddress)))
    ensures Wealth(Do(kth, l, Withdraws(p, refundAppAddress)), token) == Wealth(l, token) + Gain(kth, l, Withdraws(p, refundAppAddress), token)
  {
    if ChannelAfter(kth, l.channel, Withdraws(p, refundAppAddress)).Ok? {
      FreshRefund(kth, l);
      RefundAppIsMostRecent(kth, l.channel, p, refundAppAddress);
      InAndOut(kth, l, RefundApp(kth, l.channel, p, refundAppAddress), SingleToken(p.tokenAddress, Single(kth(p.initiatorXpub, 0), p.amount)), Nil, token);
    }
  }

  lemma TransitionIsInstall(kth: Derivation, channel: StateChannel, p: InstallParams)
    requires ComputeTransition(kth, channel, p).Ok?
    ensures var (post, app) := ComputeTransition(kth, channel, p).value;
            && InstallApp(kth, channel, app, Decrements(p, kth(p.initiatorXpub, 0), kth(p.responderXpub, 0))) == Ok(post)
            && app.appSeqNo == p.appSeqNo && app.participants == p.participants && !app.isVirtualApp
  {
  }

  lemma NothingDecremented(p: InstallParams, initiator: Address, responder: Address, token: Token)
    requires initiator != responder && p.initiatorBalanceDecrement == p.responderBalanceDecrement == 0
    ensures Total(IncrementsOf(Decrements(p, initiator, responder), token)) == 0
  {
    DecrementsDebit(p, initiator, responder, token);
  }

  /** A deposit brings in exactly what the app contract says arrived. */
  lemma DepositGains(kth: Derivation, l: Ledger, p: DepositParams, refundAppAddress: Address, refunded: CoinTransfer, other: CoinTransfer, token: Token)
    requires Valid(l) && Sound(kth, l, Deposits(p, refundAppAddress, refunded, other), token)
    ensures Valid(Do(kth, l, Deposits(p, refundAppAddress, refunded, other)))
    ensures Wealth(Do(kth, l, Deposits(p, refundAppAddress, refunded, other)), token)
            == Wealth(l, token) + Gain(kth, l, Deposits(p, refundAppAddress, refunded, other), token)
  {
    if Deposit(kth, l.channel, p, refundAppAddress, refunded, other).Ok? {
      DepositPositive(kth, l.channel, p, refundAppAddress, refunded, other);
      DepositInAndOut(kth, l, p, refundAppAddress, refunded.key, refunded.value, other, token);
    }
  }

  lemma DepositInAndOut(kth: Derivation, l: Ledger, p: DepositParams, refundAppAddress: Address, to: Address, d: int, other: CoinTransfer, token: Token)
    requires Valid(l) && RefundNumberFree(l.channel) && !Has(l.channel.agreements, RefundIdentity(kth, l.channel))
    requires OfKind(l.channel.appInstances, refundAppAddress) == [] && d > 0 && kth(p.depositor, 0) != kth(p.peer, 0)
    requires ComputeTransition(kth, l.channel, RefundInstall(kth, l.channel, p, refundAppAddress)).Ok?
    requires Deposit(kth, l.channel, p, refundAppAddress, Entry(to, d), other).Ok?
    ensures var after := Ledger(Deposit(kth, l.channel, p, refundAppAddress, Entry(to, d), other).value, Delete(l.locked, RefundIdentity(kth, l.channel)));
            Valid(after) && Wealth(after, token) == Wealth(l, token) + if token == p.tokenAddress then d else 0
  {
    var params := RefundInstall(kth, l.channel, p, refundAppAddress);
    var app := ComputeTransition(kth, l.channel, params).value.1;
    var decrements := Decrements(params, kth(p.depositor, 0), kth(p.peer, 0));
    FreshRefund(kth, l);
    DepositIsUninstall(kth, l.channel, p, refundAppAddress, to, d, other);
    TransitionIsInstall(kth, l.channel, params);
    NothingDecremented(params, kth(p.depositor, 0), kth(p.peer, 0), token);
    InAndOut(kth, l, app, decrements, SingleToken(p.tokenAddress, Single(to, d)), token);
  }

  lemma DepositPositive(kth: Derivation, channel: StateChannel, p: DepositParams, refundAppAddress: Address, refunded: CoinTransfer, other: CoinTransfer)
    requires kth(p.depositor, 0) != kth(p.peer, 0)
    requires Deposit(kth, channel, p, refundAppAddress, refunded, other).Ok?
    ensures OfKind(channel.appInstances, refundAppAddress) == [] && refunded.value > 0
    ensures ComputeTransition(kth, channel, RefundInstall(kth, channel, p, refundAppAddress)).Ok?
  {
    var (post, app) := ComputeTransition(kth, channel, RefundInstall(kth, channel, p, refundAppAddress)).value;
    RefundInstallSpec(kth, channel, p, refundAppAddress);
    KindAfterPut(channel.appInstances, app.IdentityHash(), app, refundAppAddress);
  }

  /** Every act of the run is sound where it happens. */
  ghost predicate SoundRun(kth: Derivation, l: Ledger, acts: seq<Act>, token: Token) {
    acts == [] ||
    (SoundRun(kth, l, acts[..|acts| - 1], token) && Sound(kth, DoAll(kth, l, acts[..|acts| - 1]), acts[|acts| - 1], token))
  }

  /** Over every run of operations, deposits and withdrawals, throws included: the money of the channel, free and locked,
      is what there was and what was deposited, less what was withdrawn. */
  lemma {:induction false} MoneyAccounted(kth: Derivation, l: Ledger, acts: seq<Act>, token: Token)
    requires Valid(l) && SoundRun(kth, l, acts, token)
    ensures Valid(DoAll(kth, l, acts))
    ensures Wealth(DoAll(kth, l, acts), token) == Wealth(l, token) + Gains(kth, l, acts, token)
  {
    if acts != [] {
      var before, act := DoAll(kth, l, acts[..|acts| - 1]), acts[|acts| - 1];
      MoneyAccounted(kth, l, acts[..|acts| - 1], token);
      match act
      case Ordinary(op) =>
        StepKeepsValid(kth, before, op);
        StepConserves(kth, before, op, token);
      case Withdraws(p, refundAppAddress) => WithdrawalGains(kth, before, p, refundAppAddress, token);
      case Deposits(p, refundAppAddress, refunded, other) => DepositGains(kth, before, p, refundAppAddress, refunded, other, token);
    }
  }

  /** In particular from setup on: what is there is what was deposited less what was withdrawn. */
  lemma MoneySinceSetup(kth: Derivation, coinBucketAddress: Address, multisig: Multisig, xpubs: seq<Xpub>, acts: seq<Act>, token: Token)
    requires |xpubs| == 2
    requires SoundRun(kth, Ledger(SetupChannel(kth, coinBucketAddress, multisig, xpubs), Nil), acts, token)
    ensures var l := Ledger(SetupChannel(kth, coinBucketAddress, multisig, xpubs), Nil);
            && GetFreeBalance(DoAll(kth, l, acts).channel).Ok?
            && Wealth(DoAll(kth, l, acts), token) == Gains(kth, l, acts, token)
  {
    SetupValid(kth, coinBucketAddress, multisig, xpubs, token);
    MoneyAccounted(kth, Ledger(SetupChannel(kth, coinBucketAddress, multisig, xpubs), Nil), acts, token);
  }
}
