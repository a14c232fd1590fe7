/** What installing an app does to a channel, from a proposal to its outcome
    (engine/install.ts, engine/propose.ts, methods/app-instance/install/operation.ts). */
module InstallTransitions {
  import opened Amounts
  import opened AppInstances
  import opened Dictionaries
  import opened FreeBalances
  import opened Outcomes
  import opened Primitives
  import opened Results
  import opened StateChannels

  datatype InstallParams = InstallParams(
    initiatorXpub: Xpub,
    responderXpub: Xpub,
    initiatorDepositTokenAddress: Token,
    responderDepositTokenAddress: Token,
    initiatorBalanceDecrement: int,
    responderBalanceDecrement: int,
    participants: seq<Address>,
    initialState: AppState,
    appInterface: AppInterface,
    defaultTimeout: nat,
    appSeqNo: nat,
    outcomeType: OutcomeType,
    disableLimit: bool)

  function ComputeInterpreterParameters(p: InstallParams, initiator: Address, responder: Address): Result<InterpreterParams> {
    var sum := p.initiatorBalanceDecrement + p.responderBalanceDecrement;
    var oneToken := p.initiatorDepositTokenAddress == p.responderDepositTokenAddress;
    match p.outcomeType
    case TWO_PARTY_FIXED_OUTCOME =>
      if !oneToken then Err(DifferentAssets)
      else Ok(TwoParty(TwoPartyParams(initiator, responder, sum, p.initiatorDepositTokenAddress)))
    case MULTI_ASSET_MULTI_PARTY_COIN_TRANSFER =>
      if oneToken then Ok(MultiAsset(MultiAssetParams([sum], [p.initiatorDepositTokenAddress])))
      else Ok(MultiAsset(MultiAssetParams([p.initiatorBalanceDecrement, p.responderBalanceDecrement],
                                          [p.initiatorDepositTokenAddress, p.responderDepositTokenAddress])))
    case SINGLE_ASSET_TWO_PARTY_COIN_TRANSFER =>
      if !oneToken then Err(DifferentAssets)
      else Ok(SingleAsset(SingleAssetParams(if p.disableLimit then MAX_UINT256 else sum, p.initiatorDepositTokenAddress)))
  }

  /** With one token both decrements go in one object; with two, each in its own. */
  function Decrements(p: InstallParams, initiator: Address, responder: Address): TokenIndexedCoinTransferMap {
    if p.initiatorDepositTokenAddress != p.responderDepositTokenAddress then
      Put(SingleToken(p.initiatorDepositTokenAddress, Single(initiator, p.initiatorBalanceDecrement)),
          p.responderDepositTokenAddress, Single(responder, p.responderBalanceDecrement))
    else
      SingleToken(p.initiatorDepositTokenAddress,
                  Pair(initiator, p.initiatorBalanceDecrement, responder, p.responderBalanceDecrement))
  }

  function AppToBeInstalled(p: InstallParams, params: InterpreterParams): AppInstance {
    AppInstance(p.participants, p.defaultTimeout, p.appInterface, false, p.appSeqNo, p.initialState, 0,
                p.defaultTimeout, p.outcomeType, params)
  }

  /** `computeStateChannelTransition`: the channel with the new app installed, and the app. */
  function ComputeTransition(kth: Derivation, channel: StateChannel, p: InstallParams): Result<(StateChannel, AppInstance)> {
    var initiator :- FreeBalanceAddrOf(kth, channel, p.initiatorXpub);
    var responder :- FreeBalanceAddrOf(kth, channel, p.responderXpub);
    var params :- ComputeInterpreterParameters(p, initiator, responder);
    var app := AppToBeInstalled(p, params);
    var installed :- InstallApp(kth, channel, app, Decrements(p, initiator, responder));
    Ok((installed, app))
  }

  /** What one party is to be debited in one token. */
  function Debit(p: InstallParams, initiator: Address, responder: Address, token: Token, to: Address): int {
    (if to == initiator && token == p.initiatorDepositTokenAddress then p.initiatorBalanceDecrement else 0) +
    (if to == responder && token == p.responderDepositTokenAddress then p.responderBalanceDecrement else 0)
  }

  lemma DecrementsDebit(p: InstallParams, initiator: Address, responder: Address, token: Token)
    requires initiator != responder
    ensures var amounts := IncrementsOf(Decrements(p, initiator, responder), token);
            && (forall to :: Amount(amounts, to) == Debit(p, initiator, responder, token, to))
            && Total(amounts) == Debit(p, initiator, responder, token, initiator) + Debit(p, initiator, responder, token, responder)
  {
    PairTotal(initiator, p.initiatorBalanceDecrement, responder, p.responderBalanceDecrement);
  }

  /** A transition that goes through: the app is installed and activated, and the free balance decremented. */
  lemma TransitionSpec(kth: Derivation, channel: StateChannel, p: InstallParams)
    requires ComputeTransition(kth, channel, p).Ok?
    ensures var (post, app) := ComputeTransition(kth, channel, p).value;
            var decrements := Decrements(p, kth(p.initiatorXpub, 0), kth(p.responderXpub, 0));
            && GetFreeBalance(channel).Ok?
            && Increment(View(channel).balances, FlipTokenIndexedBalances(decrements)).Ok?
            && FreeBalanceChanged(
                 channel.(appInstances := Put(channel.appInstances, app.IdentityHash(), app)), post,
                 FreeBalance(Put(View(channel).activeApps, app.IdentityHash(), ()),
                             Increment(View(channel).balances, FlipTokenIndexedBalances(decrements)).value))
  {
    var (post, app) := ComputeTransition(kth, channel, p).value;
    var installing := channel.(appInstances := Put(channel.appInstances, app.IdentityHash(), app));
    assert GetFreeBalance(installing) == GetFreeBalance(channel);
    AddActiveSpec(installing, app.IdentityHash(), FlipTokenIndexedBalances(Decrements(p, kth(p.initiatorXpub, 0), kth(p.responderXpub, 0))));
  }

  /** Installing debits each party exactly its own deposit in its own token, and nobody else, whether the
      two tokens are equal or different. */
  lemma InstallDebits(kth: Derivation, channel: StateChannel, p: InstallParams, token: Token)
    requires kth(p.initiatorXpub, 0) != kth(p.responderXpub, 0)
    requires ComputeTransition(kth, channel, p).Ok?
    ensures var post := ComputeTransition(kth, channel, p).value.0;
            var (initiator, responder) := (kth(p.initiatorXpub, 0), kth(p.responderXpub, 0));
            && GetFreeBalance(channel).Ok? && GetFreeBalance(post).Ok?
            && (forall to :: Balance(View(post).balances, token, to) ==
                  Balance(View(channel).balances, token, to) - Debit(p, initiator, responder, token, to))
            && FreeTotal(View(post).balances, token) ==
               FreeTotal(View(channel).balances, token)
                 - Debit(p, initiator, responder, token, initiator) - Debit(p, initiator, responder, token, responder)
  {
    TransitionSpec(kth, channel, p);
    var initiator, responder := kth(p.initiatorXpub, 0), kth(p.responderXpub, 0);
    IncrementAdds(View(channel).balances, FlipTokenIndexedBalances(Decrements(p, initiator, responder)), token);
    DecrementsDebit(p, initiator, responder, token);
  }

  /** The interpreter parameters of a new app: the initiator is the first player of a fixed outcome; the tokens are those
      of the deposits, each once, and each limit is what is locked in its token. */
  ghost predicate TermsOf(p: InstallParams, initiator: Address, responder: Address, params: InterpreterParams) {
    var (a, b, tokenI, tokenR) := (p.initiatorBalanceDecrement, p.responderBalanceDecrement, p.initiatorDepositTokenAddress, p.responderDepositTokenAddress);
    match p.outcomeType
    case TWO_PARTY_FIXED_OUTCOME => tokenI == tokenR && params == TwoParty(TwoPartyParams(initiator, responder, a + b, tokenI))
    case SINGLE_ASSET_TWO_PARTY_COIN_TRANSFER =>
      tokenI == tokenR && params == SingleAsset(SingleAssetParams(if p.disableLimit then MAX_UINT256 else a + b, tokenI))
    case MULTI_ASSET_MULTI_PARTY_COIN_TRANSFER =>
      params == MultiAsset(if tokenI == tokenR then MultiAssetParams([a + b], [tokenI]) else MultiAssetParams([a, b], [tokenI, tokenR]))
  }

  lemma TermsInstalled(kth: Derivation, channel: StateChannel, p: InstallParams)
    requires ComputeTransition(kth, channel, p).Ok?
    ensures TermsOf(p, kth(p.initiatorXpub, 0), kth(p.responderXpub, 0), ComputeTransition(kth, channel, p).value.1.interpreterParams)
  {
    assert ComputeInterpreterParameters(p, kth(p.initiatorXpub, 0), kth(p.responderXpub, 0)).Ok?;
    TermsComputed(p, kth(p.initiatorXpub, 0), kth(p.responderXpub, 0));
  }

  lemma TermsComputed(p: InstallParams, initiator: Address, responder: Address)
    requires ComputeInterpreterParameters(p, initiator, responder).Ok?
    ensures TermsOf(p, initiator, responder, ComputeInterpreterParameters(p, initiator, responder).value)
  {
  }

  /** The app that is installed starts in the given initial state at version 0, with the default timeout, and pays out
      by the parties' 0th addresses; a channel with two tokens has none of these outcomes but that of lists. */
  lemma InstalledApp(kth: Derivation, channel: StateChannel, p: InstallParams)
    requires ComputeTransition(kth, channel, p).Ok?
    ensures var (post, app) := ComputeTransition(kth, channel, p).value;
            && Lookup(post.appInstances, app.IdentityHash()) == Some(app)
            && app.participants == p.participants && app.appInterface == p.appInterface && app.appSeqNo == p.appSeqNo
            && app.latestState == p.initialState && app.latestVersionNumber == 0
            && app.defaultTimeout == app.latestTimeout == p.defaultTimeout
            && !app.isVirtualApp && app.outcomeType == p.outcomeType
            && TermsOf(p, kth(p.initiatorXpub, 0), kth(p.responderXpub, 0), app.interpreterParams)
  {
    TransitionSpec(kth, channel, p);
    TermsInstalled(kth, channel, p);
  }

  // ---- Outcomes of installed apps ----

  function IncrementsFor(app: AppInstance, outcome: Outcome): TokenIndexedCoinTransferMap {
    var r := ComputeIncrements(app, outcome);
    if r.Ok? then r.value else Nil
  }

  /** An app with a fixed two-party outcome pays back exactly what installing it locked, whatever the outcome,
      the default and odd amounts included: over install and a later uninstall the total of every token
      is unchanged. The channel may have changed in between. */
  lemma TwoPartyOutcomeConserves(kth: Derivation, channel: StateChannel, p: InstallParams, later: StateChannel, outcome: nat, token: Token)
    requires kth(p.initiatorXpub, 0) != kth(p.responderXpub, 0)
    requires p.outcomeType == TWO_PARTY_FIXED_OUTCOME && !p.initialState.RefundState? && outcome <= MAX_SAFE_INTEGER
    requires ComputeTransition(kth, channel, p).Ok?
    requires var app := ComputeTransition(kth, channel, p).value.1;
             && GetFreeBalance(later).Ok?
             && UninstallApp(later, app.IdentityHash(), IncrementsFor(app, FixedOutcome(outcome))).Ok?
    ensures var (post, app) := ComputeTransition(kth, channel, p).value;
            var increments := ComputeIncrements(app, FixedOutcome(outcome));
            var end := UninstallApp(later, app.IdentityHash(), IncrementsFor(app, FixedOutcome(outcome))).value;
            && increments.Ok?
            && GetFreeBalance(channel).Ok? && GetFreeBalance(post).Ok? && GetFreeBalance(end).Ok?
            && FreeTotal(View(end).balances, token) - FreeTotal(View(later).balances, token) ==
               FreeTotal(View(channel).balances, token) - FreeTotal(View(post).balances, token)
  {
    var (post, app) := ComputeTransition(kth, channel, p).value;
    var increments := ComputeIncrements(app, FixedOutcome(outcome));
    InstallDebits(kth, channel, p, token);
    TwoPartyPaysAmount(outcome, app.interpreterParams.twoParty);
    var without := later.(appInstances := Delete(later.appInstances, app.IdentityHash()));
    assert GetFreeBalance(without) == GetFreeBalance(later);
    RemoveActiveSpec(without, app.IdentityHash(), increments.value);
    IncrementAdds(View(later).balances, increments.value, token);
  }
}
