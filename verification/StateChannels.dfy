/** The state channel, an immutable value (models/state-channel.ts). */
module StateChannels {
  import opened Amounts
  import opened AppInstances
  import opened Dictionaries
  import opened FreeBalances
  import opened Primitives
  import opened Results
  import opened Sorting

  datatype Proposal = Proposal(
    identityHash: Hash,
    appSeqNo: nat,
    appInterface: AppInterface,
    initialState: AppState,
    outcomeType: OutcomeType,
    timeout: nat,
    initiatorDeposit: int,
    initiatorDepositTokenAddress: Token,
    responderDeposit: int,
    responderDepositTokenAddress: Token,
    proposedByIdentifier: Xpub,
    proposedToIdentifier: Xpub)

  datatype Agreement = Agreement(
    timeLockedPassThroughIdentityHash: Hash,
    capitalProvided: int,
    capitalProvider: Address,
    virtualAppUser: Address,
    tokenAddress: Token)

  datatype StateChannel = StateChannel(
    multisigAddress: Multisig,
    userNeuteredExtendedKeys: seq<Xpub>,
    proposedAppInstances: Dict<Hash, Proposal>,
    appInstances: Dict<Hash, AppInstance>,
    agreements: Dict<Hash, Agreement>,
    freeBalanceAppInstance: Option<AppInstance>,
    monotonicNumProposedApps: nat)

  // ---- Keys ----

  function KthAddresses(kth: Derivation, xpubs: seq<Xpub>, k: nat): seq<Address> {
    seq(|xpubs|, i requires 0 <= i < |xpubs| => kth(xpubs[i], k))
  }

  function SortedKthAddresses(kth: Derivation, xpubs: seq<Xpub>, k: nat): seq<Address> {
    SortAddresses(KthAddresses(kth, xpubs, k))
  }

  function SigningKeysFor(kth: Derivation, channel: StateChannel, k: nat): seq<Address> {
    SortedKthAddresses(kth, channel.userNeuteredExtendedKeys, k)
  }

  function MultisigOf(kth: Derivation, xpubs: seq<Xpub>): Multisig {
    Create2(SortedKthAddresses(kth, xpubs, 0))
  }

  /** The first two addresses of a list, which the code destructures as `[alice, bob]`. */
  function FirstTwo(addresses: seq<Address>): seq<Address> {
    if |addresses| <= 2 then addresses else addresses[..2]
  }

  function FreeBalanceAddrOf(kth: Derivation, channel: StateChannel, xpub: Xpub): Result<Address> {
    if channel.freeBalanceAppInstance.None? then Err(NoFreeBalance)
    else if kth(xpub, 0) in FirstTwo(channel.freeBalanceAppInstance.value.participants) then Ok(kth(xpub, 0))
    else Err(NotAnOwner)
  }

  function MultisigOwnerAddrOf(kth: Derivation, channel: StateChannel, xpub: Xpub): Result<Address> {
    if kth(xpub, 0) in FirstTwo(SigningKeysFor(kth, channel, 0)) then Ok(kth(xpub, 0)) else Err(NotAnOwner)
  }

  /** A party is found among two owners exactly when its 0th address is one of theirs. */
  lemma OwnerFoundIff(kth: Derivation, channel: StateChannel, a: Xpub, b: Xpub, x: Xpub)
    requires channel.userNeuteredExtendedKeys == [a, b]
    ensures MultisigOwnerAddrOf(kth, channel, x) == if kth(x, 0) in {kth(a, 0), kth(b, 0)} then Ok(kth(x, 0)) else Err(NotAnOwner)
  {
    var owners := KthAddresses(kth, channel.userNeuteredExtendedKeys, 0);
    assert owners == [kth(a, 0), kth(b, 0)];
    SortPermutes(owners, (y: Address) => y);
    var sorted := SigningKeysFor(kth, channel, 0);
    assert FirstTwo(sorted) == sorted;
    assert kth(x, 0) in sorted <==> kth(x, 0) in multiset(sorted);
    assert kth(x, 0) in owners <==> kth(x, 0) in multiset(owners);
  }

  // ---- Creation ----

  const FREE_BALANCE_TIMEOUT: nat := 172800

  function CreateFreeBalance(kth: Derivation, xpubs: seq<Xpub>, coinBucketAddress: Address, timeout: nat): AppInstance
    requires |xpubs| == 2
  {
    var keys := SortedKthAddresses(kth, xpubs, 0);
    SortPermutes(KthAddresses(kth, xpubs, 0), (a: Address) => a);
    AppInstance(keys, timeout, AppInterface(coinBucketAddress, "", None), false, 0,
                FreeBalanceState(FreeBalanceJson([CONVENTION_FOR_ETH_TOKEN_ADDRESS], [[Entry(keys[0], 0), Entry(keys[1], 0)]], [])),
                0, FREE_BALANCE_TIMEOUT, MULTI_ASSET_MULTI_PARTY_COIN_TRANSFER, NoParams)
  }

  function SetupChannel(kth: Derivation, coinBucketAddress: Address, multisig: Multisig, xpubs: seq<Xpub>): StateChannel
    requires |xpubs| == 2
  {
    StateChannel(multisig, xpubs, Nil, Nil, Nil,
                 Some(CreateFreeBalance(kth, xpubs, coinBucketAddress, FREE_BALANCE_TIMEOUT)), 1)
  }

  function CreateEmptyChannel(multisig: Multisig, xpubs: seq<Xpub>): StateChannel {
    StateChannel(multisig, xpubs, Nil, Nil, Nil, None, 1)
  }

  // ---- The free balance of a channel ----

  /** `getFreeBalanceClass`: a fresh copy of the free balance. */
  function GetFreeBalance(channel: StateChannel): Result<FreeBalance> {
    match channel.freeBalanceAppInstance
    case None => Err(NoFreeBalance)
    case Some(app) =>
      match app.latestState
      case FreeBalanceState(json) => Deserialize(json)
      case _ => Err(CorruptFreeBalance)
  }

  /** The free balance of a channel that has a readable one. */
  function View(channel: StateChannel): FreeBalance
    requires GetFreeBalance(channel).Ok?
  {
    GetFreeBalance(channel).value
  }

  /** Writes a free balance back, one version later. */
  function SetFreeBalance(channel: StateChannel, fb: FreeBalance): (r: StateChannel)
    requires channel.freeBalanceAppInstance.Some?
    ensures GetFreeBalance(r) == Ok(fb)
  {
    SerializeRoundTrip(fb);
    channel.(freeBalanceAppInstance := Some(channel.freeBalanceAppInstance.value.SetState(FreeBalanceState(Serialize(fb)))))
  }

  function IncrementFreeBalance(channel: StateChannel, increments: TokenIndexedCoinTransferMap): Result<StateChannel> {
    var fb :- GetFreeBalance(channel);
    var balances :- Increment(fb.balances, increments);
    Ok(SetFreeBalance(channel, fb.(balances := balances)))
  }

  function AddActiveApp(channel: StateChannel, activeApp: Hash): Result<StateChannel> {
    var fb :- GetFreeBalance(channel);
    Ok(SetFreeBalance(channel, fb.(activeApps := Put(fb.activeApps, activeApp, ()))))
  }

  function RemoveActiveApp(channel: StateChannel, activeApp: Hash): Result<StateChannel> {
    var fb :- GetFreeBalance(channel);
    Ok(SetFreeBalance(channel, fb.(activeApps := Delete(fb.activeApps, activeApp))))
  }

  function AddActiveAppAndIncrement(channel: StateChannel, activeApp: Hash, increments: TokenIndexedCoinTransferMap): Result<StateChannel> {
    var incremented :- IncrementFreeBalance(channel, increments);
    AddActiveApp(incremented, activeApp)
  }

  function RemoveActiveAppAndIncrement(channel: StateChannel, activeApp: Hash, increments: TokenIndexedCoinTransferMap): Result<StateChannel> {
    var removed :- RemoveActiveApp(channel, activeApp);
    IncrementFreeBalance(removed, increments)
  }

  // ---- Proposals and apps ----

  function AddProposal(channel: StateChannel, proposal: Proposal): StateChannel {
    channel.(proposedAppInstances := Put(channel.proposedAppInstances, proposal.identityHash, proposal),
             monotonicNumProposedApps := channel.monotonicNumProposedApps + 1)
  }

  function RemoveProposal(channel: StateChannel, appInstanceId: Hash): StateChannel {
    channel.(proposedAppInstances := Delete(channel.proposedAppInstances, appInstanceId))
  }

  function AddAppInstance(channel: StateChannel, app: AppInstance): StateChannel {
    channel.(appInstances := Put(channel.appInstances, app.IdentityHash(), app),
             monotonicNumProposedApps := channel.monotonicNumProposedApps + 1)
  }

  function RemoveAppInstance(channel: StateChannel, appInstanceId: Hash): StateChannel {
    channel.(appInstances := Delete(channel.appInstances, appInstanceId))
  }

  function GetAppInstance(channel: StateChannel, id: Hash): Result<AppInstance> {
    match Lookup(channel.appInstances, id)
    case None => Err(AppDoesNotExist)
    case Some(app) => Ok(app)
  }

  function SetState(channel: StateChannel, id: Hash, state: AppState): Result<StateChannel> {
    var app :- GetAppInstance(channel, id);
    Ok(channel.(appInstances := Put(channel.appInstances, id, app.SetState(state))))
  }

  function InstallApp(kth: Derivation, channel: StateChannel, app: AppInstance, decrements: TokenIndexedCoinTransferMap): Result<StateChannel> {
    if !(SigningKeysFor(kth, channel, app.appSeqNo) <= app.participants) then Err(IncorrectParticipants)
    else AddActiveAppAndIncrement(
           channel.(appInstances := Put(channel.appInstances, app.IdentityHash(), app)),
           app.IdentityHash(), FlipTokenIndexedBalances(decrements))
  }

  function UninstallApp(channel: StateChannel, id: Hash, increments: TokenIndexedCoinTransferMap): Result<StateChannel> {
    var app :- GetAppInstance(channel, id);
    if app.IdentityHash() != id then Err(ConsistencyError)
    else RemoveActiveAppAndIncrement(channel.(appInstances := Delete(channel.appInstances, id)), id, increments)
  }

  /** The first of the apps with the greatest sequence number. */
  function Latest(apps: Assoc<Hash, AppInstance>, prev: AppInstance): AppInstance {
    if apps.Nil? then prev else
      Latest(apps.rest, if apps.value.appSeqNo > prev.appSeqNo then apps.value else prev)
  }

  function MostRecentlyInstalledAppInstance(channel: StateChannel): Result<AppInstance> {
    match channel.appInstances
    case Nil => Err(NoInstalledApps)
    case Cons(_, app, rest) => Ok(Latest(rest, app))
  }

  function LatestProposal(proposals: Assoc<Hash, Proposal>, prev: Proposal): Proposal {
    if proposals.Nil? then prev else
      LatestProposal(proposals.rest, if proposals.value.appSeqNo > prev.appSeqNo then proposals.value else prev)
  }

  function MostRecentlyProposedAppInstance(channel: StateChannel): Result<Proposal> {
    match channel.proposedAppInstances
    case Nil => Err(NoInstalledApps)
    case Cons(_, proposal, rest) => Ok(LatestProposal(rest, proposal))
  }

  // ---- Intermediary agreements ----

  function AddAgreement(channel: StateChannel, target: Hash, agreement: Agreement, decrements: CoinTransferMap, token: Token): Result<StateChannel> {
    AddActiveAppAndIncrement(
      channel.(agreements := Put(channel.agreements, target, agreement)),
      target, SingleToken(token, Flip(decrements)))
  }

  function RemoveAgreement(channel: StateChannel, target: Hash, increments: CoinTransferMap, token: Token): Result<StateChannel> {
    if !Has(channel.agreements, target) then Err(AgreementDoesNotExist)
    else RemoveActiveAppAndIncrement(
           channel.(agreements := Delete(channel.agreements, target)), target, SingleToken(token, increments))
  }

  function GetAgreement(channel: StateChannel, target: Hash): Result<Agreement> {
    match Lookup(channel.agreements, target)
    case None => Err(AgreementDoesNotExist)
    case Some(agreement) => Ok(agreement)
  }

  // ---- What the composite operations do to a channel ----

  function FreeBalanceVersion(channel: StateChannel): nat
    requires channel.freeBalanceAppInstance.Some?
  {
    channel.freeBalanceAppInstance.value.latestVersionNumber
  }

  /** The same free balance app, up to its state and the version and timeout set along with it. */
  ghost predicate SameFreeBalanceApp(app: AppInstance, app': AppInstance) {
    app' == app.(latestState := app'.latestState, latestVersionNumber := app'.latestVersionNumber,
                 latestTimeout := app'.latestTimeout)
  }

  /** What adding an active app and incrementing does: nothing but its two changes to the free balance, two
      versions later, and it fails exactly when the increment does. */
  lemma AddActiveSpec(channel: StateChannel, activeApp: Hash, increments: TokenIndexedCoinTransferMap)
    requires GetFreeBalance(channel).Ok?
    ensures var fb := View(channel);
            var balances := Increment(fb.balances, increments);
            match AddActiveAppAndIncrement(channel, activeApp, increments)
            case Err(_) => balances.Err?
            case Ok(channel') =>
              && balances.Ok?
              && FreeBalanceChanged(channel, channel', FreeBalance(Put(fb.activeApps, activeApp, ()), balances.value))
  {
  }

  /** Dually for removing an active app. */
  lemma RemoveActiveSpec(channel: StateChannel, activeApp: Hash, increments: TokenIndexedCoinTransferMap)
    requires GetFreeBalance(channel).Ok?
    ensures var fb := View(channel);
            var balances := Increment(fb.balances, increments);
            match RemoveActiveAppAndIncrement(channel, activeApp, increments)
            case Err(_) => balances.Err?
            case Ok(channel') =>
              && balances.Ok?
              && FreeBalanceChanged(channel, channel', FreeBalance(Delete(fb.activeApps, activeApp), balances.value))
  {
  }

  ghost predicate FreeBalanceChanged(channel: StateChannel, channel': StateChannel, fb: FreeBalance) {
    && GetFreeBalance(channel') == Ok(fb)
    && channel.freeBalanceAppInstance.Some? && channel'.freeBalanceAppInstance.Some?
    && SameFreeBalanceApp(channel.freeBalanceAppInstance.value, channel'.freeBalanceAppInstance.value)
    && FreeBalanceVersion(channel') == FreeBalanceVersion(channel) + 2
    && channel' == channel.(freeBalanceAppInstance := channel'.freeBalanceAppInstance)
  }
}
