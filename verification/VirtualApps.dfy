/** Virtual apps: what the initiator, the intermediary and the responder each compute when a virtual app is
    installed and uninstalled (engine/install-virtual-app.ts, engine/uninstall-virtual-app.ts). */
module VirtualApps {
  import opened Amounts
  import opened AppInstances
  import opened Dictionaries
  import opened FreeBalances
  import opened Outcomes
  import opened Primitives
  import opened Results
  import opened Sorting
  import opened StateChannels

  /** `stateChannelsMap` */
  type Channels = map<Multisig, StateChannel>

  datatype InstallVirtualAppParams = InstallVirtualAppParams(
    initiatorXpub: Xpub,
    responderXpub: Xpub,
    intermediaryXpub: Xpub,
    defaultTimeout: nat,
    appInterface: AppInterface,
    initialState: AppState,
    initiatorBalanceDecrement: int,
    responderBalanceDecrement: int,
    tokenAddress: Token,
    appSeqNo: nat,
    outcomeType: OutcomeType)

  datatype UninstallVirtualAppParams = UninstallVirtualAppParams(
    initiatorXpub: Xpub,
    responderXpub: Xpub,
    intermediaryXpub: Xpub,
    targetAppIdentityHash: Hash,
    targetOutcome: Outcome)

  /** Everything the roles read besides their own store. */
  datatype Environment = Environment(kth: Derivation, passThroughAddress: Address, provider: Provider)

  // ---- The two new apps ----

  function InterpreterParamsFor(p: InstallVirtualAppParams, initiator: Address, responder: Address): Result<InterpreterParams> {
    var sum := p.initiatorBalanceDecrement + p.responderBalanceDecrement;
    match p.outcomeType
    case TWO_PARTY_FIXED_OUTCOME => Ok(TwoParty(TwoPartyParams(initiator, responder, sum, p.tokenAddress)))
    case SINGLE_ASSET_TWO_PARTY_COIN_TRANSFER => Ok(SingleAsset(SingleAssetParams(sum, p.tokenAddress)))
    case MULTI_ASSET_MULTI_PARTY_COIN_TRANSFER => Err(UnsupportedOutcome)
  }

  function ConstructVirtualApp(kth: Derivation, p: InstallVirtualAppParams): Result<AppInstance> {
    var initiator, responder := kth(p.initiatorXpub, p.appSeqNo), kth(p.responderXpub, p.appSeqNo);
    var params :- InterpreterParamsFor(p, initiator, responder);
    Ok(AppInstance(SortAddresses([initiator, responder]), p.defaultTimeout, p.appInterface, true, p.appSeqNo,
                   p.initialState, 0, p.defaultTimeout, p.outcomeType, params))
  }

  const CHALLENGE_TIMEOUT: nat := 100

  /** The time-locked pass-through app; its number is the counter of the three-party channel. */
  function ConstructPassThrough(env: Environment, threeParty: StateChannel, virtualApp: Hash, defaultOutcome: Outcome, p: InstallVirtualAppParams): Result<AppInstance> {
    var seqNo := threeParty.monotonicNumProposedApps;
    var intermediary := env.kth(p.intermediaryXpub, seqNo);
    var initiator, responder := env.kth(p.initiatorXpub, seqNo), env.kth(p.responderXpub, seqNo);
    var params :- InterpreterParamsFor(p, initiator, responder);
    Ok(AppInstance(SortAddresses([initiator, responder, intermediary]), CHALLENGE_TIMEOUT,
                   AppInterface(env.passThroughAddress, "", None), true, seqNo,
                   PassThroughState(virtualApp, MAX_UINT256, defaultOutcome), 0, CHALLENGE_TIMEOUT, p.outcomeType, params))
  }

  // ---- Lookups ----

  function GetOrCreate(kth: Derivation, channels: Channels, xpubs: seq<Xpub>): StateChannel {
    var m := MultisigOf(kth, xpubs);
    if m in channels then channels[m] else CreateEmptyChannel(m, xpubs)
  }

  function GetChannel(kth: Derivation, channels: Channels, xpubs: seq<Xpub>): Result<StateChannel> {
    var m := MultisigOf(kth, xpubs);
    if m in channels then Ok(channels[m]) else Err(NoChannel)
  }

  /** `saveStateChannel`, for three channels in turn. */
  function SaveAll(channels: Channels, first: StateChannel, second: StateChannel, third: StateChannel): Channels {
    channels[first.multisigAddress := first][second.multisigAddress := second][third.multisigAddress := third]
  }

  // ---- Installing ----

  function AgreementWith(kth: Derivation, p: InstallVirtualAppParams, passThrough: AppInstance, user: Xpub): Agreement {
    Agreement(passThrough.IdentityHash(), p.initiatorBalanceDecrement + p.responderBalanceDecrement,
              kth(p.intermediaryXpub, 0), kth(user, 0), p.tokenAddress)
  }

  /** The agreement between initiator and intermediary: the intermediary locks the responder's stake. */
  function AgreeWithInitiator(kth: Derivation, channel: StateChannel, p: InstallVirtualAppParams, virtualApp: Hash, passThrough: AppInstance): Result<StateChannel> {
    AddAgreement(channel, virtualApp, AgreementWith(kth, p, passThrough, p.initiatorXpub),
                 Pair(kth(p.initiatorXpub, 0), p.initiatorBalanceDecrement,
                      kth(p.intermediaryXpub, 0), p.responderBalanceDecrement), p.tokenAddress)
  }

  /** The agreement between responder and intermediary: the intermediary locks the initiator's stake. */
  function AgreeWithResponder(kth: Derivation, channel: StateChannel, p: InstallVirtualAppParams, virtualApp: Hash, passThrough: AppInstance): Result<StateChannel> {
    AddAgreement(channel, virtualApp, AgreementWith(kth, p, passThrough, p.responderXpub),
                 Pair(kth(p.intermediaryXpub, 0), p.initiatorBalanceDecrement,
                      kth(p.responderXpub, 0), p.responderBalanceDecrement), p.tokenAddress)
  }

  datatype EndpointInstall = EndpointInstall(
    threeParty: StateChannel, betweenUsers: StateChannel, withIntermediary: StateChannel,
    virtualApp: AppInstance, passThrough: AppInstance)

  function InstallForInitiating(env: Environment, channels: Channels, p: InstallVirtualAppParams): Result<EndpointInstall> {
    var threeParty := GetOrCreate(env.kth, channels, [p.initiatorXpub, p.responderXpub, p.intermediaryXpub]);
    var withResponding := GetOrCreate(env.kth, channels, [p.initiatorXpub, p.responderXpub]);
    var virtualApp :- ConstructVirtualApp(env.kth, p);
    var passThrough :- ConstructPassThrough(env, threeParty, virtualApp.IdentityHash(), ComputeOutcome(virtualApp, env.provider), p);
    var channel :- GetChannel(env.kth, channels, [p.initiatorXpub, p.intermediaryXpub]);
    var withIntermediary :- AgreeWithInitiator(env.kth, channel, p, virtualApp.IdentityHash(), passThrough);
    Ok(EndpointInstall(AddAppInstance(threeParty, passThrough), AddAppInstance(withResponding, virtualApp),
                       withIntermediary, virtualApp, passThrough))
  }

  function InstallForResponding(env: Environment, channels: Channels, p: InstallVirtualAppParams): Result<EndpointInstall> {
    var threeParty := GetOrCreate(env.kth, channels, [p.initiatorXpub, p.responderXpub, p.intermediaryXpub]);
    var withInitiating := GetOrCreate(env.kth, channels, [p.initiatorXpub, p.responderXpub]);
    var virtualApp :- ConstructVirtualApp(env.kth, p);
    var passThrough :- ConstructPassThrough(env, threeParty, virtualApp.IdentityHash(), ComputeOutcome(virtualApp, env.provider), p);
    var channel :- GetChannel(env.kth, channels, [p.responderXpub, p.intermediaryXpub]);
    var withIntermediary :- AgreeWithResponder(env.kth, channel, p, virtualApp.IdentityHash(), passThrough);
    Ok(EndpointInstall(AddAppInstance(threeParty, passThrough), AddAppInstance(withInitiating, virtualApp),
                       withIntermediary, virtualApp, passThrough))
  }

  datatype IntermediaryInstall = IntermediaryInstall(
    threeParty: StateChannel, withInitiating: StateChannel, withResponding: StateChannel, passThrough: AppInstance)

  /** The intermediary never sees the virtual app, only its identity and default outcome from the first message. */
  function InstallForIntermediary(env: Environment, channels: Channels, p: InstallVirtualAppParams, virtualApp: Hash, defaultOutcome: Outcome): Result<IntermediaryInstall> {
    var threeParty := GetOrCreate(env.kth, channels, [p.initiatorXpub, p.responderXpub, p.intermediaryXpub]);
    var passThrough :- ConstructPassThrough(env, threeParty, virtualApp, defaultOutcome, p);
    var channelI :- GetChannel(env.kth, channels, [p.initiatorXpub, p.intermediaryXpub]);
    var channelR :- GetChannel(env.kth, channels, [p.responderXpub, p.intermediaryXpub]);
    var withInitiating :- AgreeWithInitiator(env.kth, channelI, p, virtualApp, passThrough);
    var withResponding :- AgreeWithResponder(env.kth, channelR, p, virtualApp, passThrough);
    Ok(IntermediaryInstall(AddAppInstance(threeParty, passThrough), withInitiating, withResponding, passThrough))
  }

  // ---- Uninstalling ----

  /** `tokenIndexedIncrements[token][to]`; an absent token throws, an absent recipient counts as zero. */
  function IncrementTo(increments: TokenIndexedCoinTransferMap, token: Token, to: Address): Result<int> {
    if Has(increments, token) then Ok(Amount(IncrementsOf(increments, token), to)) else Err(OutcomeMismatch)
  }

  /** The channel of initiator and intermediary: the intermediary is credited what the responder is due. */
  function SettleWithInitiator(kth: Derivation, channel: StateChannel, p: UninstallVirtualAppParams, target: Hash,
                               increments: TokenIndexedCoinTransferMap, token: Token): Result<StateChannel> {
    var toIntermediary :- IncrementTo(increments, token, kth(p.responderXpub, 0));
    var toInitiator :- IncrementTo(increments, token, kth(p.initiatorXpub, 0));
    RemoveAgreement(channel, target, Pair(kth(p.intermediaryXpub, 0), toIntermediary, kth(p.initiatorXpub, 0), toInitiator), token)
  }

  /** The channel of responder and intermediary: the intermediary is credited what the initiator is due. */
  function SettleWithResponder(kth: Derivation, channel: StateChannel, p: UninstallVirtualAppParams, target: Hash,
                               increments: TokenIndexedCoinTransferMap, token: Token): Result<StateChannel> {
    var toIntermediary :- IncrementTo(increments, token, kth(p.initiatorXpub, 0));
    var toResponder :- IncrementTo(increments, token, kth(p.responderXpub, 0));
    RemoveAgreement(channel, target, Pair(kth(p.intermediaryXpub, 0), toIntermediary, kth(p.responderXpub, 0), toResponder), token)
  }

  /** The pass-through app of an agreement, and the app it targets. */
  function PassThroughOf(threeParty: StateChannel, agreement: Agreement): Result<AppInstance> {
    var passThrough :- GetAppInstance(threeParty, agreement.timeLockedPassThroughIdentityHash);
    if passThrough.latestState.PassThroughState? then Ok(passThrough) else Err(ConsistencyError)
  }

  function Expired(passThrough: AppInstance, provider: Provider): bool
    requires passThrough.latestState.PassThroughState?
  {
    passThrough.latestState.switchesOutcomeAt <= provider.blockNumber
  }

  function Switched(passThrough: AppInstance, outcome: Outcome): AppInstance
    requires passThrough.latestState.PassThroughState?
  {
    passThrough.SetState(passThrough.latestState.(switchesOutcomeAt := 0, defaultOutcome := outcome))
  }

  datatype EndpointUninstall = EndpointUninstall(
    threeParty: StateChannel, withIntermediary: StateChannel, betweenUsers: StateChannel, passThrough: AppInstance)

  function UninstallForInitiating(env: Environment, channels: Channels, p: UninstallVirtualAppParams): Result<EndpointUninstall> {
    var threeParty :- GetChannel(env.kth, channels, [p.initiatorXpub, p.responderXpub, p.intermediaryXpub]);
    var withIntermediary :- GetChannel(env.kth, channels, [p.initiatorXpub, p.intermediaryXpub]);
    var withResponding :- GetChannel(env.kth, channels, [p.initiatorXpub, p.responderXpub]);
    var agreement :- GetAgreement(withIntermediary, p.targetAppIdentityHash);
    var passThrough :- PassThroughOf(threeParty, agreement);
    var virtualApp :- GetAppInstance(withResponding, passThrough.latestState.targetAppIdentityHash);
    var deciding := if Expired(passThrough, env.provider) then passThrough else virtualApp;
    var increments :- ComputeIncrements(deciding, ComputeOutcome(deciding, env.provider));
    var settled :- SettleWithInitiator(env.kth, withIntermediary, p, virtualApp.IdentityHash(), increments, agreement.tokenAddress);
    Ok(EndpointUninstall(RemoveAppInstance(threeParty, passThrough.IdentityHash()), settled,
                         RemoveAppInstance(withResponding, virtualApp.IdentityHash()), Switched(passThrough, p.targetOutcome)))
  }

  /** The responder also checks the target outcome against the one it computes. */
  function UninstallForResponding(env: Environment, channels: Channels, p: UninstallVirtualAppParams): Result<EndpointUninstall> {
    var threeParty :- GetChannel(env.kth, channels, [p.initiatorXpub, p.responderXpub, p.intermediaryXpub]);
    var withIntermediary :- GetChannel(env.kth, channels, [p.responderXpub, p.intermediaryXpub]);
    var withInitiating :- GetChannel(env.kth, channels, [p.initiatorXpub, p.responderXpub]);
    var agreement :- GetAgreement(withIntermediary, p.targetAppIdentityHash);
    var passThrough :- PassThroughOf(threeParty, agreement);
    var virtualApp :- GetAppInstance(withInitiating, passThrough.latestState.targetAppIdentityHash);
    var expected := ComputeOutcome(virtualApp, env.provider);
    if expected != p.targetOutcome then Err(OutcomeMismatch) else
    var deciding := if Expired(passThrough, env.provider) then passThrough else virtualApp;
    var increments :- ComputeIncrements(deciding, ComputeOutcome(deciding, env.provider));
    var settled :- SettleWithResponder(env.kth, withIntermediary, p, virtualApp.IdentityHash(), increments, agreement.tokenAddress);
    Ok(EndpointUninstall(RemoveAppInstance(threeParty, passThrough.IdentityHash()), settled,
                         RemoveAppInstance(withInitiating, virtualApp.IdentityHash()), Switched(passThrough, expected)))
  }

  datatype IntermediaryUninstall = IntermediaryUninstall(
    threeParty: StateChannel, withInitiating: StateChannel, withResponding: StateChannel, passThrough: AppInstance)

  /** The intermediary applies the target outcome to the pass-through app, not knowing the virtual app. */
  function UninstallForIntermediary(env: Environment, channels: Channels, p: UninstallVirtualAppParams): Result<IntermediaryUninstall> {
    var threeParty :- GetChannel(env.kth, channels, [p.initiatorXpub, p.responderXpub, p.intermediaryXpub]);
    var withInitiating :- GetChannel(env.kth, channels, [p.initiatorXpub, p.intermediaryXpub]);
    var withResponding :- GetChannel(env.kth, channels, [p.intermediaryXpub, p.responderXpub]);
    var agreement :- GetAgreement(withInitiating, p.targetAppIdentityHash);
    var passThrough :- PassThroughOf(threeParty, agreement);
    var target := passThrough.latestState.targetAppIdentityHash;
    var increments :- ComputeIncrements(passThrough,
                                        if Expired(passThrough, env.provider) then passThrough.latestState.defaultOutcome else p.targetOutcome);
    var settledI :- SettleWithInitiator(env.kth, withInitiating, p, target, increments, agreement.tokenAddress);
    var settledR :- SettleWithResponder(env.kth, withResponding, p, target, increments, agreement.tokenAddress);
    Ok(IntermediaryUninstall(RemoveAppInstance(threeParty, passThrough.IdentityHash()), settledI, settledR,
                             Switched(passThrough, p.targetOutcome)))
  }
}
