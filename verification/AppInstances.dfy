/** Off-chain app instances, their states and outcomes (models/app-instance.ts). */
module AppInstances {
  import opened Dictionaries
  import opened Primitives
  import opened Results

  /** `{ to, amount }`: the key is the recipient. */
  type CoinTransfer = Entry<Address, int>

  /** The plain-typed state of the free balance app, as it is hashed and stored. */
  datatype FreeBalanceJson = FreeBalanceJson(
    tokenAddresses: seq<Token>, balances: seq<seq<CoinTransfer>>, activeApps: seq<Hash>)

  datatype OutcomeType =
    | TWO_PARTY_FIXED_OUTCOME
    | MULTI_ASSET_MULTI_PARTY_COIN_TRANSFER
    | SINGLE_ASSET_TWO_PARTY_COIN_TRANSFER

  /** An outcome, decoded: the three shapes that the outcome types announce. */
  datatype Outcome =
    | FixedOutcome(value: nat)
    | TwoTransfers(first: CoinTransfer, second: CoinTransfer)
    | TransferLists(lists: seq<seq<CoinTransfer>>)

  /** App states the engine looks into, and all others. */
  datatype AppState =
    | FreeBalanceState(json: FreeBalanceJson)
    | PassThroughState(targetAppIdentityHash: Hash, switchesOutcomeAt: nat, defaultOutcome: Outcome)
    | RefundState(recipient: Address, multisig: Multisig, threshold: int, tokenAddress: Option<Token>)
    | OtherState(encoded: seq<int>)

  datatype AppInterface = AppInterface(addr: Address, stateEncoding: string, actionEncoding: Option<string>)

  datatype TwoPartyParams = TwoPartyParams(player1: Address, player2: Address, amount: int, tokenAddress: Token)

  datatype MultiAssetParams = MultiAssetParams(limit: seq<int>, tokenAddresses: seq<Token>)

  datatype SingleAssetParams = SingleAssetParams(limit: int, tokenAddress: Token)

  /** At most one of the three is present. */
  datatype InterpreterParams =
    | TwoParty(twoParty: TwoPartyParams)
    | MultiAsset(multiAsset: MultiAssetParams)
    | SingleAsset(singleAsset: SingleAssetParams)
    | NoParams

  datatype AppInstance = AppInstance(
    participants: seq<Address>,
    defaultTimeout: nat,
    appInterface: AppInterface,
    isVirtualApp: bool,
    appSeqNo: nat,
    latestState: AppState,
    latestVersionNumber: nat,
    latestTimeout: nat,
    outcomeType: OutcomeType,
    interpreterParams: InterpreterParams)
  {
    function IdentityHash(): Hash {
      AppHash(appSeqNo, participants)
    }

    /** A new state: one version later, with the default timeout. */
    function SetState(newState: AppState): AppInstance {
      this.(latestState := newState,
            latestVersionNumber := latestVersionNumber + 1,
            latestTimeout := defaultTimeout)
    }
  }

  /** What the chain answers: the block number, and the outcome of an app contract on a state. */
  datatype Provider = Provider(blockNumber: nat, computeOutcome: (AppInterface, AppState) -> Outcome)

  function ComputeOutcome(app: AppInstance, provider: Provider): Outcome {
    provider.computeOutcome(app.appInterface, app.latestState)
  }
}
