/** From the outcome of an app to increments of the free balance (engine/utils/get-outcome-increments.ts). */
module Outcomes {
  import opened Amounts
  import opened AppInstances
  import opened Dictionaries
  import opened FreeBalances
  import opened Primitives
  import opened Results

  const MAX_SAFE_INTEGER: nat := 9007199254740991

  /** `bigNumberify(amount).div(2)`, which truncates toward zero. */
  function Half(amount: int): int {
    if amount >= 0 then amount / 2 else -(-amount / 2)
  }

  function Single(to: Address, amount: int): CoinTransferMap {
    Singleton(to, amount)
  }

  function Pair(to1: Address, amount1: int, to2: Address, amount2: int): CoinTransferMap {
    Put(Put(Nil, to1, amount1), to2, amount2)
  }

  function TwoPartyIncrements(value: nat, p: TwoPartyParams): Result<TokenIndexedCoinTransferMap> {
    if value > MAX_SAFE_INTEGER then Err(UnsupportedOutcome)
    else if value == 0 then Ok(SingleToken(p.tokenAddress, Single(p.player1, p.amount)))
    else if value == 1 then Ok(SingleToken(p.tokenAddress, Single(p.player2, p.amount)))
    else Ok(SingleToken(p.tokenAddress, Pair(p.player1, Half(p.amount), p.player2, p.amount - Half(p.amount))))
  }

  function MultiAssetIncrements(lists: seq<seq<CoinTransfer>>, tokens: seq<Token>): TokenIndexedCoinTransferMap {
    if tokens == [] then Nil else
      var n := |tokens| - 1;
      Put(MultiAssetIncrements(lists, tokens[..n]), tokens[n], FromEntries(if n < |lists| then lists[n] else []))
  }

  /** `computeTokenIndexedFreeBalanceIncrements`, for an outcome already obtained. An app whose state
      has a threshold is a refund app and takes the special case whatever its outcome type. */
  function ComputeIncrements(app: AppInstance, outcome: Outcome): Result<TokenIndexedCoinTransferMap> {
    if app.latestState.RefundState? then
      if outcome.TwoTransfers? && app.latestState.tokenAddress.Some? && outcome.first.value > 0
      then Ok(SingleToken(app.latestState.tokenAddress.value, Single(outcome.first.key, outcome.first.value)))
      else Err(NoDeposit)
    else match (app.outcomeType, outcome, app.interpreterParams)
      case (TWO_PARTY_FIXED_OUTCOME, FixedOutcome(value), TwoParty(p)) =>
        TwoPartyIncrements(value, p)
      case (SINGLE_ASSET_TWO_PARTY_COIN_TRANSFER, TwoTransfers(t1, t2), SingleAsset(p)) =>
        Ok(SingleToken(p.tokenAddress, Pair(t1.key, t1.value, t2.key, t2.value)))
      case (MULTI_ASSET_MULTI_PARTY_COIN_TRANSFER, TransferLists(lists), MultiAsset(p)) =>
        Ok(MultiAssetIncrements(lists, p.tokenAddresses))
      case _ => Err(UnsupportedOutcome)
  }

  /** Whatever the fixed outcome, and whether the amount is odd, the two players receive exactly
      the amount: all of it for distinct players, and for equal players unless it is split. */
  lemma TwoPartyPaysAmount(value: nat, p: TwoPartyParams)
    requires value <= MAX_SAFE_INTEGER
    ensures var r := TwoPartyIncrements(value, p);
            && r.Ok?
            && (Total(IncrementsOf(r.value, p.tokenAddress)) == p.amount
                <==> p.player1 != p.player2 || value < 2 || Half(p.amount) == 0)
            && (forall t :: t != p.tokenAddress ==> IncrementsOf(r.value, t) == Nil)
            && (p.player1 != p.player2 ==>
                  forall to :: to != p.player1 && to != p.player2 ==> Amount(IncrementsOf(r.value, p.tokenAddress), to) == 0)
  {
    PairTotal(p.player1, Half(p.amount), p.player2, p.amount - Half(p.amount));
  }

  /** Two transfers in one object add up exactly when they go to different recipients, or the one
      that is overwritten is zero. */
  lemma PairTotal(to1: Address, amount1: int, to2: Address, amount2: int)
    ensures Total(Pair(to1, amount1, to2, amount2)) == amount1 + amount2 <==> to1 != to2 || amount1 == 0
    ensures Amount(Pair(to1, amount1, to2, amount2), to2) == amount2
    ensures to1 != to2 ==> Amount(Pair(to1, amount1, to2, amount2), to1) == amount1
  {
    TotalPut(Nil, to1, amount1);
    TotalPut(Put(Nil, to1, amount1), to2, amount2);
  }

  /** What a fixed outcome pays to one address; to equal players, the second entry overwrites the first. */
  function FixedShare(value: nat, p: TwoPartyParams, to: Address): int {
    if to == p.player2 && value != 0 then (if value == 1 then p.amount else p.amount - Half(p.amount))
    else if to == p.player1 && value != 1 then (if value == 0 then p.amount else Half(p.amount))
    else 0
  }

  lemma FixedSharesPaid(value: nat, p: TwoPartyParams)
    requires value <= MAX_SAFE_INTEGER
    ensures var r := TwoPartyIncrements(value, p);
            && r.Ok? && Has(r.value, p.tokenAddress)
            && forall to :: Amount(IncrementsOf(r.value, p.tokenAddress), to) == FixedShare(value, p, to)
  {
  }

  const REFUND_ATTEMPTS := 10

  /** `handleRefundAppOutcomeSpecialCase`: the chain is asked again, up to ten times in all, until the
      first transfer is positive. `later(k)` is the answer to the query before attempt k. */
  method HandleRefundApp(first: CoinTransfer, later: nat -> CoinTransfer, token: Token)
      returns (r: Result<TokenIndexedCoinTransferMap>)
    ensures r.Ok? ==> exists k :: 1 <= k <= REFUND_ATTEMPTS && FirstPositive(first, later, k)
                                  && r.value == SingleToken(token, Single(Answer(first, later, k).key, Answer(first, later, k).value))
    ensures r.Err? <==> forall k :: 1 <= k <= REFUND_ATTEMPTS ==> Answer(first, later, k).value <= 0
    ensures r.Err? ==> r.error == NoDeposit
  {
    var outcome := first;
    var attempts := 1;
    while attempts <= REFUND_ATTEMPTS
      invariant 1 <= attempts <= REFUND_ATTEMPTS + 1
      invariant outcome == Answer(first, later, attempts)
      invariant forall k :: 1 <= k < attempts ==> Answer(first, later, k).value <= 0
    {
      if outcome.value > 0 {
        assert FirstPositive(first, later, attempts);
        return Ok(SingleToken(token, Single(outcome.key, outcome.value)));
      }
      attempts := attempts + 1;
      outcome := later(attempts);
    }
    return Err(NoDeposit);
  }

  /** The outcome looked at in the k-th attempt. */
  function Answer(first: CoinTransfer, later: nat -> CoinTransfer, k: nat): CoinTransfer {
    if k == 1 then first else later(k)
  }

  ghost predicate FirstPositive(first: CoinTransfer, later: nat -> CoinTransfer, k: nat) {
    && Answer(first, later, k).value > 0
    && forall j :: 1 <= j < k ==> Answer(first, later, j).value <= 0
  }
}
