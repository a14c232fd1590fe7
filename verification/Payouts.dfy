/** What an outcome pays to whom, in terms of the outcome: which player of a fixed outcome gets which part, which
    transfer and which list goes where (engine/utils/get-outcome-increments.ts). */
module Payouts {
  import opened Amounts
  import opened AppInstances
  import opened Dictionaries
  import opened FreeBalances
  import opened Outcomes
  import opened Primitives
  import opened Results

  // ---- Splitting ----

  /** Two distinct players who split an amount get both halves of it, the second the one that is further from zero when
      the amount is odd. */
  lemma SplitEvenly(value: nat, p: TwoPartyParams)
    requires 2 <= value <= MAX_SAFE_INTEGER && p.player1 != p.player2
    ensures TwoPartyIncrements(value, p).Ok?
    ensures var paid := IncrementsOf(TwoPartyIncrements(value, p).value, p.tokenAddress);
            var (s1, s2) := (Amount(paid, p.player1), Amount(paid, p.player2));
            && s1 + s2 == p.amount
            && (p.amount >= 0 ==> 0 <= s1 && 0 <= s2 - s1 <= 1)
            && (p.amount <= 0 ==> s1 <= 0 && 0 <= s1 - s2 <= 1)
  {
    PairTotal(p.player1, Half(p.amount), p.player2, p.amount - Half(p.amount));
  }

  predicate SplitsInto(player1: Address, player2: Address, token: Token, amount: int, s1: int, s2: int) {
    var r := TwoPartyIncrements(2, TwoPartyParams(player1, player2, amount, token));
    r.Ok? && Amount(IncrementsOf(r.value, token), player1) == s1 && Amount(IncrementsOf(r.value, token), player2) == s2
  }

  /** An even and an odd amount, and an odd debt. */
  lemma SplitExamples(player1: Address, player2: Address, token: Token)
    requires player1 != player2
    ensures SplitsInto(player1, player2, token, 10, 5, 5)
    ensures SplitsInto(player1, player2, token, 11, 5, 6)
    ensures SplitsInto(player1, player2, token, -11, -5, -6)
  {
    SplitEvenly(2, TwoPartyParams(player1, player2, 10, token));
    SplitEvenly(2, TwoPartyParams(player1, player2, 11, token));
    SplitEvenly(2, TwoPartyParams(player1, player2, -11, token));
  }

  // ---- Transfers and lists ----

  /** What two transfers pay to an address; of two to the same one, the second overwrites the first. */
  function TransferTo(first: CoinTransfer, second: CoinTransfer, to: Address): int {
    if to == second.key then second.value else if to == first.key then first.value else 0
  }

  /** What a list pays to an address: the last of its entries for it. */
  function ListTo(list: seq<CoinTransfer>, to: Address): int {
    if list == [] then 0
    else if list[|list| - 1].key == to then list[|list| - 1].value
    else ListTo(list[..|list| - 1], to)
  }

  /** The last place of a token in a list. */
  function LastPlace(tokens: seq<Token>, token: Token): (place: Option<nat>)
    ensures place.Some? ==> place.value < |tokens| && tokens[place.value] == token
                            && forall j :: place.value < j < |tokens| ==> tokens[j] != token
    ensures place.None? ==> token !in tokens
  {
    if tokens == [] then None
    else if tokens[|tokens| - 1] == token then Some(|tokens| - 1)
    else LastPlace(tokens[..|tokens| - 1], token)
  }

  /** The n-th list is paid in the n-th token; a missing list pays nothing. */
  function ListsTo(lists: seq<seq<CoinTransfer>>, tokens: seq<Token>, token: Token, to: Address): int {
    match LastPlace(tokens, token)
    case None => 0
    case Some(n) => if n < |lists| then ListTo(lists[n], to) else 0
  }

  lemma {:induction false} AssignLast(d: CoinTransferMap, list: seq<CoinTransfer>, last: CoinTransfer)
    ensures Assign(d, list + [last]) == Put(Assign(d, list), last.key, last.value)
    decreases |list|
  {
    if list != [] {
      assert (list + [last])[1..] == list[1..] + [last];
      AssignLast(Put(d, list[0].key, list[0].value), list[1..], last);
    }
  }

  /** A list of coin transfers, made into an object, pays to each address what its last entry for it says. */
  lemma {:induction false} ListPays(list: seq<CoinTransfer>, to: Address)
    ensures Amount(FromEntries(list), to) == ListTo(list, to)
  {
    if list != [] {
      var before, last := list[..|list| - 1], list[|list| - 1];
      ListPays(before, to);
      assert list == before + [last];
      AssignLast(Nil, before, last);
    }
  }

  /** Outcomes in several assets: each list is paid in its own token. */
  lemma {:induction false} MultiAssetPays(lists: seq<seq<CoinTransfer>>, tokens: seq<Token>, token: Token, to: Address)
    ensures Amount(IncrementsOf(MultiAssetIncrements(lists, tokens), token), to) == ListsTo(lists, tokens, token, to)
  {
    if tokens != [] {
      var n := |tokens| - 1;
      MultiAssetPays(lists, tokens[..n], token, to);
      ListPays(if n < |lists| then lists[n] else [], to);
    }
  }

  // ---- The payment ----

  /** What the outcome of an app pays to an address in a token. */
  function Payment(app: AppInstance, outcome: Outcome, token: Token, to: Address): int {
    if app.latestState.RefundState? then
      if outcome.TwoTransfers? && app.latestState.tokenAddress == Some(token) && to == outcome.first.key then outcome.first.value else 0
    else match (app.outcomeType, outcome, app.interpreterParams)
      case (TWO_PARTY_FIXED_OUTCOME, FixedOutcome(value), TwoParty(p)) =>
        if token == p.tokenAddress then FixedShare(value, p, to) else 0
      case (SINGLE_ASSET_TWO_PARTY_COIN_TRANSFER, TwoTransfers(first, second), SingleAsset(p)) =>
        if token == p.tokenAddress then TransferTo(first, second, to) else 0
      case (MULTI_ASSET_MULTI_PARTY_COIN_TRANSFER, TransferLists(lists), MultiAsset(p)) =>
        ListsTo(lists, p.tokenAddresses, token, to)
      case _ => 0
  }

  lemma IncrementsPay(app: AppInstance, outcome: Outcome, token: Token, to: Address)
    requires ComputeIncrements(app, outcome).Ok?
    ensures Amount(IncrementsOf(ComputeIncrements(app, outcome).value, token), to) == Payment(app, outcome, token, to)
  {
    match (app.outcomeType, outcome, app.interpreterParams)
    case (TWO_PARTY_FIXED_OUTCOME, FixedOutcome(value), TwoParty(p)) =>
      if !app.latestState.RefundState? {
        FixedSharesPaid(value, p);
      }
    case (MULTI_ASSET_MULTI_PARTY_COIN_TRANSFER, TransferLists(lists), MultiAsset(p)) =>
      MultiAssetPays(lists, p.tokenAddresses, token, to);
    case _ =>
  }
}
