/** The free balance: per-token balances and the set of active apps (models/free-balance.ts). */
module FreeBalances {
  import opened Amounts
  import opened AppInstances
  import opened Dictionaries
  import opened Primitives
  import opened Results

  type CoinTransferMap = Dict<Address, int>

  type TokenIndexedCoinTransferMap = Dict<Token, CoinTransferMap>

  type Balances = Dict<Token, seq<CoinTransfer>>

  /** The active apps map only ever holds `true`, so the value carries nothing. */
  datatype FreeBalance = FreeBalance(activeApps: Dict<Hash, ()>, balances: Balances)

  /** `convertCoinTransfersToCoinTransfersMap(balances[token])`; an absent token has no transfers. */
  function TokenMap(balances: Balances, token: Token): CoinTransferMap {
    FromEntries(Lookup(balances, token).GetOr([]))
  }

  function IncrementsOf(increments: TokenIndexedCoinTransferMap, token: Token): CoinTransferMap {
    Lookup(increments, token).GetOr(Nil)
  }

  /** `{ [token]: amounts }` */
  function SingleToken(token: Token, amounts: CoinTransferMap): TokenIndexedCoinTransferMap {
    Singleton(token, amounts)
  }

  /** The balance of one beneficiary in one token, zero when there is none. */
  function Balance(balances: Balances, token: Token, to: Address): int {
    Amount(TokenMap(balances, token), to)
  }

  function FreeTotal(balances: Balances, token: Token): int {
    Total(TokenMap(balances, token))
  }

  predicate HasNegative(amounts: CoinTransferMap)
    ensures HasNegative(amounts) <==> exists a :: Amount(amounts, a) < 0
  {
    assert amounts.Cons? ==> Amount(amounts, amounts.key) == amounts.value;
    assert amounts.Cons? ==> forall a :: a != amounts.key ==> Amount(amounts, a) == Amount(amounts.rest, a);
    assert amounts.Cons? ==> Amount(amounts.rest, amounts.key) == 0;
    amounts.Cons? && (amounts.value < 0 || HasNegative(amounts.rest))
  }

  /** `increment`, token by token: the first token left with a negative amount aborts it. */
  function Increment(balances: Balances, increments: TokenIndexedCoinTransferMap): Result<Balances>
    decreases increments
  {
    if increments.Nil? then Ok(balances) else
      var t2 := Merged(TokenMap(balances, increments.key), increments.value);
      if HasNegative(t2) then Err(NegativeBalance)
      else Increment(Put(balances, increments.key, Entries(t2)), increments.rest)
  }

  lemma {:induction false} PutTokenMap(balances: Balances, token: Token, amounts: CoinTransferMap)
    ensures TokenMap(Put(balances, token, Entries(amounts)), token) == amounts
    ensures forall t :: t != token ==> TokenMap(Put(balances, token, Entries(amounts)), t) == TokenMap(balances, t)
  {
    EntriesRoundTrip(amounts);
  }

  /** It succeeds exactly when no merged token holds a negative amount, and then the map of every token
      is the old one merged with its increments. */
  lemma {:induction false} IncrementSpec(balances: Balances, increments: TokenIndexedCoinTransferMap)
    ensures var r := Increment(balances, increments);
            && (r.Err? <==> exists t :: Has(increments, t) && HasNegative(Merged(TokenMap(balances, t), IncrementsOf(increments, t))))
            && (r.Err? ==> r.error == NegativeBalance)
            && (r.Ok? ==> forall t :: Has(increments, t) ==> TokenMap(r.value, t) == Merged(TokenMap(balances, t), IncrementsOf(increments, t)))
            && (r.Ok? ==> forall t :: !Has(increments, t) ==> Lookup(r.value, t) == Lookup(balances, t))
    decreases increments
  {
    if increments.Cons? {
      var token := increments.key;
      var t2 := Merged(TokenMap(balances, token), increments.value);
      assert IncrementsOf(increments, token) == increments.value;
      assert forall t :: t != token ==> IncrementsOf(increments, t) == IncrementsOf(increments.rest, t);
      if !HasNegative(t2) {
        var balances' := Put(balances, token, Entries(t2));
        PutTokenMap(balances, token, t2);
        IncrementSpec(balances', increments.rest);
        assert forall t :: Has(increments.rest, t) ==> t != token;
      } else {
        assert Has(increments, token);
      }
    }
  }

  /** A successful increment adds every amount pointwise and in total. */
  lemma IncrementAdds(balances: Balances, increments: TokenIndexedCoinTransferMap, token: Token)
    requires Increment(balances, increments).Ok?
    ensures var balances' := Increment(balances, increments).value;
            && (forall to :: Balance(balances', token, to) == Balance(balances, token, to) + Amount(IncrementsOf(increments, token), to))
            && FreeTotal(balances', token) == FreeTotal(balances, token) + Total(IncrementsOf(increments, token))
  {
    IncrementSpec(balances, increments);
    MergedTotal(TokenMap(balances, token), IncrementsOf(increments, token));
  }

  ghost predicate NonNegative(balances: Balances) {
    forall t, to :: Balance(balances, t, to) >= 0
  }

  /** On non-negative balances the increment succeeds exactly when every resulting balance is
      non-negative, and then they stay so. */
  lemma IncrementNonNegative(balances: Balances, increments: TokenIndexedCoinTransferMap)
    requires NonNegative(balances)
    ensures Increment(balances, increments).Ok? <==>
            forall t, to :: Balance(balances, t, to) + Amount(IncrementsOf(increments, t), to) >= 0
    ensures Increment(balances, increments).Ok? ==> NonNegative(Increment(balances, increments).value)
  {
    IncrementSpec(balances, increments);
    var r := Increment(balances, increments);
    if r.Ok? {
      forall t, to
        ensures Balance(balances, t, to) + Amount(IncrementsOf(increments, t), to) >= 0
        ensures Balance(r.value, t, to) >= 0
      {
        IncrementAdds(balances, increments, t);
        assert Balance(balances, t, to) >= 0;
        if Has(increments, t) {
          assert !HasNegative(Merged(TokenMap(balances, t), IncrementsOf(increments, t)));
        }
      }
    } else {
      var t :| Has(increments, t) && HasNegative(Merged(TokenMap(balances, t), IncrementsOf(increments, t)));
      var to :| Amount(Merged(TokenMap(balances, t), IncrementsOf(increments, t)), to) < 0;
      assert Balance(balances, t, to) + Amount(IncrementsOf(increments, t), to) < 0;
    }
  }

  /** Every amount negated, keys in the same order. */
  function FlipTokenIndexedBalances(increments: TokenIndexedCoinTransferMap): (r: TokenIndexedCoinTransferMap)
    ensures forall t :: Has(r, t) <==> Has(increments, t)
    ensures forall t :: Lookup(r, t) == if Has(increments, t) then Some(Flip(Lookup(increments, t).value)) else None
    ensures forall t :: IncrementsOf(r, t) == Flip(IncrementsOf(increments, t))
  {
    if increments.Nil? then Nil else
      Cons(increments.key, Flip(increments.value), FlipTokenIndexedBalances(increments.rest))
  }

  // ---- Serialisation ----

  function TokenAddresses(balances: Balances): seq<Token> {
    if balances.Nil? then [] else [balances.key] + TokenAddresses(balances.rest)
  }

  function BalanceLists(balances: Balances): seq<seq<CoinTransfer>> {
    if balances.Nil? then [] else [balances.value] + BalanceLists(balances.rest)
  }

  function ActiveList(apps: Dict<Hash, ()>): seq<Hash> {
    if apps.Nil? then [] else [apps.key] + ActiveList(apps.rest)
  }

  function Serialize(fb: FreeBalance): FreeBalanceJson {
    FreeBalanceJson(TokenAddresses(fb.balances), BalanceLists(fb.balances), ActiveList(fb.activeApps))
  }

  /** `balances[idx]` for the idx-th token; a missing list throws. */
  function ZipTokens(tokens: seq<Token>, lists: seq<seq<CoinTransfer>>): Result<seq<Entry<Token, seq<CoinTransfer>>>> {
    if tokens == [] then Ok([])
    else if lists == [] then Err(CorruptFreeBalance)
    else
      var rest :- ZipTokens(tokens[1..], lists[1..]);
      Ok([Entry(tokens[0], lists[0])] + rest)
  }

  function MarkActive(apps: seq<Hash>): seq<Entry<Hash, ()>> {
    if apps == [] then [] else [Entry(apps[0], ())] + MarkActive(apps[1..])
  }

  function Deserialize(json: FreeBalanceJson): Result<FreeBalance> {
    var entries :- ZipTokens(json.tokenAddresses, json.balances);
    Ok(FreeBalance(FromEntries(MarkActive(json.activeApps)), FromEntries(entries)))
  }

  lemma {:induction false} ZipRoundTrip(balances: Balances)
    ensures ZipTokens(TokenAddresses(balances), BalanceLists(balances)) == Ok(Entries(balances))
  {
    if balances.Cons? {
      ZipRoundTrip(balances.rest);
      assert TokenAddresses(balances)[1..] == TokenAddresses(balances.rest);
      assert BalanceLists(balances)[1..] == BalanceLists(balances.rest);
    }
  }

  lemma {:induction false} MarkRoundTrip(apps: Dict<Hash, ()>)
    ensures MarkActive(ActiveList(apps)) == Entries(apps)
  {
    if apps.Cons? {
      MarkRoundTrip(apps.rest);
      assert apps.value == ();
      assert ActiveList(apps)[1..] == ActiveList(apps.rest);
    }
  }

  /** Serialising loses nothing, not even the order of tokens, recipients and active apps. */
  lemma SerializeRoundTrip(fb: FreeBalance)
    ensures Deserialize(Serialize(fb)) == Ok(fb)
  {
    ZipRoundTrip(fb.balances);
    MarkRoundTrip(fb.activeApps);
    EntriesRoundTrip(fb.balances);
    EntriesRoundTrip(fb.activeApps);
  }
}
