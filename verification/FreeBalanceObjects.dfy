/** The mutable free balance object (models/free-balance.ts, FreeBalanceClass). */
module FreeBalanceObjects {
  import opened Amounts
  import opened Dictionaries
  import opened FreeBalances
  import opened Primitives
  import opened Results

  class FreeBalanceClass {
    var activeAppsMap: Dict<Hash, ()>
    var balancesIndexedByToken: Balances

    ghost function Value(): FreeBalance
      reads this
    {
      FreeBalance(activeAppsMap, balancesIndexedByToken)
    }

    /** `fromAppInstance`: a fresh object over its own copy of the state. */
    constructor (fb: FreeBalance)
      ensures Value() == fb
    {
      activeAppsMap := fb.activeApps;
      balancesIndexedByToken := fb.balances;
    }

    method AddActiveApp(activeApp: Hash)
      modifies this
      ensures Value() == old(Value()).(activeApps := Put(old(activeAppsMap), activeApp, ()))
    {
      activeAppsMap := Put(activeAppsMap, activeApp, ());
    }

    method RemoveActiveApp(activeApp: Hash)
      modifies this
      ensures Value() == old(Value()).(activeApps := Delete(old(activeAppsMap), activeApp))
    {
      activeAppsMap := Delete(activeAppsMap, activeApp);
    }

    /** The balance of a beneficiary, undefined when the token or the beneficiary is absent. */
    method GetBalance(tokenAddress: Token, beneficiary: Address) returns (r: Option<int>)
      ensures r.None? <==> !Has(TokenMap(balancesIndexedByToken, tokenAddress), beneficiary)
      ensures r.GetOr(0) == Balance(balancesIndexedByToken, tokenAddress, beneficiary)
    {
      r := Lookup(TokenMap(balancesIndexedByToken, tokenAddress), beneficiary);
    }

    /** The balances of a token; for a token without any, zero for each ETH recipient. */
    method WithTokenAddress(tokenAddress: Token) returns (r: CoinTransferMap)
      ensures forall to :: Amount(r, to) == Balance(balancesIndexedByToken, tokenAddress, to)
      ensures forall to :: Has(r, to) <==>
                if TokenMap(balancesIndexedByToken, tokenAddress) != Nil
                then Has(TokenMap(balancesIndexedByToken, tokenAddress), to)
                else Has(TokenMap(balancesIndexedByToken, CONVENTION_FOR_ETH_TOKEN_ADDRESS), to)
    {
      r := TokenMap(balancesIndexedByToken, tokenAddress);
      if r == Nil {
        var addresses := Keys(TokenMap(balancesIndexedByToken, CONVENTION_FOR_ETH_TOKEN_ADDRESS));
        for i := 0 to |addresses|
          invariant forall to :: Has(r, to) <==> to in addresses[..i]
          invariant forall to :: Has(r, to) ==> Lookup(r, to) == Some(0)
        {
          assert addresses[..i + 1] == addresses[..i] + [addresses[i]];
          r := Put(r, addresses[i], 0);
        }
        assert addresses[..|addresses|] == addresses;
      }
    }

    /** Increments token by token. When it throws, the tokens before the offending one have already been
        written to this object. */
    method Increment(increments: TokenIndexedCoinTransferMap) returns (ok: bool)
      modifies this`balancesIndexedByToken
      ensures ok <==> FreeBalances.Increment(old(balancesIndexedByToken), increments).Ok?
      ensures ok ==> FreeBalances.Increment(old(balancesIndexedByToken), increments) == Ok(balancesIndexedByToken)
      ensures !ok ==> exists done, token, rest :: AbortsAt(old(balancesIndexedByToken), increments, done, token, rest, balancesIndexedByToken)
    {
      var todo: TokenIndexedCoinTransferMap := increments;
      ghost var done: TokenIndexedCoinTransferMap := Nil;
      while todo.Cons?
        invariant Append(done, todo) == increments
        invariant FreeBalances.Increment(old(balancesIndexedByToken), done) == Ok(balancesIndexedByToken)
        invariant FreeBalances.Increment(old(balancesIndexedByToken), increments) == FreeBalances.Increment(balancesIndexedByToken, todo)
        decreases todo
      {
        var t1 := TokenMap(balancesIndexedByToken, todo.key);
        var t2 := Merge(t1, todo.value);
        if HasNegative(t2) {
          assert AbortsAt(old(balancesIndexedByToken), increments, done, todo.key, todo.rest, balancesIndexedByToken);
          return false;
        }
        IncrementSnoc(old(balancesIndexedByToken), done, todo.key, todo.value, todo.rest);
        done := Append(done, SingleToken(todo.key, todo.value));
        balancesIndexedByToken := Put(balancesIndexedByToken, todo.key, Entries(t2));
        todo := todo.rest;
      }
      AppendNil(done);
      return true;
    }
  }

  /** The increments `done` went through and left `partial`; the next token did not. */
  ghost predicate AbortsAt(balances: Balances, increments: TokenIndexedCoinTransferMap,
                           done: TokenIndexedCoinTransferMap, token: Token, rest: Assoc<Token, CoinTransferMap>, partial: Balances)
  {
    && Increment(balances, done) == Ok(partial)
    && exists amounts: CoinTransferMap ::
         && increments == Append(done, Cons(token, amounts, rest))
         && HasNegative(Merged(TokenMap(partial, token), amounts))
  }

  lemma {:induction false} IncrementSnoc(balances: Balances, done: TokenIndexedCoinTransferMap, token: Token,
                                         amounts: CoinTransferMap, rest: Assoc<Token, CoinTransferMap>)
    requires Distinct(Append(done, Cons(token, amounts, rest)))
    ensures Append(Append(done, SingleToken(token, amounts)), rest) == Append(done, Cons(token, amounts, rest))
    ensures Distinct(Append(done, SingleToken(token, amounts)))
    ensures Increment(balances, done).Ok? ==>
              Increment(balances, Append(done, SingleToken(token, amounts))) ==
              Increment(Increment(balances, done).value, SingleToken(token, amounts))
    decreases done
  {
    if done.Cons? {
      AppendHas(done.rest, Cons(token, amounts, rest), done.key);
      AppendHas(done.rest, SingleToken(token, amounts), done.key);
      var t2 := Merged(TokenMap(balances, done.key), done.value);
      IncrementSnoc(Put(balances, done.key, Entries(t2)), done.rest, token, amounts, rest);
    }
  }

  lemma {:induction false} AppendHas<K, V>(d: Assoc<K, V>, e: Assoc<K, V>, k: K)
    ensures Has(Append(d, e), k) <==> Has(d, k) || Has(e, k)
  {
    if d.Cons? {
      AppendHas(d.rest, e, k);
    }
  }

  /** `new Set(Object.keys(d))` */
  function KeySet<V>(d: Dict<Address, V>): (r: Dict<Address, ()>)
    ensures forall k :: Has(r, k) <==> Has(d, k)
  {
    if d.Nil? then Nil else Cons(d.key, (), KeySet(d.rest))
  }

  /** `new Set([...s1, ...s2])` */
  function Union(s1: Dict<Address, ()>, s2: Dict<Address, ()>): Dict<Address, ()>
    decreases s2
  {
    if s2.Nil? then s1 else Union(Put(s1, s2.key, ()), s2.rest)
  }

  lemma {:induction false} PutKeySet(d: CoinTransferMap, k: Address, v: int)
    ensures KeySet(Put(d, k, v)) == Put(KeySet(d), k, ())
  {
    if d.Cons? && d.key != k {
      PutKeySet(d.rest, k, v);
    }
  }

  /** The keys of a merge, in order: those of the base, then those only the increments have. */
  lemma {:induction false} MergedKeys(base: CoinTransferMap, increments: CoinTransferMap)
    ensures KeySet(Merged(base, increments)) == Union(KeySet(base), KeySet(increments))
    decreases increments
  {
    if increments.Cons? {
      var v := Amount(base, increments.key) + increments.value;
      PutKeySet(base, increments.key, v);
      MergedKeys(Put(base, increments.key, v), increments.rest);
    }
  }

  lemma {:induction false} SameKeysSameLookups(d: CoinTransferMap, d': CoinTransferMap)
    requires KeySet(d) == KeySet(d')
    requires forall k :: Amount(d, k) == Amount(d', k)
    ensures d == d'
  {
    if d.Cons? {
      assert d'.Cons? && d.key == d'.key;
      assert Amount(d, d.key) == Amount(d', d.key);
      forall k
        ensures Amount(d.rest, k) == Amount(d'.rest, k)
      {
        assert Amount(d, k) == Amount(d', k);
      }
      SameKeysSameLookups(d.rest, d'.rest);
    }
  }

  /** The loop of `merge`: each key of the union is given the sum of both sides. */
  method Merge(base: CoinTransferMap, increments: CoinTransferMap) returns (ret: CoinTransferMap)
    ensures ret == Merged(base, increments)
  {
    var todo: Dict<Address, ()> := Union(KeySet(base), KeySet(increments));
    ret := Nil;
    while todo.Cons?
      invariant Append(KeySet(ret), todo) == Union(KeySet(base), KeySet(increments))
      invariant forall k :: Has(ret, k) ==> Lookup(ret, k) == Some(Amount(base, k) + Amount(increments, k))
      decreases todo
    {
      assert todo.value == ();
      DisjointAppend(KeySet(ret), todo, todo.key);
      PutFresh(KeySet(ret), todo.key, (), todo.rest);
      PutKeySet(ret, todo.key, Amount(base, todo.key) + Amount(increments, todo.key));
      ret := Put(ret, todo.key, Amount(base, todo.key) + Amount(increments, todo.key));
      todo := todo.rest;
    }
    AppendNil(KeySet(ret));
    MergedKeys(base, increments);
    ghost var m := Merged(base, increments);
    forall k
      ensures Amount(ret, k) == Amount(m, k)
    {
      assert Has(ret, k) <==> Has(KeySet(ret), k);
      assert Has(m, k) <==> Has(KeySet(m), k);
    }
    SameKeysSameLookups(ret, m);
  }

  lemma {:induction false} DisjointAppend<V>(d: Assoc<Address, V>, e: Assoc<Address, V>, k: Address)
    requires Distinct(Append(d, e)) && Has(e, k)
    ensures !Has(d, k)
  {
    if d.Cons? {
      AppendHas(d.rest, e, k);
      DisjointAppend(d.rest, e, k);
    }
  }
}
