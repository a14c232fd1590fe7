/** Objects of amounts: `merge` and `flip`, the sum of all amounts, and how they interact. */
module Amounts {
  import opened Dictionaries
  import opened Results

  /** `d[k] || Zero` */
  function Amount<K(==)>(d: Assoc<K, int>, k: K): int {
    Lookup(d, k).GetOr(0)
  }

  function Total<K>(d: Assoc<K, int>): int {
    if d.Nil? then 0 else d.value + Total(d.rest)
  }

  /** All values negated, keys in the same order. */
  function Flip<K(==, !new)>(d: Dict<K, int>): (r: Dict<K, int>)
    ensures forall k :: Has(r, k) <==> Has(d, k)
    ensures forall k :: Lookup(r, k) == if Has(d, k) then Some(-Lookup(d, k).value) else None
    ensures forall k :: Amount(r, k) == -Amount(d, k)
    ensures Total(r) == -Total(d)
  {
    if d.Nil? then Nil else Cons(d.key, -d.value, Flip(d.rest))
  }

  lemma {:induction false} TotalPut<K(!new)>(d: Dict<K, int>, k: K, v: int)
    ensures Total(Put(d, k, v)) == Total(d) - Amount(d, k) + v
  {
    if d.Cons? && d.key != k {
      TotalPut(d.rest, k, v);
    }
  }

  lemma {:induction false} TotalDelete<K(!new)>(d: Dict<K, int>, k: K)
    ensures Total(Delete(d, k)) == Total(d) - Amount(d, k)
  {
    if d.Cons? && d.key != k {
      TotalDelete(d.rest, k);
    }
  }

  /** `merge`: the base incremented by each amount, over the union of the keys. */
  function Merged<K(==, !new)>(base: Dict<K, int>, increments: Dict<K, int>): (r: Dict<K, int>)
    ensures forall k :: Amount(r, k) == Amount(base, k) + Amount(increments, k)
    ensures forall k :: Has(r, k) <==> Has(base, k) || Has(increments, k)
    decreases increments
  {
    if increments.Nil? then base else
      Merged(Put(base, increments.key, Amount(base, increments.key) + increments.value), increments.rest)
  }

  lemma {:induction false} MergedTotal<K(!new)>(base: Dict<K, int>, increments: Dict<K, int>)
    ensures Total(Merged(base, increments)) == Total(base) + Total(increments)
    decreases increments
  {
    if increments.Cons? {
      var k, v := increments.key, Amount(base, increments.key) + increments.value;
      TotalPut(base, k, v);
      MergedTotal(Put(base, k, v), increments.rest);
    }
  }

  /** Merging an increment and then its negation restores every amount. */
  lemma MergeFlipRestores<K(!new)>(base: Dict<K, int>, increments: Dict<K, int>, k: K)
    ensures Amount(Merged(Merged(base, increments), Flip(increments)), k) == Amount(base, k)
  {
  }
}
