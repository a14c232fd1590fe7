/** JavaScript objects and Maps with string keys: associations in the order in which the keys were
    first inserted. The order is kept because a state is hashed in that order. */
module Dictionaries {
  import opened Results

  datatype Assoc<K, V> = Nil | Cons(key: K, value: V, rest: Assoc<K, V>)

  predicate Has<K(==), V>(d: Assoc<K, V>, k: K) {
    d.Cons? && (d.key == k || Has(d.rest, k))
  }

  /** No key occurs twice. */
  predicate Distinct<K(==), V>(d: Assoc<K, V>) {
    d.Cons? ==> !Has(d.rest, d.key) && Distinct(d.rest)
  }

  type Dict<K(==), V> = d: Assoc<K, V> | Distinct(d) witness Nil

  function Lookup<K(==), V>(d: Assoc<K, V>, k: K): (r: Option<V>)
    ensures r.Some? <==> Has(d, k)
  {
    match d
    case Nil => None
    case Cons(key, value, rest) => if key == k then Some(value) else Lookup(rest, k)
  }

  /** `{ [k]: v }` */
  function Singleton<K(==), V>(k: K, v: V): Dict<K, V> {
    var none: Assoc<K, V> := Nil;
    assert !Has(none, k) && Distinct(none);
    Cons(k, v, none)
  }

  /** `d[k] = v`: a present key keeps its place, a new one goes last. */
  function Put<K(==, !new), V>(d: Dict<K, V>, k: K, v: V): (r: Dict<K, V>)
    ensures forall x :: Lookup(r, x) == if x == k then Some(v) else Lookup(d, x)
    ensures forall x :: Has(r, x) <==> x == k || Has(d, x)
  {
    match d
    case Nil => Cons(k, v, Nil)
    case Cons(key, value, rest) => if key == k then Cons(k, v, rest) else Cons(key, value, Put(rest, k, v))
  }

  /** `delete d[k]` */
  function Delete<K(==, !new), V>(d: Dict<K, V>, k: K): (r: Dict<K, V>)
    ensures forall x :: Lookup(r, x) == if x == k then None else Lookup(d, x)
    ensures forall x :: Has(r, x) <==> x != k && Has(d, x)
  {
    match d
    case Nil => Nil
    case Cons(key, value, rest) => if key == k then rest else Cons(key, value, Delete(rest, k))
  }

  /** `Object.keys(d)` */
  function Keys<K(==, !new), V>(d: Dict<K, V>): (r: seq<K>)
    ensures forall k :: k in r <==> Has(d, k)
  {
    if d.Nil? then [] else [d.key] + Keys(d.rest)
  }

  datatype Entry<+K, +V> = Entry(key: K, value: V)

  /** `Object.entries(d)` */
  function Entries<K(==), V>(d: Dict<K, V>): seq<Entry<K, V>> {
    if d.Nil? then [] else [Entry(d.key, d.value)] + Entries(d.rest)
  }

  /** Assigns the entries in turn: the reduce that rebuilds an object. */
  function Assign<K(==, !new), V>(d: Dict<K, V>, es: seq<Entry<K, V>>): Dict<K, V>
    decreases |es|
  {
    if es == [] then d else Assign(Put(d, es[0].key, es[0].value), es[1..])
  }

  function FromEntries<K(==, !new), V>(es: seq<Entry<K, V>>): Dict<K, V> {
    Assign(Nil, es)
  }

  ghost predicate DistinctKeys<K, V>(es: seq<Entry<K, V>>) {
    forall i, j :: 0 <= i < j < |es| ==> es[i].key != es[j].key
  }

  /** An object is its keys, in order, and their values. */
  lemma {:induction false} Extensionality<K(!new), V>(d: Dict<K, V>, d': Dict<K, V>)
    requires Keys(d) == Keys(d')
    requires forall k :: Lookup(d, k) == Lookup(d', k)
    ensures d == d'
  {
    if d.Cons? {
      assert Keys(d)[0] == d.key && Keys(d')[0] == d'.key;
      assert Keys(d)[1..] == Keys(d.rest) && Keys(d')[1..] == Keys(d'.rest);
      assert Lookup(d, d.key) == Lookup(d', d.key);
      forall k
        ensures Lookup(d.rest, k) == Lookup(d'.rest, k)
      {
        assert Lookup(d, k) == Lookup(d', k);
        assert k == d.key ==> Lookup(d.rest, k).None? && Lookup(d'.rest, k).None?;
      }
      Extensionality(d.rest, d'.rest);
    }
  }

  function Append<K, V>(d: Assoc<K, V>, e: Assoc<K, V>): Assoc<K, V> {
    if d.Nil? then e else Cons(d.key, d.value, Append(d.rest, e))
  }

  lemma {:induction false} PutFresh<K(!new), V>(d: Dict<K, V>, k: K, v: V, e: Assoc<K, V>)
    requires !Has(d, k)
    ensures Append(Put(d, k, v), e) == Append(d, Cons(k, v, e))
  {
    if d.Cons? {
      PutFresh(d.rest, k, v, e);
    }
  }

  lemma {:induction false} AssignEntries<K(!new), V>(d: Dict<K, V>, e: Dict<K, V>)
    requires forall k :: Has(d, k) ==> !Has(e, k)
    ensures Assign(d, Entries(e)) == Append(d, e)
    decreases e
  {
    if e.Nil? {
      AppendNil(d);
    } else {
      assert Has(e, e.key);
      assert Entries(e)[1..] == Entries(e.rest);
      AssignEntries(Put(d, e.key, e.value), e.rest);
      PutFresh(d, e.key, e.value, e.rest);
    }
  }

  lemma AppendNil<K, V>(d: Assoc<K, V>)
    ensures Append(d, Nil) == d
  {
  }

  /** Listing an object and rebuilding it gives the same object, in the same order. */
  lemma EntriesRoundTrip<K(!new), V>(d: Dict<K, V>)
    ensures FromEntries(Entries(d)) == d
  {
    AssignEntries(Nil, d);
  }

  lemma {:induction false} EntriesDistinct<K(!new), V>(d: Dict<K, V>)
    ensures DistinctKeys(Entries(d))
    ensures forall i :: 0 <= i < |Entries(d)| ==> Has(d, Entries(d)[i].key)
  {
    if d.Cons? {
      EntriesDistinct(d.rest);
    }
  }

  lemma {:induction false} EntriesPutFresh<K(!new), V>(d: Dict<K, V>, k: K, v: V)
    requires !Has(d, k)
    ensures Entries(Put(d, k, v)) == Entries(d) + [Entry(k, v)]
  {
    if d.Cons? {
      EntriesPutFresh(d.rest, k, v);
    }
  }

  lemma {:induction false} AssignDistinct<K(!new), V>(d: Dict<K, V>, es: seq<Entry<K, V>>)
    requires DistinctKeys(es) && forall i :: 0 <= i < |es| ==> !Has(d, es[i].key)
    ensures Entries(Assign(d, es)) == Entries(d) + es
    decreases |es|
  {
    if es != [] {
      EntriesPutFresh(d, es[0].key, es[0].value);
      AssignDistinct(Put(d, es[0].key, es[0].value), es[1..]);
    }
  }

  /** Building an object from a list and listing it gives the list back exactly when no key occurs twice. */
  lemma ListRoundTripIff<K(!new), V>(es: seq<Entry<K, V>>)
    ensures Entries(FromEntries(es)) == es <==> DistinctKeys(es)
  {
    EntriesDistinct(FromEntries(es));
    if DistinctKeys(es) {
      AssignDistinct(Nil, es);
    }
  }
}
