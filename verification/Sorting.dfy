/** Ascending order by a numeric rank: `sortAddresses` and `sortSignaturesBySignerAddress`. */
module Sorting {
  import opened Primitives

  function Insert<T>(x: T, s: seq<T>, rank: T -> nat): seq<T> {
    if s == [] || rank(x) < rank(s[0]) then [x] + s else [s[0]] + Insert(x, s[1..], rank)
  }

  function SortBy<T>(s: seq<T>, rank: T -> nat): seq<T> {
    if s == [] then [] else Insert(s[0], SortBy(s[1..], rank), rank)
  }

  lemma {:induction false} InsertPermutes<T>(x: T, s: seq<T>, rank: T -> nat)
    ensures multiset(Insert(x, s, rank)) == multiset{x} + multiset(s)
  {
    if s != [] && rank(x) >= rank(s[0]) {
      InsertPermutes(x, s[1..], rank);
      assert s == [s[0]] + s[1..];
    }
  }

  /** Sorting rearranges. */
  lemma {:induction false} SortPermutes<T>(s: seq<T>, rank: T -> nat)
    ensures multiset(SortBy(s, rank)) == multiset(s)
    ensures |SortBy(s, rank)| == |s|
  {
    if s != [] {
      SortPermutes(s[1..], rank);
      InsertPermutes(s[0], SortBy(s[1..], rank), rank);
      assert s == [s[0]] + s[1..];
    }
    assert |multiset(SortBy(s, rank))| == |multiset(s)|;
  }

  ghost predicate Ascending<T>(s: seq<T>, rank: T -> nat) {
    forall i, j :: 0 <= i < j < |s| ==> rank(s[i]) <= rank(s[j])
  }

  ghost predicate DistinctRanks<T(!new)>(s: seq<T>, rank: T -> nat) {
    forall x, y :: x in s && y in s && rank(x) == rank(y) ==> x == y
  }

  lemma {:induction false} InsertAscending<T>(x: T, s: seq<T>, rank: T -> nat)
    requires Ascending(s, rank)
    ensures Ascending(Insert(x, s, rank), rank)
  {
    if s != [] && rank(x) >= rank(s[0]) {
      InsertAscending(x, s[1..], rank);
      InsertPermutes(x, s[1..], rank);
      var r := Insert(x, s[1..], rank);
      forall i | 0 <= i < |r|
        ensures rank(s[0]) <= rank(r[i])
      {
        assert r[i] in multiset(r);
        assert r[i] == x || r[i] in s[1..];
      }
    }
  }

  lemma {:induction false} SortAscending<T>(s: seq<T>, rank: T -> nat)
    ensures Ascending(SortBy(s, rank), rank)
  {
    if s != [] {
      SortAscending(s[1..], rank);
      InsertAscending(s[0], SortBy(s[1..], rank), rank);
    }
  }

  lemma AscendingHeads<T(!new)>(s: seq<T>, s': seq<T>, rank: T -> nat)
    requires s != [] && s' != [] && s[0] in s' && s'[0] in s
    requires Ascending(s, rank) && Ascending(s', rank) && DistinctRanks(s, rank)
    ensures s[0] == s'[0]
  {
    var i :| 0 <= i < |s| && s[i] == s'[0];
    var j :| 0 <= j < |s'| && s'[j] == s[0];
    assert rank(s[0]) <= rank(s[i]) && rank(s'[0]) <= rank(s'[j]);
  }

  lemma TailsMatch<T>(s: seq<T>, s': seq<T>)
    requires s != [] && s' != [] && s[0] == s'[0] && multiset(s) == multiset(s')
    ensures multiset(s[1..]) == multiset(s'[1..])
  {
    assert s == [s[0]] + s[1..] && s' == [s[0]] + s'[1..];
    assert multiset(s[1..]) == multiset(s) - multiset{s[0]} == multiset(s'[1..]);
  }

  lemma TailAscending<T(!new)>(s: seq<T>, rank: T -> nat)
    requires s != [] && Ascending(s, rank)
    ensures Ascending(s[1..], rank)
    ensures DistinctRanks(s, rank) ==> DistinctRanks(s[1..], rank)
  {
    assert forall x | x in s[1..] :: x in s;
  }

  /** With distinct ranks there is exactly one ascending arrangement of the elements. */
  lemma {:induction false} AscendingUnique<T(!new)>(s: seq<T>, s': seq<T>, rank: T -> nat)
    requires multiset(s) == multiset(s')
    requires Ascending(s, rank) && Ascending(s', rank) && DistinctRanks(s, rank)
    ensures s == s'
  {
    assert |multiset(s)| == |s| && |multiset(s')| == |s'|;
    if s != [] {
      assert s[0] in multiset(s') && s'[0] in multiset(s);
      AscendingHeads(s, s', rank);
      TailsMatch(s, s');
      TailAscending(s, rank);
      TailAscending(s', rank);
      AscendingUnique(s[1..], s'[1..], rank);
      assert s == [s[0]] + s[1..] && s' == [s'[0]] + s'[1..];
    }
  }

  /** The sorted form does not depend on the order in which the elements are passed, and it is the
      only ascending arrangement, whichever algorithm produced it. */
  lemma SortCanonical<T(!new)>(s: seq<T>, s': seq<T>, rank: T -> nat)
    requires multiset(s) == multiset(s') && DistinctRanks(s, rank)
    ensures SortBy(s, rank) == SortBy(s', rank)
    ensures forall r | multiset(r) == multiset(s) && Ascending(r, rank) :: r == SortBy(s, rank)
  {
    SortAscending(s, rank);
    SortAscending(s', rank);
    SortPermutes(s, rank);
    SortPermutes(s', rank);
    var r := SortBy(s, rank);
    assert DistinctRanks(r, rank) by {
      assert forall x | x in r :: x in multiset(s);
    }
    AscendingUnique(r, SortBy(s', rank), rank);
    forall t | multiset(t) == multiset(s) && Ascending(t, rank)
      ensures t == r
    {
      AscendingUnique(r, t, rank);
    }
  }

  function SortAddresses(addrs: seq<Address>): seq<Address> {
    SortBy(addrs, (a: Address) => a)
  }

  lemma SortAddressesCanonical(addrs: seq<Address>, addrs': seq<Address>)
    requires multiset(addrs) == multiset(addrs')
    ensures SortAddresses(addrs) == SortAddresses(addrs')
  {
    SortCanonical(addrs, addrs', (a: Address) => a);
  }
}
