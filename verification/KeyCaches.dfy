/** The caches in front of key derivation and of the multisig address (engine/xkeys.ts, utils/create2-address.ts). */
module KeyCaches {
  import opened Primitives
  import opened Sorting
  import opened StateChannels

  class KeyCache {
    const kth: Derivation
    var xkeyKthAddressCache: map<Xpub, map<nat, Address>>
    var multisigCache: map<seq<Xpub>, Multisig>

    /** Whatever is cached is what would be derived. */
    ghost predicate Valid()
      reads this
    {
      && (forall x, k :: x in xkeyKthAddressCache && k in xkeyKthAddressCache[x] ==> xkeyKthAddressCache[x][k] == kth(x, k))
      && (forall owners :: owners in multisigCache ==> multisigCache[owners] == MultisigOf(kth, owners))
    }

    constructor (derivation: Derivation)
      ensures Valid() && kth == derivation
    {
      kth := derivation;
      xkeyKthAddressCache := map[];
      multisigCache := map[];
    }

    method XkeyKthAddress(xkey: Xpub, k: nat) returns (address: Address)
      requires Valid()
      modifies this`xkeyKthAddressCache
      ensures Valid()
      ensures address == kth(xkey, k)
      ensures xkey in xkeyKthAddressCache && k in xkeyKthAddressCache[xkey]
    {
      if xkey !in xkeyKthAddressCache {
        xkeyKthAddressCache := xkeyKthAddressCache[xkey := map[]];
      }
      if k !in xkeyKthAddressCache[xkey] {
        var derived: map<nat, Address> := xkeyKthAddressCache[xkey][k := kth(xkey, k)];
        xkeyKthAddressCache := xkeyKthAddressCache[xkey := derived];
      }
      address := xkeyKthAddressCache[xkey][k];
    }

    method XkeysToSortedKthAddresses(xkeys: seq<Xpub>, k: nat) returns (addresses: seq<Address>)
      requires Valid()
      modifies this`xkeyKthAddressCache
      ensures Valid()
      ensures addresses == SortedKthAddresses(kth, xkeys, k)
    {
      addresses := [];
      for i := 0 to |xkeys|
        invariant Valid()
        invariant addresses == KthAddresses(kth, xkeys, k)[..i]
      {
        var address := XkeyKthAddress(xkeys[i], k);
        addresses := addresses + [address];
      }
      assert KthAddresses(kth, xkeys, k)[..|xkeys|] == KthAddresses(kth, xkeys, k);
      addresses := SortAddresses(addresses);
    }

    /** The address is cached under the owners as they are passed, in whatever order. */
    method GetCreate2MultisigAddress(owners: seq<Xpub>) returns (multisig: Multisig)
      requires Valid()
      modifies this
      ensures Valid()
      ensures multisig == MultisigOf(kth, owners)
    {
      if owners !in multisigCache {
        var addresses := XkeysToSortedKthAddresses(owners, 0);
        multisigCache := multisigCache[owners := Create2(addresses)];
      }
      multisig := multisigCache[owners];
    }
  }

  lemma KthAddressesAppend(kth: Derivation, xs: seq<Xpub>, ys: seq<Xpub>, k: nat)
    ensures KthAddresses(kth, xs + ys, k) == KthAddresses(kth, xs, k) + KthAddresses(kth, ys, k)
  {
  }

  lemma PickOut<T>(a: seq<T>, x: T, b: seq<T>)
    ensures multiset(a + [x] + b) == multiset{x} + multiset(a + b)
  {
  }

  lemma SameRest<T>(x: T, s: multiset<T>, s': multiset<T>)
    requires multiset{x} + s == multiset{x} + s'
    ensures s == s'
  {
    assert s == (multiset{x} + s) - multiset{x};
    assert s' == (multiset{x} + s') - multiset{x};
  }

  lemma KthAddressesPickOut(kth: Derivation, a: seq<Xpub>, x: Xpub, b: seq<Xpub>, k: nat)
    ensures multiset(KthAddresses(kth, a + [x] + b, k)) == multiset{kth(x, k)} + multiset(KthAddresses(kth, a + b, k))
  {
    KthAddressesAppend(kth, a + [x], b, k);
    KthAddressesAppend(kth, a, [x], k);
    KthAddressesAppend(kth, a, b, k);
    assert KthAddresses(kth, [x], k) == [kth(x, k)];
    PickOut(KthAddresses(kth, a, k), kth(x, k), KthAddresses(kth, b, k));
  }

  lemma {:induction false} KthAddressesPermute(kth: Derivation, xpubs: seq<Xpub>, xpubs': seq<Xpub>, k: nat)
    requires multiset(xpubs) == multiset(xpubs')
    ensures multiset(KthAddresses(kth, xpubs, k)) == multiset(KthAddresses(kth, xpubs', k))
    decreases |xpubs|
  {
    assert |multiset(xpubs)| == |xpubs| && |multiset(xpubs')| == |xpubs'|;
    if xpubs != [] {
      var x, xs := xpubs[0], xpubs[1..];
      assert xpubs == [] + [x] + xs && [] + xs == xs;
      PickOut([], x, xs);
      assert x in multiset(xpubs');
      var i :| 0 <= i < |xpubs'| && xpubs'[i] == x;
      var a, b := xpubs'[..i], xpubs'[i + 1..];
      assert xpubs' == a + [x] + b;
      PickOut(a, x, b);
      SameRest(x, multiset(xs), multiset(a + b));
      KthAddressesPermute(kth, xs, a + b, k);
      KthAddressesPickOut(kth, [], x, xs, k);
      KthAddressesPickOut(kth, a, x, b, k);
    }
  }

  /** A multisig address does not depend on the order in which its owners are passed: every party computes the
      same one, and finds the same channel by it. */
  lemma OwnersInWhateverOrder(kth: Derivation, owners: seq<Xpub>, owners': seq<Xpub>)
    requires multiset(owners) == multiset(owners')
    ensures MultisigOf(kth, owners) == MultisigOf(kth, owners')
  {
    KthAddressesPermute(kth, owners, owners', 0);
    SortAddressesCanonical(KthAddresses(kth, owners, 0), KthAddresses(kth, owners', 0));
  }
}
