/** Commitments, symbolic signatures on them, and the form in which signed commitments are kept
    (ethereum commitments, utils/index.ts). */
module Commitments {
  import opened AppInstances
  import opened Dictionaries
  import opened FreeBalances
  import opened Primitives
  import opened Sorting
  import opened StateChannels

  /** What a conditional transaction interprets an outcome with. */
  datatype Interpretation =
    | OfApp(outcomeType: OutcomeType, params: InterpreterParams)
    | OfAgreement(agreement: Agreement)

  /** What each commitment hashes and signs; distinct contents are assumed to have distinct hashes. */
  datatype Commitment =
    | ConditionalTransaction(multisigOwners: seq<Address>, appIdentityHash: Hash, freeBalanceIdentityHash: Hash, interpretation: Interpretation)
    | SetStateCommitment(identityHash: Hash, state: AppState, versionNumber: nat, timeout: nat)
    | WithdrawETHCommitment(multisigOwners: seq<Address>, to: Address, amount: int)
    | WithdrawERC20Commitment(multisigOwners: seq<Address>, to: Address, amount: int, tokenAddress: Token)

  /** A signature of the key of a party with the given index. */
  datatype Signature = Signature(signer: Xpub, keyIndex: nat, commitment: Commitment)

  /** Key derivation, and what address is recovered from a signature on some other commitment. */
  datatype Keys = Keys(kth: Derivation, misread: (Commitment, Signature) -> Address)

  function RecoverAddress(keys: Keys, c: Commitment, s: Signature): Address {
    if s.commitment == c then keys.kth(s.signer, s.keyIndex) else keys.misread(c, s)
  }

  datatype SignedTransaction = SignedTransaction(commitment: Commitment, signatures: seq<Signature>)

  /** `getSignedTransaction` */
  function GetSignedTransaction(keys: Keys, c: Commitment, signatures: seq<Signature>): SignedTransaction {
    SignedTransaction(c, SortBy(signatures, (s: Signature) => RecoverAddress(keys, c, s)))
  }

  /** Every signature is on the commitment itself. */
  ghost predicate ProperlySigned(t: SignedTransaction) {
    forall s :: s in t.signatures ==> s.commitment == t.commitment
  }

  lemma SignedByTheGiven(keys: Keys, c: Commitment, signatures: seq<Signature>)
    ensures forall s :: s in GetSignedTransaction(keys, c, signatures).signatures <==> s in signatures
  {
    var sorted := GetSignedTransaction(keys, c, signatures).signatures;
    SortPermutes(signatures, (s: Signature) => RecoverAddress(keys, c, s));
    forall s
      ensures s in sorted <==> s in signatures
    {
      assert s in sorted <==> s in multiset(sorted);
      assert s in signatures <==> s in multiset(signatures);
    }
  }

  /** Parties that pass the same signatures on a commitment, in whatever order, build identical signed
      transactions, with the signers in ascending order, when the signers' addresses are distinct. */
  lemma SignedFormIsCanonical(keys: Keys, c: Commitment, mine: seq<Signature>, theirs: seq<Signature>)
    requires multiset(mine) == multiset(theirs)
    requires forall s :: s in mine ==> s.commitment == c
    requires forall s, s' :: s in mine && s' in mine && keys.kth(s.signer, s.keyIndex) == keys.kth(s'.signer, s'.keyIndex) ==> s == s'
    ensures GetSignedTransaction(keys, c, mine) == GetSignedTransaction(keys, c, theirs)
    ensures var signers := GetSignedTransaction(keys, c, mine).signatures;
            forall i, j :: 0 <= i < j < |signers| ==> keys.kth(signers[i].signer, signers[i].keyIndex) <= keys.kth(signers[j].signer, signers[j].keyIndex)
  {
    var rank := (s: Signature) => RecoverAddress(keys, c, s);
    SortCanonical(mine, theirs, rank);
    SortAscending(mine, rank);
    SignedByTheGiven(keys, c, mine);
    var sorted := GetSignedTransaction(keys, c, mine).signatures;
    forall i, j | 0 <= i < j < |sorted|
      ensures keys.kth(sorted[i].signer, sorted[i].keyIndex) <= keys.kth(sorted[j].signer, sorted[j].keyIndex)
    {
      assert sorted[i] in sorted && sorted[j] in sorted;
      assert rank(sorted[i]) <= rank(sorted[j]);
    }
  }

  /** A commitment signed with the 0th keys of two parties, as the first of them builds it. */
  function Countersigned(keys: Keys, c: Commitment, mine: Xpub, theirs: Xpub): SignedTransaction {
    GetSignedTransaction(keys, c, [Signature(mine, 0, c), Signature(theirs, 0, c)])
  }

  /** Both parties build the same transaction, and every signature on it is good. */
  lemma CountersignedAlike(keys: Keys, c: Commitment, p: Xpub, q: Xpub)
    requires keys.kth(p, 0) != keys.kth(q, 0)
    ensures Countersigned(keys, c, p, q) == Countersigned(keys, c, q, p)
    ensures ProperlySigned(Countersigned(keys, c, p, q))
    ensures forall x :: x in {p, q} ==> Signature(x, 0, c) in Countersigned(keys, c, p, q).signatures
  {
    var mine, theirs := [Signature(p, 0, c), Signature(q, 0, c)], [Signature(q, 0, c), Signature(p, 0, c)];
    SignedFormIsCanonical(keys, c, mine, theirs);
    SignedByTheGiven(keys, c, mine);
    assert mine[0] in mine && mine[1] in mine;
  }

  /** A commitment signed with the 0th keys of three parties. */
  function SignedByThree(keys: Keys, c: Commitment, x: Xpub, y: Xpub, z: Xpub): SignedTransaction {
    GetSignedTransaction(keys, c, [Signature(x, 0, c), Signature(y, 0, c), Signature(z, 0, c)])
  }

  /** Whatever the order in which the three signatures are passed: it is the same transaction, all its signatures are
      good, and they are these three. */
  lemma SignedByThreeAlike(keys: Keys, c: Commitment, x: Xpub, y: Xpub, z: Xpub, signatures: seq<Signature>)
    requires keys.kth(x, 0) != keys.kth(y, 0) && keys.kth(x, 0) != keys.kth(z, 0) && keys.kth(y, 0) != keys.kth(z, 0)
    requires multiset(signatures) == multiset{Signature(x, 0, c), Signature(y, 0, c), Signature(z, 0, c)}
    ensures GetSignedTransaction(keys, c, signatures) == SignedByThree(keys, c, x, y, z)
    ensures ProperlySigned(SignedByThree(keys, c, x, y, z))
    ensures forall s :: s in SignedByThree(keys, c, x, y, z).signatures <==> s in {Signature(x, 0, c), Signature(y, 0, c), Signature(z, 0, c)}
  {
    var three := [Signature(x, 0, c), Signature(y, 0, c), Signature(z, 0, c)];
    forall s
      ensures s in signatures <==> s in three
    {
      assert s in signatures <==> s in multiset(signatures);
      assert s in three <==> s in multiset(three);
    }
    SignedFormIsCanonical(keys, c, signatures, three);
    SignedByTheGiven(keys, c, three);
  }

  // ---- The commitments that protocols build from a channel ----

  /** The set-state commitment on an app instance as it stands. */
  function CommitmentTo(app: AppInstance): Commitment {
    SetStateCommitment(app.IdentityHash(), app.latestState, app.latestVersionNumber, app.latestTimeout)
  }

  /** Likewise on the free balance of a channel. */
  function FreeBalanceCommitment(channel: StateChannel): Commitment
    requires channel.freeBalanceAppInstance.Some?
  {
    CommitmentTo(channel.freeBalanceAppInstance.value)
  }

  /** A commitment to exactly the free balance of a channel, at its version and timeout. */
  ghost predicate OnFreeBalanceOf(c: Commitment, channel: StateChannel) {
    && channel.freeBalanceAppInstance.Some? && GetFreeBalance(channel).Ok?
    && c.SetStateCommitment? && c.state.FreeBalanceState?
    && Deserialize(c.state.json) == GetFreeBalance(channel)
    && c.identityHash == channel.freeBalanceAppInstance.value.IdentityHash()
    && c.versionNumber == FreeBalanceVersion(channel)
    && c.timeout == channel.freeBalanceAppInstance.value.latestTimeout
  }

  lemma CommitsToFreeBalance(channel: StateChannel)
    requires channel.freeBalanceAppInstance.Some? && GetFreeBalance(channel).Ok?
    ensures OnFreeBalanceOf(FreeBalanceCommitment(channel), channel)
  {
  }

  function MultisigOwners(kth: Derivation, channel: StateChannel): seq<Address> {
    SigningKeysFor(kth, channel, 0)
  }

  /** The conditional transaction for an app installed in a channel. */
  function ConditionalTransactionFor(kth: Derivation, channel: StateChannel, app: AppInstance): Commitment
    requires channel.freeBalanceAppInstance.Some?
  {
    ConditionalTransaction(MultisigOwners(kth, channel), app.IdentityHash(), channel.freeBalanceAppInstance.value.IdentityHash(),
                           OfApp(app.outcomeType, app.interpreterParams))
  }

  /** The conditional transaction for an agreement: it names the pass-through app. */
  function AgreementTransaction(kth: Derivation, channel: StateChannel, passThrough: Hash, agreement: Agreement): Commitment
    requires channel.freeBalanceAppInstance.Some?
  {
    ConditionalTransaction(MultisigOwners(kth, channel), passThrough, channel.freeBalanceAppInstance.value.IdentityHash(),
                           OfAgreement(agreement))
  }

  /** A free balance update in which an app or agreement is active. */
  predicate Activates(c: Commitment, h: Hash) {
    && c.SetStateCommitment? && c.state.FreeBalanceState?
    && Deserialize(c.state.json).Ok? && Has(Deserialize(c.state.json).value.activeApps, h)
  }
}
