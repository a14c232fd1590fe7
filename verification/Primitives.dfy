/** Addresses, keys and identity hashes, with hashing and key derivation kept symbolic. */
module Primitives {

  /** An address, as the number that `parseInt(address, 16)` reads. */
  type Address = nat

  /** Token contracts are addresses; the zero address stands for ETH. */
  type Token = Address

  const CONVENTION_FOR_ETH_TOKEN_ADDRESS: Token := 0

  /** An extended public key, which also names the party that owns it. */
  datatype Xpub = Xpub(id: nat)

  /** `xkeyKthAddress`: the address of the k-th child of an extended public key. */
  type Derivation = (Xpub, nat) -> Address

  /** `appIdentityToHash`: only the nonce and the participants are hashed; distinct preimages are
      assumed to have distinct hashes. */
  datatype Hash = AppHash(channelNonce: nat, participants: seq<Address>)

  /** `getCreate2MultisigAddress`: the multisig of a set of owners, given by their sorted 0th addresses. */
  datatype Multisig = Create2(owners: seq<Address>)

  /** The sequence number of every message but the one that starts a role's step. */
  const UNASSIGNED_SEQ_NO: int := -1

  const MAX_UINT256: nat := 0x1_0000_0000_0000_0000_0000_0000_0000_0000_0000_0000_0000_0000_0000_0000_0000_0000 - 1
}
