/** Vocabulary shared by the token-program abstraction and the owner-gated
    mint program: fixed-width integers, account addresses, and the
    failure-carrying wrappers every instruction returns. */
module Types {

  /** Rust `u8`: the width of a derivation bump. */
  type u8 = x: int | 0 <= x < 0x100

  /** Rust `u64`: the width of a mint amount. */
  type u64 = x: int | 0 <= x < 0x1_0000_0000_0000_0000

  datatype Option<+T> = None | Some(value: T)

  /** Either the new value or the error that aborted the instruction. */
  datatype Result<+T, +E> = Ok(value: T) | Err(error: E)

  /** An account address.
      A `Wallet` key is a point of the signature curve and has a secret key.
      A `Derived` address is a program-derived address: the hash of a tag,
      a base address and a bump. Two derived addresses are equal exactly when
      their seeds are, and no derived address is a wallet key, so nobody holds
      a secret for it. */
  datatype Pubkey =
    | Wallet(id: nat)
    | Derived(tag: string, base: Pubkey, bump: u8)

  /** The keys that signed a top-level transaction. A transaction signature
      needs a secret key, so only wallet keys can appear here. A call from
      another program, which could sign for its own derived address, is not
      modelled. */
  type TxSigners = s: set<Pubkey> | forall k | k in s :: k.Wallet? witness {}
}
