/** The types that src/api.rs imports from the rest of the crate. The
    extended private key, the derivation scheme and the signature are
    external: they appear here only as type parameters and as the three
    capabilities the API calls on them. */
module Crate {

  /** Rust `u32`. */
  newtype u32 = x: int | 0 <= x < 0x1_0000_0000

  /** Rust `u8`: message and signature bytes. */
  newtype u8 = x: int | 0 <= x < 0x100

  /** One step of a BIP-32 derivation path. */
  type DerivationIndex = u32

  /** The capabilities of the external extended-private-key type `XPrv`:
      `derive(key, scheme, index)` is `key.derive(scheme, index)`,
      `sign(key, data)` is `key.sign(data)`, and `toBytes(sig)` is
      `sig.to_bytes().to_vec()`. They are left uninterpreted: every
      property proved about the API holds whatever these functions are. */
  datatype XPrvOps<!Key, !Scheme, !Signature> = XPrvOps(
    derive: (Key, Scheme, DerivationIndex) -> Key,
    sign: (Key, seq<u8>) -> Signature,
    toBytes: Signature -> seq<u8>)
}
