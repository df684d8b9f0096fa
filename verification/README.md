# BIP-44 key derivation and signing API

A model of `src/api.rs` of rust-ed25519-bip32: the layer that builds BIP-44
account paths (`m/44'/coin'/account'/0/index`, section "Path levels" of
BIP-44), walks an Ed25519-BIP32 extended private key (`XPrv`) down such a path
one child derivation at a time, and signs bytes with the key it reaches.

- `types.dfy`, module `Crate`: the types `api.rs` imports from the crate.
  `u32`, `u8` and `DerivationIndex` are newtypes and aliases. The key type, the
  derivation scheme and the signature type are type parameters. The three
  primitives the API calls are the function-typed fields of `XPrvOps`:
  `XPrv::derive`, `XPrv::sign` and `Signature::to_bytes`. Every property below
  holds for every choice of those functions.
- `api.dfy`, module `Api`: `KeyContext` and its coin types, `HARDENED_OFFSET`
  and `harden`, `derive_path`, `key_gen`, `raw_sign` and `sign`.

`derive_path` reassigns a mutable key in a `for` loop. It is the method
`DerivePath`, proved equal to `Walk`, a left fold of `derive` over the path.
The other operations are pure, so they are functions. Dafny functions cannot
call methods, so they use `Walk`. The five-level path literal appears twice in
the source, in `key_gen` and in `sign`. Here it is the one function
`Bip44PathOf`.

Two points where the code is narrower than a reader might expect:
- BIP-44 uses non-hardened (public) derivation at the address-index level, but
  the code passes `key_index` through unchecked (src/api.rs:45, 75), so
  `Bip44PathOf` only promises `p[4] == keyIndex`.
- `XPrv::derive` returns an `XPrv` (src/api.rs:28), so it cannot fail and
  `derive` is a total function.

## Model

| member | source | states |
|---|---|---|
| `Api.KeyContext.CoinType` | src/api.rs:10-16 | Address maps to coin type 283 and Identity to 0, in both directions, and no other value occurs; both are below the hardened offset |
| `Api.Harden` | src/api.rs:19-23 | defined only for indices below 0x8000_0000, where u32 addition cannot overflow; the result is hardened (≥ 0x8000_0000), fits in u32, and its low 31 bits are the input index |
| `Api.HardenBijective` | src/api.rs:21-23 | every hardened index is `harden` of exactly one index, namely its low 31 bits |
| `Api.Walk` | src/api.rs:25-31 | the left fold of `derive` over the path, defined by recursion on the last index: an empty path gives the root itself and a one-index path the root's child; `DerivePath` is proved equal to it |
| `Api.DerivePath` | src/api.rs:25-31 | the loop computes the left fold of `derive` over the path, starting from the root; an empty path returns the root unchanged |
| `Api.WalkAppend` | src/api.rs:27-29 | deriving along `p ++ q` equals deriving along `p` and then along `q` from the key reached |
| `Api.WalkFirst` | src/api.rs:26-29 | the first index is applied to the root itself, and the rest of the path to its child |
| `Api.WalkAppliesEachIndexInOrder` | src/api.rs:27-29 | with a derivation that records its index, the walk records exactly the path: each index is applied once, in order |
| `Api.WalkOrderMatters` | src/api.rs:27-29 | the same two distinct indices in the two orders can reach different keys, so the walk does not reorder the path |
| `Api.WalkFiveLevels` | src/api.rs:26-30 | on a five-level path the walk is five nested child derivations, level 0 innermost |
| `Api.Bip44PathOf` | src/api.rs:40-46 | the path has exactly 5 levels; levels 0-2 are hardened and carry 44, the context's coin type and the account; level 3 is 0 and not hardened; level 4 is the key index unchanged |
| `Api.Bip44PathInjective` | src/api.rs:40-46 | two coordinates (context, account, key index) give the same path if and only if they are equal |
| `Api.Bip44PathExamples` | src/api.rs:70-76 | Address/0/5 gives [0x8000_002C, 0x8000_011B, 0x8000_0000, 0, 5], and Identity/2/1 gives [0x8000_002C, 0x8000_0000, 0x8000_0002, 0, 1] |
| `Api.KeyGen` | src/api.rs:33-49 | the key is the root derived at hardened 44, then at the hardened coin type, then at the hardened account, then at 0, then at the key index, in that order |
| `Api.RawSign` | src/api.rs:51-60 | the path is not validated: an empty path signs with the root key, and a one-level path signs with the root's child at that index |
| `Api.RawSignAppend` | src/api.rs:56-59 | signing along `p ++ q` from the root equals signing along `q` from the key at `p` |
| `Api.Sign` | src/api.rs:62-79 | the result is the byte encoding of the signature, over the data, by the key `key_gen` derives for the same root, context, account and key index |
| `Api.SignIsRawSignOnStandardPath` | src/api.rs:62-79 | `sign` for Identity, account 2, key index 1 equals `raw_sign` on [44', 0', 2', 0, 1] |

## Left out

- `Api.Harden`: indices at or above 0x8000_0000 are excluded by a precondition. There, Rust's u32 `+` panics in a debug build and wraps to a non-hardened index in a release build; neither outcome is modelled. `Api.KeyGen`, `Api.Bip44PathOf` and `Api.Sign` inherit the precondition on `account`.
- The internals of `XPrv::derive`: the Ed25519-BIP32 child-key arithmetic lives outside `api.rs` and is a parameter of the model.
- The internals of `XPrv::sign` and `Signature::to_bytes`: the Ed25519 signature algorithm and its encoding are external. Nothing is claimed about signature length or non-emptiness, because only those primitives fix them.
- `DerivationScheme` is external. It is a type parameter, passed through unchanged to every derivation step.
- Rust ownership and borrowing are not modelled: the `clone` of the root, the by-value `root_key` of `key_gen`, and slice borrows. Keys are values here, so the root is never changed.
- Determinism of `key_gen` and `sign` needs no lemma: both are Dafny functions, so equal inputs give equal results.
