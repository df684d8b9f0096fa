/** BIP-44 account paths and the derivation and signing entry points built on
    them (src/api.rs). The extended private key and its primitives are
    external and come in as `ops` (see module Crate). */
module Api {
  import opened Crate

  /** Rust `[DerivationIndex; 5]`: purpose, coin type, account, change,
      address index. */
  type Bip44Path = p: seq<DerivationIndex> | |p| == 5 witness [0, 0, 0, 0, 0]

  /** The namespace a key is derived under. */
  datatype KeyContext = Address | Identity {

    /** The SLIP-0044 coin type of the context: a closed lookup with no
        default case. Both registered values are below the hardened offset,
        so each can be hardened. */
    function CoinType(): (c: DerivationIndex)
      ensures c == 283 <==> this == Address
      ensures c == 0 <==> this == Identity
      ensures c < HARDENED_OFFSET
    {
      match this
      case Address => 283
      case Identity => 0
    }
  }

  /** Marks an index as a hardened child in the sense of the section "Child
      key derivation (CKD) functions" of BIP-32: the top bit of the u32. */
  const HARDENED_OFFSET: u32 := 0x8000_0000

  predicate IsHardened(index: DerivationIndex) {
    index >= HARDENED_OFFSET
  }

  /** The hardened counterpart of `index`. Rust's u32 `+` does not give a
      hardened index past 2^31 - 1 (it panics, or wraps in a release build),
      so the index must be below the offset. The result is hardened and its
      low 31 bits are `index` again. */
  function Harden(index: DerivationIndex): (h: DerivationIndex)
    requires index < HARDENED_OFFSET
    ensures IsHardened(h)
    ensures h % HARDENED_OFFSET == index
  {
    index + HARDENED_OFFSET
  }

  /** Every hardened index is the hardening of exactly one index: Harden is a
      bijection from [0, 2^31) onto the hardened range. */
  lemma HardenBijective(h: DerivationIndex)
    requires IsHardened(h)
    ensures Harden(h % HARDENED_OFFSET) == h
    ensures forall i: DerivationIndex | i < HARDENED_OFFSET && Harden(i) == h :: i == h % HARDENED_OFFSET
  {
  }

  /** The key reached from `root` by deriving along `path` left to right:
      the left fold of `derive` over `path`, defined by recursion on the last
      index. An empty path gives the root itself and a one-index path the
      root's child at that index. */
  function Walk<Key, Scheme, Signature>(
    ops: XPrvOps<Key, Scheme, Signature>, root: Key, path: seq<DerivationIndex>, scheme: Scheme): (k: Key)
    ensures |path| == 0 ==> k == root
    ensures |path| == 1 ==> k == ops.derive(root, scheme, path[0])
    decreases |path|
  {
    if |path| == 0 then root
    else ops.derive(Walk(ops, root, path[..|path| - 1], scheme), scheme, path[|path| - 1])
  }

  /** `derive_path`: start from (a copy of) the root and replace the current
      key by its child at each index in turn. */
  method DerivePath<Key, Scheme, Signature>(
    ops: XPrvOps<Key, Scheme, Signature>, rootXprv: Key, path: seq<DerivationIndex>, scheme: Scheme)
    returns (currentXprv: Key)
    ensures currentXprv == Walk(ops, rootXprv, path, scheme)
    ensures |path| == 0 ==> currentXprv == rootXprv
  {
    currentXprv := rootXprv;
    for k := 0 to |path|
      invariant currentXprv == Walk(ops, rootXprv, path[..k], scheme)
    {
      assert path[..k + 1][..k] == path[..k];
      currentXprv := ops.derive(currentXprv, scheme, path[k]);
    }
    assert path[..|path|] == path;
  }

  /** Deriving along `p + q` is deriving along `p`, then along `q` from the
      key reached. */
  lemma {:induction false} WalkAppend<Key, Scheme, Signature>(
    ops: XPrvOps<Key, Scheme, Signature>, root: Key, p: seq<DerivationIndex>, q: seq<DerivationIndex>, scheme: Scheme)
    ensures Walk(ops, root, p + q, scheme) == Walk(ops, Walk(ops, root, p, scheme), q, scheme)
    decreases |q|
  {
    if |q| == 0 {
      assert p + q == p;
    } else {
      var pq := p + q;
      assert pq[..|pq| - 1] == p + q[..|q| - 1];
      WalkAppend(ops, root, p, q[..|q| - 1], scheme);
    }
  }

  /** The first index is applied to the root itself: the fold runs left to
      right. */
  lemma WalkFirst<Key, Scheme, Signature>(
    ops: XPrvOps<Key, Scheme, Signature>, root: Key, index: DerivationIndex, rest: seq<DerivationIndex>, scheme: Scheme)
    ensures Walk(ops, root, [index] + rest, scheme) == Walk(ops, ops.derive(root, scheme, index), rest, scheme)
  {
    WalkAppend(ops, root, [index], rest, scheme);
  }

  /** With a derivation that records each index it is given, the walk records
      the path exactly: every index is applied once, in the path's order. */
  lemma {:induction false} WalkAppliesEachIndexInOrder<Scheme, Signature>(
    ops: XPrvOps<seq<DerivationIndex>, Scheme, Signature>, root: seq<DerivationIndex>, path: seq<DerivationIndex>, scheme: Scheme)
    requires forall key, s, index :: ops.derive(key, s, index) == key + [index]
    ensures Walk(ops, root, path, scheme) == root + path
    decreases |path|
  {
    if |path| == 0 {
      assert root + path == root;
    } else {
      var init := path[..|path| - 1];
      WalkAppliesEachIndexInOrder(ops, root, init, scheme);
      assert init + [path[|path| - 1]] == path;
      assert (root + init) + [path[|path| - 1]] == root + path;
    }
  }

  /** Order matters: for a derivation that distinguishes orders, the two
      orders of two distinct indices reach different keys. */
  lemma WalkOrderMatters<Scheme, Signature>(
    ops: XPrvOps<seq<DerivationIndex>, Scheme, Signature>, root: seq<DerivationIndex>,
    a: DerivationIndex, b: DerivationIndex, scheme: Scheme)
    requires forall key, s, index :: ops.derive(key, s, index) == key + [index]
    requires a != b
    ensures Walk(ops, root, [a, b], scheme) != Walk(ops, root, [b, a], scheme)
  {
    WalkAppliesEachIndexInOrder(ops, root, [a, b], scheme);
    WalkAppliesEachIndexInOrder(ops, root, [b, a], scheme);
    assert (root + [a, b])[|root|] == a;
    assert (root + [b, a])[|root|] == b;
  }

  /** The standard account path `m/44'/coin'/account'/0/index` of the
      section "Path levels" of BIP-44: purpose, coin type and account are
      hardened, the change level is the external chain 0, and the address
      index is passed through as given (it is not checked to be
      non-hardened). */
  function Bip44PathOf(context: KeyContext, account: DerivationIndex, keyIndex: DerivationIndex): (p: Bip44Path)
    requires account < HARDENED_OFFSET
    ensures forall level | 0 <= level < 3 :: IsHardened(p[level])
    ensures p[0] % HARDENED_OFFSET == 44
    ensures p[1] % HARDENED_OFFSET == context.CoinType()
    ensures p[2] % HARDENED_OFFSET == account
    ensures !IsHardened(p[3]) && p[3] == 0
    ensures p[4] == keyIndex
  {
    [Harden(44), Harden(context.CoinType()), Harden(account), 0, keyIndex]
  }

  /** Distinct (context, account, key index) coordinates give distinct
      paths, and equal ones the same path. */
  lemma Bip44PathInjective(
    c1: KeyContext, a1: DerivationIndex, k1: DerivationIndex,
    c2: KeyContext, a2: DerivationIndex, k2: DerivationIndex)
    requires a1 < HARDENED_OFFSET && a2 < HARDENED_OFFSET
    ensures Bip44PathOf(c1, a1, k1) == Bip44PathOf(c2, a2, k2) <==> c1 == c2 && a1 == a2 && k1 == k2
  {
  }

  /** The paths of two sample coordinates, Address/0/5 and Identity/2/1,
      with the constants written out:
      44' = 0x8000_002C, 283' = 0x8000_011B. */
  lemma Bip44PathExamples()
    ensures Bip44PathOf(Address, 0, 5) == [0x8000_002C, 0x8000_011B, 0x8000_0000, 0, 5]
    ensures Bip44PathOf(Identity, 2, 1) == [0x8000_002C, 0x8000_0000, 0x8000_0002, 0, 1]
  {
  }

  /** A five-level path is five child derivations, level 0 first. */
  lemma WalkFiveLevels<Key, Scheme, Signature>(
    ops: XPrvOps<Key, Scheme, Signature>, root: Key, path: Bip44Path, scheme: Scheme)
    ensures Walk(ops, root, path, scheme)
         == ops.derive(ops.derive(ops.derive(ops.derive(ops.derive(
              root, scheme, path[0]), scheme, path[1]), scheme, path[2]), scheme, path[3]), scheme, path[4])
  {
    var k1 := Walk(ops, root, path[..1], scheme);
    assert k1 == ops.derive(Walk(ops, root, path[..0], scheme), scheme, path[0]) by {
      assert path[..1][..0] == path[..0];
    }
    var k2 := Walk(ops, root, path[..2], scheme);
    assert k2 == ops.derive(k1, scheme, path[1]) by {
      assert path[..2][..1] == path[..1];
    }
    var k3 := Walk(ops, root, path[..3], scheme);
    assert k3 == ops.derive(k2, scheme, path[2]) by {
      assert path[..3][..2] == path[..2];
    }
    var k4 := Walk(ops, root, path[..4], scheme);
    assert k4 == ops.derive(k3, scheme, path[3]) by {
      assert path[..4][..3] == path[..3];
    }
  }

  /** `key_gen`: the key at `m/44'/coin'/account'/0/keyIndex`, that is, five
      child derivations from the root in that order. */
  function KeyGen<Key, Scheme, Signature>(
    ops: XPrvOps<Key, Scheme, Signature>, rootKey: Key, context: KeyContext,
    account: DerivationIndex, keyIndex: DerivationIndex, scheme: Scheme): (k: Key)
    requires account < HARDENED_OFFSET
    ensures k == ops.derive(ops.derive(ops.derive(ops.derive(ops.derive(
                   rootKey, scheme, Harden(44)),
                   scheme, Harden(context.CoinType())),
                   scheme, Harden(account)),
                   scheme, 0),
                   scheme, keyIndex)
  {
    var path := Bip44PathOf(context, account, keyIndex);
    WalkFiveLevels(ops, rootKey, path, scheme);
    Walk(ops, rootKey, path, scheme)
  }

  /** `raw_sign`: sign `data` with the key derived along `bip44Path`. The
      path is not checked for shape: an empty path signs with the root
      itself. */
  function RawSign<Key, Scheme, Signature>(
    ops: XPrvOps<Key, Scheme, Signature>, rootKey: Key, bip44Path: seq<DerivationIndex>,
    data: seq<u8>, scheme: Scheme): (sig: seq<u8>)
    ensures |bip44Path| == 0 ==> sig == ops.toBytes(ops.sign(rootKey, data))
    ensures |bip44Path| == 1 ==> sig == ops.toBytes(ops.sign(ops.derive(rootKey, scheme, bip44Path[0]), data))
  {
    ops.toBytes(ops.sign(Walk(ops, rootKey, bip44Path, scheme), data))
  }

  /** Signing along `p + q` from the root is signing along `q` from the key
      at `p`. */
  lemma RawSignAppend<Key, Scheme, Signature>(
    ops: XPrvOps<Key, Scheme, Signature>, rootKey: Key, p: seq<DerivationIndex>, q: seq<DerivationIndex>,
    data: seq<u8>, scheme: Scheme)
    ensures RawSign(ops, rootKey, p + q, data, scheme) == RawSign(ops, Walk(ops, rootKey, p, scheme), q, data, scheme)
  {
    WalkAppend(ops, rootKey, p, q, scheme);
  }

  /** `sign`: the signature of `prefixEncodedTx` by the key `key_gen` gives
      for the same root, context, account and key index. */
  function Sign<Key, Scheme, Signature>(
    ops: XPrvOps<Key, Scheme, Signature>, rootKey: Key, context: KeyContext,
    account: DerivationIndex, keyIndex: DerivationIndex, prefixEncodedTx: seq<u8>, scheme: Scheme): (sig: seq<u8>)
    requires account < HARDENED_OFFSET
    ensures sig == ops.toBytes(ops.sign(KeyGen(ops, rootKey, context, account, keyIndex, scheme), prefixEncodedTx))
  {
    RawSign(ops, rootKey, Bip44PathOf(context, account, keyIndex), prefixEncodedTx, scheme)
  }

  /** `sign` is `raw_sign` on the standard five-level path, written out for
      Identity, account 2, key index 1. */
  lemma SignIsRawSignOnStandardPath<Key, Scheme, Signature>(
    ops: XPrvOps<Key, Scheme, Signature>, rootKey: Key, data: seq<u8>, scheme: Scheme)
    ensures Sign(ops, rootKey, Identity, 2, 1, data, scheme)
         == RawSign(ops, rootKey, [0x8000_002C, 0x8000_0000, 0x8000_0002, 0, 1], data, scheme)
  {
  }
}
