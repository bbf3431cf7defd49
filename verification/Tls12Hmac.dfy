/** HMAC over a Merkle-Damgard hash whose compression function is any function, and the
    fixed-work computation of it in src/tls12.c cbc_mac. */
module Tls12Hmac {
  import opened Arithmetic
  import opened Bits
  import opened Bytes

  /** SHA-1 and SHA-256 have blocks of 64 octets and lengths of 8, SHA-384 blocks of 128 and lengths of 16. */
  datatype Hash<!S> = Hash(init: S, transform: (S, Octets) -> S, digest: S -> Octets, block: nat, size: nat)

  ghost predicate Proper<S(!new)>(h: Hash<S>) {
    (h.block == 64 || h.block == 128) && h.size <= 64 && forall s :: |h.digest(s)| == h.size
  }

  // ----- the hash -----

  function Zeros(n: nat): (s: Octets)
    ensures |s| == n
  {
    seq(n, i => 0)
  }

  /** How many blocks a message of `length` octets takes with its padding. */
  function Blocks(block: nat, length: nat): nat
    requires block == 64 || block == 128
  {
    (length + 1 + block / 8 + block - 1) / block
  }

  /** The message, a one bit, zeros, and its length in bits after `before` octets that were already hashed. */
  function Padded(block: nat, before: nat, message: Octets): (s: Octets)
    requires block == 64 || block == 128
    ensures |s| == Blocks(block, |message|) * block
  {
    var total := Blocks(block, |message|) * block;
    BlocksFit(block, |message|);
    message + [0x80] + Zeros(total - |message| - 1 - block / 8) + Big(8 * (before + |message|), block / 8)
  }

  lemma BlocksFit(block: nat, length: nat)
    requires block == 64 || block == 128
    ensures length + 1 + block / 8 <= Blocks(block, length) * block < length + 1 + block / 8 + block
  {
  }

  function Absorb<S>(h: Hash<S>, s: S, data: Octets): S
    requires h.block > 0 && |data| % h.block == 0
    decreases |data|
  {
    if data == [] then s else
      WholeBlocks(|data|, h.block);
      Absorb(h, h.transform(s, data[..h.block]), data[h.block..])
  }

  lemma WholeBlocks(n: nat, block: nat)
    requires block > 0 && n > 0 && n % block == 0
    ensures n >= block && (n - block) % block == 0
  {
    var q := n / block;
    if q > 0 {
      Scaled(block, q);
      Less(block, q);
      DivisionUnique(n - block, block, q - 1, 0);
    }
  }

  lemma Less(b: nat, q: nat)
    requires q >= 1
    ensures b * q - b == b * (q - 1)
  {
  }

  lemma Multiple(n: nat, b: nat)
    requires b > 0
    ensures (n * b) % b == 0
  {
    DivisionUnique(n * b, b, n, 0);
  }

  function Digest<S>(h: Hash<S>, message: Octets): Octets
    requires h.block == 64 || h.block == 128
  {
    Multiple(Blocks(h.block, |message|), h.block);
    h.digest(Absorb(h, h.init, Padded(h.block, 0, message)))
  }

  /** The key, filled up to a block, under a constant. */
  function KeyBlock(block: nat, key: Octets, constant: nat): (s: Octets)
    requires constant < 256
    ensures |s| == block
  {
    seq(block, i requires 0 <= i < block => KeyByte(key, i, constant))
  }

  function KeyByte(key: Octets, i: nat, constant: nat): Byte
    requires constant < 256
  {
    XorOctet(if i < |key| then key[i] as nat else 0, constant);
    Xor(if i < |key| then key[i] as nat else 0, constant) as Byte
  }

  /** HMAC of RFC 2104 for keys of at most a block; those of TLS 1.2 have the size of the digest. */
  function Hmac<S>(h: Hash<S>, key: Octets, message: Octets): Octets
    requires (h.block == 64 || h.block == 128) && |key| <= h.block
  {
    Digest(h, KeyBlock(h.block, key, 0x5C) + Digest(h, KeyBlock(h.block, key, 0x36) + message))
  }

  // ----- the inner hash block by block -----

  lemma {:induction false} AbsorbMore<S>(h: Hash<S>, s: S, data: Octets, block: Octets)
    requires h.block > 0 && |data| % h.block == 0 && |block| == h.block
    ensures (|data| + h.block) % h.block == 0
    ensures Absorb(h, s, data + block) == h.transform(Absorb(h, s, data), block)
    decreases |data|
  {
    Whole(|data|, h.block);
    if data == [] {
      assert data + block == block && block[..h.block] == block && block[h.block..] == [];
    } else {
      WholeBlocks(|data|, h.block);
      AbsorbMore(h, h.transform(s, data[..h.block]), data[h.block..], block);
      assert (data + block)[..h.block] == data[..h.block] && (data + block)[h.block..] == data[h.block..] + block;
    }
  }

  lemma Whole(n: nat, b: nat)
    requires b > 0 && n % b == 0
    ensures (n + b) % b == 0
  {
    var q := n / b;
    assert n == b * q;
    assert n + b == b * (q + 1);
    DivisionUnique(n + b, b, q + 1, 0);
  }

  /** The first block is the key block, so the rest can be hashed from there. */
  lemma DigestAfterBlock<S>(h: Hash<S>, first: Octets, message: Octets)
    requires (h.block == 64 || h.block == 128) && |first| == h.block
    ensures (Blocks(h.block, |message|) * h.block) % h.block == 0
    ensures Digest(h, first + message) ==
        h.digest(Absorb(h, h.transform(h.init, first), Padded(h.block, h.block, message)))
  {
    var block := h.block;
    Multiple(Blocks(block, |message|), block);
    Multiple(Blocks(block, |first + message|), block);
    OneMore(block, |message|);
    var whole := Padded(block, 0, first + message);
    assert whole == first + Padded(block, block, message);
    assert whole[..block] == first && whole[block..] == Padded(block, block, message);
    hide Padded, Blocks;
  }

  lemma OneMore(block: nat, length: nat)
    requires block == 64 || block == 128
    ensures Blocks(block, block + length) == Blocks(block, length) + 1
  {
  }
}
