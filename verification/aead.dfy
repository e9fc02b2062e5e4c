/**
 * The cryptographic library the obfuscator is built on: SHA-256 for key
 * derivation and AES-256 in GCM mode for authenticated encryption. Their
 * internals are out of reach, so a `Suite` carries them as three opaque
 * functions and `Lawful` states the only facts the obfuscator relies on.
 */
module Aead {
  import opened Wrappers

  /** AES-256 key length. */
  const KeyLen := 32
  /** GCM nonce length. */
  const NonceLen := 12
  /** GCM authentication tag length. */
  const TagLen := 16

  type Key = k: seq<bv8> | |k| == KeyLen witness seq(KeyLen, _ => 0 as bv8)
  type Nonce = n: seq<bv8> | |n| == NonceLen witness seq(NonceLen, _ => 0 as bv8)

  /**
   * `hash` is SHA-256 (a function, hence deterministic); `seal` and `open`
   * are GCM's Seal and Open with no associated data, under the given key.
   */
  datatype Suite = Suite(
    hash: seq<bv8> -> Key,
    seal: (Key, Nonce, seq<bv8>) -> seq<bv8>,
    open: (Key, Nonce, seq<bv8>) -> Option<seq<bv8>>)

  /** Seal appends a tag of `TagLen` bytes to a ciphertext as long as the plaintext. */
  ghost predicate SealAddsTag(s: Suite) {
    forall k: Key, n: Nonce, p: seq<bv8> :: |s.seal(k, n, p)| == |p| + TagLen
  }

  /** Correctness of the AEAD: opening what was sealed with the same key and nonce gives the plaintext back. */
  ghost predicate OpenInvertsSeal(s: Suite) {
    forall k: Key, n: Nonce, p: seq<bv8> :: s.open(k, n, s.seal(k, n, p)) == Some(p)
  }

  /**
   * GCM is deterministic: when Open accepts `c` as `p`, sealing `p` again under
   * the same key and nonce reproduces `c` exactly (same keystream, same tag).
   */
  ghost predicate OpenAcceptsOnlySealed(s: Suite) {
    forall k: Key, n: Nonce, c: seq<bv8> :: s.open(k, n, c).Some? ==> s.seal(k, n, s.open(k, n, c).value) == c
  }

  ghost predicate Lawful(s: Suite) {
    SealAddsTag(s) && OpenInvertsSeal(s) && OpenAcceptsOnlySealed(s)
  }

  /** An all-zero tag. */
  function ZeroTag(): seq<bv8> {
    seq(TagLen, _ => 0 as bv8)
  }

  /**
   * A deliberately insecure suite (plaintext followed by a zero tag) that
   * exists only to show the laws can be met together.
   */
  function NullSuite(): Suite {
    Suite(
      psk => seq(KeyLen, _ => 0 as bv8),
      (k, n, p) => p + ZeroTag(),
      (k, n, c) => if |c| >= TagLen && c[|c| - TagLen..] == ZeroTag() then Some(c[..|c| - TagLen]) else None)
  }

  /** The laws are consistent: some suite satisfies all of them. */
  lemma NullSuiteIsLawful()
    ensures Lawful(NullSuite())
  {
    var s := NullSuite();
    forall k: Key, n: Nonce, p: seq<bv8> ensures s.open(k, n, s.seal(k, n, p)) == Some(p) {
      var c := p + ZeroTag();
      assert c[|c| - TagLen..] == ZeroTag();
      assert c[..|c| - TagLen] == p;
    }
    forall k: Key, n: Nonce, c: seq<bv8> | s.open(k, n, c).Some?
      ensures s.seal(k, n, s.open(k, n, c).value) == c
    {
      assert c[..|c| - TagLen] + c[|c| - TagLen..] == c;
    }
  }
}
