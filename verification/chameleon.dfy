/**
 * The Chameleon obfuscator: a pre-shared key (PSK) is hashed into an AES-256
 * key once, and every packet is framed as `nonce || Seal(key, nonce, payload)`
 * with a fresh random nonce. Both operations write into a buffer the caller
 * owns and signal failure by returning 0 without writing anything.
 */
module Chameleon {
  import opened Wrappers
  import opened Aead
  import opened Entropy
  import Slices

  /** The shortest PSK the constructor accepts. */
  const MinPSKLen := 4

  datatype Error = PSKTooShort

  // ---------------------------------------------------------------------
  // Wire format
  // ---------------------------------------------------------------------

  /** The wire packet for `payload`: the nonce followed by ciphertext and tag. */
  function WirePacket(crypto: Suite, key: Key, nonce: Nonce, payload: seq<bv8>): (w: seq<bv8>)
    requires Lawful(crypto)
    ensures |w| == NonceLen + |payload| + TagLen
  {
    nonce + crypto.seal(key, nonce, payload)
  }

  /**
   * Reading a wire packet: too short to hold a nonce is rejected, otherwise
   * the first `NonceLen` bytes are the nonce and the rest is opened.
   */
  function OpenPacket(crypto: Suite, key: Key, packet: seq<bv8>): (r: Option<seq<bv8>>)
    requires Lawful(crypto)
    ensures |packet| < NonceLen ==> r == None
    ensures r.Some? ==> |packet| == NonceLen + |r.value| + TagLen
  {
    if |packet| < NonceLen then None
    else crypto.open(key, packet[..NonceLen], packet[NonceLen..])
  }

  // ---------------------------------------------------------------------
  // Buffer contract
  // ---------------------------------------------------------------------

  /** What an operation returns (`count`) and the caller's buffer afterwards (`after`). */
  datatype BufferWrite = BufferWrite(count: nat, after: seq<bv8>)

  /** Obfuscate `payload` with `nonce` into a buffer that held `buf`. */
  function Obfuscated(crypto: Suite, key: Key, nonce: Nonce, payload: seq<bv8>, buf: seq<bv8>): (r: BufferWrite)
    requires Lawful(crypto)
    ensures |r.after| == |buf| && r.count <= |buf|
    ensures r.count == 0 <==> |buf| < NonceLen + |payload| + TagLen
    ensures r.count == 0 ==> r.after == buf
    ensures r.count > 0 ==> r.count == NonceLen + |payload| + TagLen
    ensures r.count > 0 ==> r.after[..NonceLen] == nonce
    ensures r.count > 0 ==> r.after[NonceLen..r.count] == crypto.seal(key, nonce, payload)
    ensures r.after[r.count..] == buf[r.count..]
  {
    var w := WirePacket(crypto, key, nonce, payload);
    if |buf| < |w| then BufferWrite(0, buf)
    else BufferWrite(|w|, w + buf[|w|..])
  }

  /** Deobfuscate `packet` into a buffer that held `buf`. */
  function Deobfuscated(crypto: Suite, key: Key, packet: seq<bv8>, buf: seq<bv8>): (r: BufferWrite)
    requires Lawful(crypto)
    ensures |r.after| == |buf| && r.count <= |buf|
    ensures r.after[r.count..] == buf[r.count..]
    ensures OpenPacket(crypto, key, packet).None? ==> r == BufferWrite(0, buf)
    ensures OpenPacket(crypto, key, packet).Some? ==>
      var p := OpenPacket(crypto, key, packet).value;
      if |buf| < |p| then r == BufferWrite(0, buf)
      else r.count == |p| && r.after[..|p|] == p
    ensures r.count > 0 ==> |packet| == NonceLen + r.count + TagLen
  {
    match OpenPacket(crypto, key, packet)
    case None => BufferWrite(0, buf)
    case Some(p) =>
      if |buf| < |p| then BufferWrite(0, buf)
      else BufferWrite(|p|, p + buf[|p|..])
  }

  // ---------------------------------------------------------------------
  // The obfuscator object
  // ---------------------------------------------------------------------

  /**
   * `crypto` and `key` stand for the cipher objects the Go struct holds:
   * `block` is AES keyed with `key`, and `gcm` is GCM over that block.
   * They are fixed at construction and never change.
   */
  class ChameleonObfuscator {
    const PSK: seq<bv8>
    const crypto: Suite
    const key: Key

    ghost predicate Valid() {
      Lawful(crypto) && |PSK| >= MinPSKLen && key == crypto.hash(PSK)
    }

    /** The struct literal plus field setup, after the PSK length has been checked. */
    constructor (psk: seq<bv8>, crypto: Suite)
      requires Lawful(crypto) && |psk| >= MinPSKLen
      ensures Valid()
      ensures PSK == psk && this.crypto == crypto && key == crypto.hash(psk)
    {
      PSK := psk;
      this.crypto := crypto;
      key := crypto.hash(psk);
    }

    /**
     * Draws a nonce, seals `input`, and writes the wire packet to the front of
     * `out`; returns its length, or 0 (writing nothing) when `out` is too small.
     */
    method Obfuscate(input: seq<bv8>, out: array<bv8>, rng: RandomSource) returns (n: nat)
      requires Valid()
      modifies out, rng
      ensures rng.drawn == old(rng.drawn) + NonceLen
      ensures BufferWrite(n, out[..]) == Obfuscated(crypto, key, old(rng.Upcoming(NonceLen)), input, old(out[..]))
      ensures n == 0 <==> out.Length < NonceLen + |input| + TagLen
      ensures n == 0 ==> out[..] == old(out[..])
      ensures n > 0 ==> n == NonceLen + |input| + TagLen
      ensures n > 0 ==> out[..n] == WirePacket(crypto, key, old(rng.Upcoming(NonceLen)), input)
      ensures out[n..] == old(out[n..])
    {
      var nonce: Nonce := rng.Read(NonceLen);
      var ciphertext := crypto.seal(key, nonce, input);
      var outLen := NonceLen + |ciphertext|;
      if out.Length < outLen {
        return 0;
      }
      ghost var before := out[..];
      var _ := Slices.Copy(out, 0, nonce);
      var _ := Slices.Copy(out, NonceLen, ciphertext);
      assert out[..] == WirePacket(crypto, key, nonce, input) + before[outLen..];
      n := outLen;
    }

    /**
     * Opens the wire packet `input` and copies its payload to the front of `out`;
     * returns the payload length, or 0 (writing nothing) when `input` is shorter
     * than a nonce, fails authentication, or its payload does not fit in `out`.
     */
    method Deobfuscate(input: seq<bv8>, out: array<bv8>) returns (n: nat)
      requires Valid()
      modifies out
      ensures BufferWrite(n, out[..]) == Deobfuscated(crypto, key, input, old(out[..]))
      ensures |input| < NonceLen ==> n == 0 && out[..] == old(out[..])
      ensures OpenPacket(crypto, key, input).None? ==> n == 0 && out[..] == old(out[..])
      ensures n <= out.Length
      ensures n > 0 ==> OpenPacket(crypto, key, input) == Some(out[..n])
      ensures out[n..] == old(out[n..])
    {
      if |input| < NonceLen {
        return 0;
      }
      var nonce: Nonce := input[..NonceLen];
      var ciphertext := input[NonceLen..];
      var plaintext := crypto.open(key, nonce, ciphertext);
      if plaintext.None? || out.Length < |plaintext.value| {
        return 0;
      }
      var _ := Slices.Copy(out, 0, plaintext.value);
      n := |plaintext.value|;
    }
  }

  /**
   * `NewChameleonObfuscator`: refuses a PSK shorter than `MinPSKLen`,
   * otherwise builds an obfuscator keyed with the hash of the PSK.
   */
  method NewChameleonObfuscator(psk: seq<bv8>, crypto: Suite) returns (r: Result<ChameleonObfuscator, Error>)
    requires Lawful(crypto)
    ensures r.Err? <==> |psk| < MinPSKLen
    ensures r.Err? ==> r.error == PSKTooShort
    ensures r.Ok? ==> fresh(r.value) && r.value.Valid()
    ensures r.Ok? ==> r.value.PSK == psk && r.value.crypto == crypto && r.value.key == crypto.hash(psk)
  {
    if |psk| < MinPSKLen {
      return Err(PSKTooShort);
    }
    var o := new ChameleonObfuscator(psk, crypto);
    return Ok(o);
  }
}
