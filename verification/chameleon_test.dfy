/** The package's test, as a client of the obfuscator's contracts. */
module ChameleonTest {
  import opened Wrappers
  import opened Aead
  import opened Entropy
  import opened Chameleon
  import ChameleonProperties

  /** The bytes of the string "average_password". */
  const AveragePassword: seq<bv8> :=
    [0x61, 0x76, 0x65, 0x72, 0x61, 0x67, 0x65, 0x5f, 0x70, 0x61, 0x73, 0x73, 0x77, 0x6f, 0x72, 0x64]

  /**
   * A thousand rounds: fill 1200 bytes from the random source, obfuscate
   * them into a 2048-byte buffer, deobfuscate the reported prefix into
   * another 2048-byte buffer and get the same 1200 bytes back.
   */
  method TestChameleonObfuscator(crypto: Suite, rng: RandomSource)
    requires Lawful(crypto)
    modifies rng
    ensures rng.drawn == old(rng.drawn) + 1200 + 1000 * (1200 + NonceLen)
  {
    var r := NewChameleonObfuscator(AveragePassword, crypto);
    assert r.Ok?;
    var o := r.value;
    var input := rng.Read(1200);
    var oOut := new bv8[2048];
    var dOut := new bv8[2048];
    var i := 0;
    while i < 1000
      invariant 0 <= i <= 1000
      invariant rng.drawn == old(rng.drawn) + 1200 + i * (1200 + NonceLen)
    {
      input := rng.Read(1200);
      ghost var nonce := rng.Upcoming(NonceLen);
      ghost var wireBuf := oOut[..];
      ghost var plainBuf := dOut[..];
      var n := o.Obfuscate(input, oOut, rng);
      assert n > 0;
      ChameleonProperties.RoundTrip(crypto, o.key, nonce, input, wireBuf, plainBuf);
      n := o.Deobfuscate(oOut[..n], dOut);
      assert n == |input|;
      assert dOut[..n] == input;
      i := i + 1;
    }
  }
}
