/** What the framing promises across calls, under the laws of the AEAD suite. */
module ChameleonProperties {
  import opened Wrappers
  import opened Aead
  import opened Chameleon

  /** Opening a wire packet gives back the payload it was made from. */
  lemma OpenWirePacket(crypto: Suite, key: Key, nonce: Nonce, payload: seq<bv8>)
    requires Lawful(crypto)
    ensures OpenPacket(crypto, key, WirePacket(crypto, key, nonce, payload)) == Some(payload)
  {
    var w := WirePacket(crypto, key, nonce, payload);
    assert w[..NonceLen] == nonce;
    assert w[NonceLen..] == crypto.seal(key, nonce, payload);
  }

  /** Every packet that opens is the wire packet of its payload under its own nonce. */
  lemma OpenedPacketIsWirePacket(crypto: Suite, key: Key, packet: seq<bv8>)
    requires Lawful(crypto)
    requires OpenPacket(crypto, key, packet).Some?
    ensures |packet| >= NonceLen
    ensures packet == WirePacket(crypto, key, packet[..NonceLen], OpenPacket(crypto, key, packet).value)
  {
    assert packet == packet[..NonceLen] + packet[NonceLen..];
  }

  /**
   * Deobfuscate accepts only well-formed wire packets under its key: a
   * nonzero result means the input is, byte for byte, `nonce || seal(key,
   * nonce, payload)` for some nonce, where payload is what was written out.
   * (Whether someone without the key can build such a packet is a question
   * about the suite's security, which is not modelled.)
   */
  lemma DeobfuscateAcceptsOnlyWirePackets(crypto: Suite, key: Key, packet: seq<bv8>, buf: seq<bv8>)
    requires Lawful(crypto)
    ensures var r := Deobfuscated(crypto, key, packet, buf);
      r.count > 0 ==> exists nonce: Nonce :: packet == WirePacket(crypto, key, nonce, r.after[..r.count])
  {
    var r := Deobfuscated(crypto, key, packet, buf);
    if r.count > 0 {
      OpenedPacketIsWirePacket(crypto, key, packet);
      var nonce: Nonce := packet[..NonceLen];
      assert packet == WirePacket(crypto, key, nonce, r.after[..r.count]);
    }
  }

  /**
   * Round trip through the buffers: when Obfuscate succeeds, feeding the
   * bytes it reports back to Deobfuscate with room for the payload returns
   * the payload's length and writes the payload.
   */
  lemma RoundTrip(crypto: Suite, key: Key, nonce: Nonce, payload: seq<bv8>, wireBuf: seq<bv8>, plainBuf: seq<bv8>)
    requires Lawful(crypto)
    requires Obfuscated(crypto, key, nonce, payload, wireBuf).count > 0
    requires |plainBuf| >= |payload|
    ensures var o := Obfuscated(crypto, key, nonce, payload, wireBuf);
      var d := Deobfuscated(crypto, key, o.after[..o.count], plainBuf);
      d.count == |payload| && d.after[..|payload|] == payload && d.after[|payload|..] == plainBuf[|payload|..]
  {
    var o := Obfuscated(crypto, key, nonce, payload, wireBuf);
    assert o.after[..o.count] == WirePacket(crypto, key, nonce, payload);
    OpenWirePacket(crypto, key, nonce, payload);
  }

  /**
   * Two peers that hash the same PSK with the same suite hold the same key,
   * so whatever one obfuscates the other opens.
   */
  lemma PeersWithEqualPSKInteroperate(a: ChameleonObfuscator, b: ChameleonObfuscator, nonce: Nonce, payload: seq<bv8>)
    requires a.Valid() && b.Valid()
    requires a.PSK == b.PSK && a.crypto == b.crypto
    ensures a.key == b.key
    ensures OpenPacket(b.crypto, b.key, WirePacket(a.crypto, a.key, nonce, payload)) == Some(payload)
  {
    OpenWirePacket(a.crypto, a.key, nonce, payload);
  }

  /**
   * An empty payload travels as a 28-byte packet that authenticates, yet
   * Deobfuscate reports 0 for it, exactly as it does for a rejected packet.
   */
  lemma EmptyPayloadLooksLikeFailure(crypto: Suite, key: Key, nonce: Nonce, buf: seq<bv8>)
    requires Lawful(crypto)
    ensures |WirePacket(crypto, key, nonce, [])| == NonceLen + TagLen
    ensures OpenPacket(crypto, key, WirePacket(crypto, key, nonce, [])) == Some([])
    ensures Deobfuscated(crypto, key, WirePacket(crypto, key, nonce, []), buf) == BufferWrite(0, buf)
  {
    OpenWirePacket(crypto, key, nonce, []);
  }

  /**
   * The scenario of the package's test: 1200 payload bytes into a 2048-byte
   * buffer give a 1228-byte packet, which deobfuscates into another
   * 2048-byte buffer as the same 1200 bytes.
   */
  lemma TestScenario(crypto: Suite, key: Key, nonce: Nonce, payload: seq<bv8>, wireBuf: seq<bv8>, plainBuf: seq<bv8>)
    requires Lawful(crypto)
    requires |payload| == 1200 && |wireBuf| == 2048 && |plainBuf| == 2048
    ensures var o := Obfuscated(crypto, key, nonce, payload, wireBuf);
      o.count == 1228 &&
      var d := Deobfuscated(crypto, key, o.after[..o.count], plainBuf);
      d.count == 1200 && d.after[..d.count] == payload
  {
    RoundTrip(crypto, key, nonce, payload, wireBuf, plainBuf);
  }
}
