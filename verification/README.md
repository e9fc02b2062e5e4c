# Chameleon obfuscator, modelled in Dafny

A model of the Chameleon packet obfuscator of the hysteria transport
(`extras/obfs/chameleon.go`). An obfuscator is built once from a pre-shared
key (PSK): a PSK shorter than 4 bytes is refused, otherwise SHA-256 of the PSK
becomes an AES-256 key used in GCM mode. `Obfuscate` draws a 12-byte random
nonce and writes the wire packet `nonce || ciphertext || tag` to the front of
the caller's buffer; `Deobfuscate` splits a packet into nonce and sealed part,
authenticates and decrypts it, and copies the payload to the front of the
caller's buffer. Both return the number of bytes written, and 0, with the
buffer untouched, on every failure.

Layout:

- `aead.dfy` (module `Aead`): the cryptographic library as a `Suite` of three
  functions (`hash`, `seal`, `open`) and the laws the obfuscator relies on
  (`Lawful`): Seal adds a 16-byte tag, Open inverts Seal, and Open accepts
  only what Seal produces (GCM is deterministic, so an accepted ciphertext is
  exactly the seal of its plaintext). These laws are hypotheses of every
  member that uses a suite; `NullSuiteIsLawful` shows they are consistent.
- `entropy.dfy` (module `Entropy`): the platform random source as an arbitrary
  infinite byte stream and a count of bytes already drawn.
- `slices.dfy` (module `Slices`): Go's built-in `copy`.
- `chameleon.dfy` (module `Chameleon`): the wire format (`WirePacket`,
  `OpenPacket`), the buffer contract as functions (`Obfuscated`,
  `Deobfuscated`), the `ChameleonObfuscator` class whose methods write into a
  caller's `array<bv8>` and are proved against those functions, and the
  checked constructor `NewChameleonObfuscator`.
- `properties.dfy` (module `ChameleonProperties`): round trip, "only genuine
  packets are accepted", interoperability of peers sharing a PSK, the
  empty-payload corner case and the test's concrete scenario.
- `chameleon_test.dfy` (module `ChameleonTest`): the package's test loop as a
  verified client of the class.

## Model

| member | source | states |
|---|---|---|
| `Chameleon.NewChameleonObfuscator` | extras/obfs/chameleon.go:31-52 | fails with `PSKTooShort` exactly when the PSK is shorter than 4 bytes; otherwise returns a fresh valid obfuscator whose PSK is the argument and whose key is the hash of the PSK |
| `Chameleon.ChameleonObfuscator.constructor` | extras/obfs/chameleon.go:36-50 | sets PSK, cipher suite and key (hash of the PSK) after the length check; in the model all three are constants afterwards (see Left out on the PSK field) |
| `Chameleon.ChameleonObfuscator.Obfuscate` | extras/obfs/chameleon.go:54-67 | always consumes 12 random bytes; returns 0 and leaves `out` unchanged iff `out` is shorter than 12 + len(in) + 16; otherwise returns exactly that length, `out[0..12]` is the drawn nonce, `out[12..n]` is the sealed input, and `out[n..]` is unchanged |
| `Chameleon.ChameleonObfuscator.Deobfuscate` | extras/obfs/chameleon.go:69-84 | returns 0 and leaves `out` unchanged when the input is shorter than 12 bytes, fails to open, or its payload does not fit; otherwise returns the payload length, the payload is `out[..n]`, the rest of `out` is unchanged, and n never exceeds `len(out)` |
| `Chameleon.WirePacket` | extras/obfs/chameleon.go:58-59 | a wire packet is 12 + len(payload) + 16 bytes long |
| `Chameleon.OpenPacket` | extras/obfs/chameleon.go:70-77 | an input shorter than a nonce never opens; a packet that opens is exactly 28 bytes longer than its payload |
| `Chameleon.Obfuscated` | extras/obfs/chameleon.go:58-66 | buffer contract of Obfuscate: length preserved, count is 0 iff the buffer is too small (and then nothing changes), else the count is the packet length, the nonce lands at offset 0, the sealed payload at offset 12, and bytes past the count are unchanged |
| `Chameleon.Deobfuscated` | extras/obfs/chameleon.go:69-83 | buffer contract of Deobfuscate: a packet that does not open or whose payload does not fit leaves the buffer unchanged with count 0; otherwise the count is the payload length and the payload lands at offset 0; count never exceeds the buffer; bytes past it are unchanged |
| `Slices.Copy` | extras/obfs/chameleon.go:82 | Go's `copy`: copies min(room, len(src)) elements to the given offset and changes nothing else |
| `Entropy.RandomSource.Read` | extras/obfs/chameleon.go:55-56 | a read delivers the next n bytes of the random stream and advances it by n |
| `Entropy.WindowSplits` | extras/obfs/chameleon_test.go:20-21 | drawing a bytes and then b bytes yields exactly the a + b bytes one read would give, so the test's payload and the nonce that follows it are consecutive, disjoint parts of the stream |
| `ChameleonProperties.OpenWirePacket` | extras/obfs/chameleon.go:54-84 | opening the wire packet of a payload gives that payload back |
| `ChameleonProperties.OpenedPacketIsWirePacket` | extras/obfs/chameleon.go:74-77 | every packet that opens is the wire packet of its payload under its own first 12 bytes |
| `ChameleonProperties.DeobfuscateAcceptsOnlyWirePackets` | extras/obfs/chameleon.go:69-83 | a nonzero Deobfuscate result means the input is the wire packet, for some nonce, of the bytes written to the buffer |
| `ChameleonProperties.RoundTrip` | extras/obfs/chameleon.go:54-84 | if Obfuscate succeeds and the second buffer holds the payload, Deobfuscate of the reported prefix returns the payload length, writes the payload and leaves the rest of the buffer alone |
| `ChameleonProperties.PeersWithEqualPSKInteroperate` | extras/obfs/chameleon.go:36-39 | two obfuscators built from equal PSKs hold equal keys, and each opens the other's wire packets |
| `ChameleonProperties.EmptyPayloadLooksLikeFailure` | extras/obfs/chameleon.go:77-83 | an empty payload's 28-byte packet authenticates, yet Deobfuscate returns 0 for it and writes nothing, as on failure |
| `ChameleonProperties.TestScenario` | extras/obfs/chameleon_test.go:14-26 | 1200 bytes into a 2048-byte buffer give exactly 1228 bytes, which deobfuscate into a 2048-byte buffer as exactly the same 1200 bytes |
| `ChameleonTest.TestChameleonObfuscator` | extras/obfs/chameleon_test.go:10-28 | the test's construction with "average_password" succeeds and each of its 1000 rounds gets a positive length and the original bytes back (asserted inside); the rounds consume exactly 1200 + 1000 × 1212 random bytes |

## Left out

- SHA-256, AES-256 and GCM are not modelled: a suite is a parameter, and only the laws in `Aead.Lawful` are known about it. Security properties (indistinguishability, resistance to forgery, "a flipped byte makes Open fail") are probabilistic guarantees of that library and are not stated.
- `crypto/rand` is an arbitrary byte stream supplied by the caller; nonce freshness and uniqueness are not modelled, and the ignored error of `rand.Read` is not modelled (the read always delivers).
- The error returns of `aes.NewCipher` and `cipher.NewGCM` (chameleon.go:41-47) are left out: with a 32-byte key they cannot happen, so construction succeeds whenever the PSK check passes.
- `ChameleonObfuscator.PSK` is an immutable copy in the model, while the Go struct keeps the caller's own slice in an exported field (chameleon.go:26, :36) and derives the key from it only once (:39). If a caller later overwrites those bytes or reassigns `PSK`, the Go object's key no longer equals the hash of its `PSK`; `Valid()` and `PeersWithEqualPSKInteroperate` speak of the PSK as it was at construction. Obfuscate and Deobfuscate never read `PSK`, so their contracts are unaffected.
- Concurrent use of one obfuscator and of the random source is not modelled; the model is sequential.
- Inputs are values (`seq<bv8>`) rather than slices that may share memory with `out`; the source reads `in` completely (sealing or opening into a new slice) before it writes `out`, so aliasing does not change the outcome.
- Go's `int` is modelled as an unbounded `nat`; lengths near the platform word size are not considered.
- The `Obfuscator` interface, the declaration of `ErrPSKTooShort`, the unused `ErrInvalidPacket` and `chameleonSaltLen`, and the benchmarks in chameleon_test.go are not part of this model.
