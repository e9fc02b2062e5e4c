/**
 * The platform's secure random source (`crypto/rand`). Its bytes are not
 * something the model can know, so a source is an arbitrary, infinite
 * stream of bytes chosen by whoever creates it, together with how many of
 * them have already been handed out. Nothing is assumed about the stream.
 */
module Entropy {

  /** The `n` bytes of `stream` that start at position `from`. */
  function Window(stream: nat -> bv8, from: nat, n: nat): seq<bv8> {
    seq(n, i requires 0 <= i => stream(from + i))
  }

  /**
   * Consecutive reads see consecutive windows: drawing `a` bytes and then
   * `b` bytes delivers the same bytes, in the same order, as drawing `a + b`.
   */
  lemma WindowSplits(stream: nat -> bv8, from: nat, a: nat, b: nat)
    ensures Window(stream, from, a + b) == Window(stream, from, a) + Window(stream, from + a, b)
  {
    var whole, first, rest := Window(stream, from, a + b), Window(stream, from, a), Window(stream, from + a, b);
    forall i | a <= i < a + b ensures whole[i] == (first + rest)[i] {
      assert whole[i] == stream(from + a + (i - a));
    }
  }

  class RandomSource {
    /** The bytes the generator will ever produce, in order. */
    const stream: nat -> bv8
    /** How many of them earlier reads have consumed. */
    var drawn: nat

    constructor (stream: nat -> bv8)
      ensures this.stream == stream && drawn == 0
    {
      this.stream := stream;
      drawn := 0;
    }

    /** The next `n` bytes a read would deliver. */
    function Upcoming(n: nat): seq<bv8>
      reads this
    {
      Window(stream, drawn, n)
    }

    /** `rand.Read` into a fresh buffer of `n` bytes. */
    method Read(n: nat) returns (bytes: seq<bv8>)
      modifies this
      ensures bytes == old(Upcoming(n))
      ensures drawn == old(drawn) + n
    {
      bytes := Upcoming(n);
      drawn := drawn + n;
    }
  }
}
