/** The one slice primitive the obfuscator uses: Go's built-in `copy`. */
module Slices {

  function Min(a: int, b: int): int { if a < b then a else b }

  /**
   * `copy(dst[at:], src)`: copies as many elements as both sides hold,
   * returns how many that was, and leaves every other element of `dst` alone.
   */
  method Copy<T>(dst: array<T>, at: nat, src: seq<T>) returns (copied: nat)
    requires at <= dst.Length
    modifies dst
    ensures copied == Min(dst.Length - at, |src|)
    ensures dst[..] == old(dst[..at]) + src[..copied] + old(dst[at + copied..])
  {
    copied := Min(dst.Length - at, |src|);
    forall i | at <= i < at + copied {
      dst[i] := src[i - at];
    }
  }
}
