/** Go's fixed-width integer conversions, written out over unbounded integers. */
module Machine {
  const TwoTo63: int := 0x8000_0000_0000_0000
  const TwoTo64: int := 0x1_0000_0000_0000_0000

  /** The `uint64` holding `x` after wrap-around (Go's `uint64(x)` and unsigned `+`/`-`). */
  function Uint64(x: int): (r: nat)
    ensures r < TwoTo64
    ensures 0 <= x < TwoTo64 ==> r == x
    ensures (r - x) % TwoTo64 == 0
  {
    x % TwoTo64
  }

  /** The `int64` holding the low 64 bits of `x` in two's complement (Go's `int64(x)`). */
  function Int64(x: int): (r: int)
    ensures -TwoTo63 <= r < TwoTo63
    ensures -TwoTo63 <= x < TwoTo63 ==> r == x
    ensures (r - x) % TwoTo64 == 0
  {
    var m := x % TwoTo64;
    if m >= TwoTo63 then m - TwoTo64 else m
  }

  /** Converting a `uint64` to `int64` and back gives the original value. */
  lemma Uint64OfInt64(x: int)
    requires 0 <= x < TwoTo64
    ensures Uint64(Int64(x)) == x
  {
  }
}
