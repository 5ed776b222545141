/** The machine-word arithmetic the firmware relies on, written out over the integers, and two facts about
    sequences and sets that several modules share. */
module Words {

  type U8 = n: nat | n < 0x100
  type U32 = n: nat | n < 0x1_0000_0000

  /** What a 32-bit uptime counter shows after `n` milliseconds, or the result of a uint32_t
      operation whose mathematical value is `n`. */
  function Wrap32(n: int): U32 {
    n % 0x1_0000_0000
  }

  /** The wrap-safe comparison `(int32_t)(deadline - now) > 0`. */
  predicate StillAhead(deadline: U32, now: U32) {
    0 < Wrap32(deadline - now) < 0x8000_0000
  }

  /** An uptime stamp for which zero is reserved to mean "empty". */
  function NonZero(now: U32): U32 {
    if now == 0 then 1 else now
  }

  predicate Fits16(v: int) {
    -0x8000 <= v <= 0x7FFF
  }

  /** Saturation to int16_t. */
  function Sat16(v: int): (r: int)
    ensures Fits16(r)
  {
    if v > 0x7FFF then 0x7FFF else if v < -0x8000 then -0x8000 else v
  }

  function Max(a: int, b: int): int {
    if a < b then b else a
  }

  function Min(a: int, b: int): int {
    if a < b then a else b
  }

  function Zeros(n: nat): (z: seq<U32>)
    ensures |z| == n && forall i | 0 <= i < n :: z[i] == 0
  {
    if n == 0 then [] else Zeros(n - 1) + [0]
  }

  lemma {:induction false} SubsetSize(a: set<nat>, b: set<nat>)
    requires a <= b
    ensures |a| <= |b|
  {
    if a != {} {
      var x :| x in a;
      SubsetSize(a - {x}, b - {x});
    }
  }
}
