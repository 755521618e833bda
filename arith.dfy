/** Unsigned (`usize`) arithmetic that the source relies on. */
module Arith {

  /** `usize::saturating_sub`: `a - b`, or 0 when that would be negative. */
  function SaturatingSub(a: nat, b: nat): nat
  {
    if a >= b then a - b else 0
  }
}
