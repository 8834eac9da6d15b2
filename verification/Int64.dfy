/** Go's 64-bit signed integers: arithmetic wraps, division truncates towards zero. */
module Int64 {

  const RANGE: int := 0x1_0000_0000_0000_0000
  const HALF: int := 0x8000_0000_0000_0000

  predicate Fits(x: int) {
    -HALF <= x < HALF
  }

  /** The value a 64-bit result register holds after the exact result x. */
  function Wrap(x: int): (w: int)
    ensures Fits(w)
    ensures Fits(x) ==> w == x
  {
    (x + HALF) % RANGE - HALF
  }

  /** Go's a / b. */
  function Quotient(a: int, b: int): int
    requires b != 0
  {
    if a >= 0 then a / b else -(-a / b)
  }
}
