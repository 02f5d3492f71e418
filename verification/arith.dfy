/** Python's two-argument `min` and `max` on integers. */
module Arith {

  function Min(a: int, b: int): int
  {
    if b < a then b else a
  }

  function Max(a: int, b: int): int
  {
    if b > a then b else a
  }
}
