/** The integer minimum and maximum the Rust code takes with `min` and `max`. */
module Arith {

  function Min(a: int, b: int): int { if a <= b then a else b }

  function Max(a: int, b: int): int { if a >= b then a else b }
}
