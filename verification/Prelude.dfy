/** Shared vocabulary: C's truncating integer operators and the usual Option. */
module Prelude {

  datatype Option<+T> = None | Some(value: T)

  function Max(x: int, y: int): int { if x < y then y else x }

  function Min(x: int, y: int): int { if x < y then x else y }

  function Abs(x: int): nat { if x < 0 then -x else x }

  /** C++ `a / b`: the quotient is truncated toward zero. */
  function CDiv(a: int, b: int): int
    requires b > 0
  {
    if a >= 0 then a / b else -((-a) / b)
  }

  /** C++ `a % b`: the remainder has the sign of the dividend. */
  function CMod(a: int, b: int): int
    requires b > 0
  {
    a - b * CDiv(a, b)
  }
}
