/**
 * The C++ `int` type as the modelled programs see it: a 32-bit two's
 * complement integer whose signed overflow is undefined behaviour, and
 * whose `/` and `%` truncate toward zero (unlike Dafny's Euclidean operators).
 */
module CppInt {

  const Int32Min: int := -0x8000_0000
  const Int32Max: int := 0x7fff_ffff

  /** A C++ `int`. Arithmetic on it must stay in range: overflow is undefined. */
  newtype Int32 = x: int | -0x8000_0000 <= x < 0x8000_0000

  /** True when a mathematical result can be stored in an `int` without overflow. */
  predicate InRange(x: int) {
    Int32Min <= x <= Int32Max
  }

  function Abs(x: int): (r: nat) {
    if x < 0 then -x else x
  }

  /** C++ integer `/`: the quotient truncated toward zero. */
  function Quot(x: int, y: int): (q: int)
    requires y != 0
  {
    if (x < 0) == (y < 0) then Abs(x) / Abs(y) else -(Abs(x) / Abs(y))
  }

  /**
   * C++ integer `%`: the remainder that goes with the truncated quotient, so
   * it takes the sign of the dividend (C++11 [expr.mul]; `-3 % 2 == -1`).
   */
  function Rem(x: int, y: int): (r: int)
    requires y != 0
    ensures Abs(r) < Abs(y)
    ensures r != 0 ==> (r < 0 <==> x < 0)
    ensures Quot(x, y) * y + r == x
  {
    var m := Abs(x) % Abs(y);
    var q := Abs(x) / Abs(y);
    assert q * Abs(y) + m == Abs(x);
    if x < 0 then -m else m
  }

  /** Negating the dividend negates the C++ remainder. */
  lemma RemNegate(x: int, y: int)
    requires y != 0
    ensures Rem(-x, y) == -Rem(x, y)
  {
  }
}
