/**
 * Lessons 11.1-11.x of the study log (11.1-14.xnotes.cpp): function
 * templates, at their `int` instantiations, and the `factorial<N>` exercise.
 */
module Templates {
  import opened CppInt

  /** `max<int>`: `(x < y) ? y : x`. */
  function Max(x: Int32, y: Int32): (r: Int32)
    ensures x <= r && y <= r
    ensures r == x || r == y
  {
    if x < y then y else x
  }

  /** On a tie `max` gives its first argument back. */
  lemma MaxTie(x: Int32, y: Int32)
    requires !(x < y)
    ensures Max(x, y) == x
  {
  }

  /** `add<int>`; the sum must fit in an `int`. */
  function Add(x: Int32, y: Int32): (r: Int32)
    requires InRange(x as int + y as int)
  {
    x + y
  }

  /** `mult<int>` (its second parameter is always an `int`); the product must fit. */
  function Mult(x: Int32, y: Int32): (r: Int32)
    requires InRange(x as int * y as int)
  {
    x * y
  }

  /** `sub<int, int>`, whose `auto` result is then an `int`; the difference must fit. */
  function Sub(x: Int32, y: Int32): (r: Int32)
    requires InRange(x as int - y as int)
  {
    x - y
  }

  /** Without overflow the three templates are exact integer arithmetic, so `sub` undoes `add`. */
  lemma SubUndoesAdd(x: Int32, y: Int32)
    requires InRange(x as int + y as int)
    ensures Add(x, y) as int == x as int + y as int
    ensures Sub(Add(x, y), y) == x
  {
  }

  /** `mult` is exact when it cannot overflow; by 1 it is the identity, by 0 it is 0. */
  lemma MultExact(x: Int32, y: Int32)
    requires InRange(x as int * y as int)
    ensures Mult(x, y) as int == x as int * y as int
    ensures Mult(x, 1) == x && Mult(x, 0) == 0
  {
  }

  /** The calls of the 11.x Q2 block at their integer instantiations. */
  method Q2Calls() returns (sum: Int32, product: Int32, difference: Int32)
    ensures sum == 5 && product == 6 && difference == 1
  {
    sum := Add(2, 3);
    product := Mult(2, 3);
    difference := Sub(3, 2);
  }

  /** N!, the reference definition. */
  function Fact(n: nat): (f: nat) {
    if n == 0 then 1 else n * Fact(n - 1)
  }

  lemma {:induction false} FactMonotone(m: nat, n: nat)
    requires m <= n
    ensures Fact(m) <= Fact(n)
  {
    if m < n {
      FactMonotone(m, n - 1);
      var f := Fact(n - 1);
      assert Fact(n) == f + (n - 1) * f;
    }
  }

  /** The largest N whose factorial is an `int`. */
  const MaxFactorialArg: nat := 12

  /** 12! fits in an `int` and the factorial of every larger N does not. */
  lemma FactorialLimit()
    ensures Fact(MaxFactorialArg) <= Int32Max
    ensures forall n: nat :: n > MaxFactorialArg ==> Fact(n) > Int32Max
  {
    assert Fact(12) == 479001600;
    assert Fact(13) == 6227020800;
    forall n: nat | n > MaxFactorialArg
      ensures Fact(n) > Int32Max
    {
      FactMonotone(13, n);
    }
  }

  /**
   * `factorial<N>()`: `static_assert(N >= 0)` rejects a negative N, and the
   * running product `total` may not overflow, so N is at most 12.
   */
  method Factorial(n: Int32) returns (total: Int32)
    requires 0 <= n
    requires n as int <= MaxFactorialArg
    ensures total as int == Fact(n as nat)
  {
    total := 1;
    var i: Int32 := 2;
    while i <= n
      invariant 2 <= i as int <= if n < 2 then 2 else n as int + 1
      invariant total as int == Fact(i as nat - 1)
    {
      FactMonotone(i as nat, MaxFactorialArg);
      FactorialLimit();
      total := total * i;
      i := i + 1;
    }
  }

  /** The `static_assert`s of the 11.9 Q1 block. */
  method FactorialAsserts() returns (f0: Int32, f3: Int32, f5: Int32)
    ensures f0 == 1 && f3 == 6 && f5 == 120
  {
    f0 := Factorial(0);
    f3 := Factorial(3);
    f5 := Factorial(5);
  }
}
