/**
 * The namespace demonstration (NameSpaceHeaders.cpp): two functions of the
 * same name, `doSomething`, kept apart by the namespaces `Subtraction` and
 * `Addition`, each a module here.
 */
module Subtraction {
  import opened CppInt

  /** `Subtraction::doSomething`; defined only when the difference is an `int`. */
  function DoSomething(x: Int32, y: Int32): (r: Int32)
    requires InRange(x as int - y as int)
  {
    x - y
  }
}

module Addition {
  import opened CppInt

  /** `Addition::doSomething`; defined only when the sum is an `int`. */
  function DoSomething(x: Int32, y: Int32): (r: Int32)
    requires InRange(x as int + y as int)
  {
    x + y
  }
}

/** How the two namespaces' functions relate. */
module NameSpaceHeaders {
  import opened CppInt
  import Addition
  import Subtraction

  /** Without overflow `Addition::doSomething` is the exact sum. */
  lemma AdditionExact(x: Int32, y: Int32)
    requires InRange(x as int + y as int)
    ensures Addition.DoSomething(x, y) as int == x as int + y as int
    ensures Addition.DoSomething(x, y) == Addition.DoSomething(y, x)
  {
  }

  /** Without overflow `Subtraction::doSomething` is the exact difference; of equal arguments it is 0. */
  lemma SubtractionExact(x: Int32, y: Int32)
    requires InRange(x as int - y as int)
    ensures Subtraction.DoSomething(x, y) as int == x as int - y as int
    ensures Subtraction.DoSomething(x, x) == 0
  {
  }

  /** Subtracting `y` undoes adding `y`, and adding it back undoes subtracting it. */
  lemma RoundTrips(x: Int32, y: Int32)
    ensures InRange(x as int + y as int) ==>
      Subtraction.DoSomething(Addition.DoSomething(x, y), y) == x
    ensures InRange(x as int - y as int) ==>
      Addition.DoSomething(Subtraction.DoSomething(x, y), y) == x
  {
  }
}
