/**
 * Lessons 0-6 of the study log (CPPObjects.cpp): the parity test `isOdd`
 * and the candidate-and-counter vote over a fixed array of `int`.
 */
module CppObjects {
  import opened CppInt

  /**
   * `isOdd`: the C++ remainder by 2 is non-zero. `x` is odd exactly when it
   * is not a multiple of 2, for negative `x` too.
   */
  function IsOdd(x: Int32): (odd: bool)
    ensures odd <==> x as int % 2 == 1
  {
    Rem(x as int, 2) != 0
  }

  /** Parity does not depend on the sign (the negation must itself be an `int`). */
  lemma IsOddIgnoresSign(x: Int32)
    requires x as int != Int32Min
    ensures IsOdd(x) == IsOdd(-x)
    ensures !IsOdd(0)
  {
    RemNegate(x as int, 2);
  }

  /**
   * The pitfall the comment beside `isOdd` warns about: for a negative odd
   * number the C++ remainder by 2 is -1, so a test `x % 2 == 1` would call it even.
   */
  lemma NegativeOddRemainder(x: Int32)
    requires x < 0 && IsOdd(x)
    ensures Rem(x as int, 2) == -1
  {
  }

  /** The two variables of the vote loop: the candidate `a` and its counter `num`. */
  datatype Tally = Tally(candidate: Int32, count: int)

  /** One iteration of the loop body on the element `x`. */
  function Step(t: Tally, x: Int32): (next: Tally) {
    if x == t.candidate then Tally(t.candidate, t.count + 1)
    else if t.count - 1 < 0 then Tally(x, 1)
    else Tally(t.candidate, t.count - 1)
  }

  /**
   * The tally once the first `n` elements of `s` have been seen: the loop
   * starts from `a = arr[0]`, `num = 1` and applies Step to `arr[1..n-1]`.
   */
  function Scan(s: seq<Int32>, n: nat): (t: Tally)
    requires 1 <= n <= |s|
    ensures 0 <= t.count <= n
    ensures t.candidate in s[..n]
  {
    if n == 1 then
      Tally(s[0], 1)
    else
      assert s[..n] == s[..n - 1] + [s[n - 1]];
      Step(Scan(s, n - 1), s[n - 1])
  }

  function Count(s: seq<Int32>, v: Int32): (n: nat) {
    multiset(s)[v]
  }

  /** `v` fills more than half of `s`. */
  predicate HasMajority(s: seq<Int32>, v: Int32) {
    2 * Count(s, v) > |s|
  }

  /**
   * The counting argument behind the vote: the elements seen so far, less
   * `count` copies of the candidate, split into pairs of different values.
   * So no value other than the candidate fills more than (n - count) / 2 of
   * them, and the candidate no more than (n + count) / 2.
   */
  lemma {:induction false} ScanBalance(s: seq<Int32>, n: nat, v: Int32)
    requires 1 <= n <= |s|
    ensures var t := Scan(s, n);
      2 * Count(s[..n], v) <= if v == t.candidate then n + t.count else n - t.count
  {
    if n == 1 {
      assert s[..1] == [s[0]];
    } else {
      ScanBalance(s, n - 1, v);
      assert s[..n] == s[..n - 1] + [s[n - 1]];
    }
  }

  /** The Boyer-Moore guarantee: a value filling more than half of `s` is the final candidate. */
  lemma MajorityWins(s: seq<Int32>, v: Int32)
    requires HasMajority(s, v)
    ensures 1 <= |s| && Scan(s, |s|).candidate == v
  {
    ScanBalance(s, |s|, v);
    assert s[..|s|] == s;
  }

  /** `sizeof(int)` on the platforms the loop's `sizeof(arr) / 4` assumes. */
  const IntBytes: int := 4

  /**
   * The vote loop over `arr` (its `#if 0` block in `main`). `arrSize` is
   * `sizeof(arr) / 4`, an `int`, so the array holds at most Int32Max
   * elements; a C++ array is never empty, so `arr[0]` exists.
   */
  method MajorityVote(arr: array<Int32>) returns (a: Int32, num: Int32)
    requires 1 <= arr.Length <= Int32Max
    ensures Tally(a, num as int) == Scan(arr[..], arr.Length)
    ensures num >= 0 && a in arr[..]
    ensures forall v :: HasMajority(arr[..], v) ==> a == v
  {
    a := arr[0];
    num := 1;
    var arrSize: Int32 := (IntBytes * arr.Length / 4) as Int32;
    var i: Int32 := 1;
    while i < arrSize
      invariant 1 <= i <= arrSize
      invariant Tally(a, num as int) == Scan(arr[..], i as nat)
    {
      if arr[i] == a {
        num := num + 1;
      } else {
        num := num - 1;
        if num < 0 {
          a := arr[i];
          num := 1;
        }
      }
      i := i + 1;
    }
    assert arr[..arr.Length] == arr[..];
    forall v | HasMajority(arr[..], v)
      ensures a == v
    {
      MajorityWins(arr[..], v);
    }
  }

  /** The array `{2, 1, 2, 1, 2}` of `main`: the loop ends with candidate 2. */
  method SampleVote() returns (a: Int32)
    ensures a == 2
  {
    var arr := new Int32[5] [2, 1, 2, 1, 2];
    assert arr[..] == [2, 1, 2, 1, 2];
    assert Count(arr[..], 2) == 3;
    assert HasMajority(arr[..], 2);
    var num;
    a, num := MajorityVote(arr);
  }
}
