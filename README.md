# CPPObjects study log: a Dafny model of its integer routines and small classes

The repository is a C++ study log that follows a tutorial curriculum. Most of it is prose and console demos. This project models the parts that compute something:

- **`CppInt`**: the C++ `int` as a 32-bit newtype, `Int32`. Signed overflow is undefined behaviour in C++, so every operation that could overflow has a precondition that the mathematical result fits. C++ `/` truncates toward zero, and `%` gives the remainder that goes with that quotient, so it takes the sign of the dividend. Both are written out as `Quot` and `Rem`, because Dafny's own operators are Euclidean.
- **`CppObjects`** (CPPObjects.cpp): `isOdd`, and the candidate-and-counter vote loop over a fixed array. The loop keeps its form as a method over an `array`. It is proved against `Scan`, a function that folds the loop body over a prefix of the array. A counting lemma then gives the Boyer–Moore guarantee: a value that fills more than half the array ends up as the candidate. The source's update rule only switches candidate once `num` drops below 0. That rule is equivalent to the textbook one, which switches when the count is 0 and a different element arrives.
- **`Templates`** (11.1-14.xnotes.cpp): the `int` instantiations of `max`, `add`, `mult` and `sub`, and `factorial<N>` with its loop. The loop is proved against the reference definition `Fact`.
- **`Classes`** (15.1-17.x.cpp): `Calc` is a class whose mutators update `value` in place and return the object itself, so calls chain. `Date` and `Fruit` are value classes whose fields only the constructor sets. They are modelled as datatypes, which are immutable by construction. `Fruit` is the subset of its field record with 0 percent eaten, because no other state is reachable.
- **`Subtraction`, `Addition`, `NameSpaceHeaders`** (NameSpaceHeaders.cpp): the two namespaces, each a module with its own `DoSomething`, and lemmas that relate them.

## Model

| member | source | states |
|---|---|---|
| CppInt.Rem | CPPObjects.cpp:30 | C++ `%`: the remainder is smaller than the divisor in magnitude, is 0 or has the dividend's sign, and `Quot(x, y) * y + Rem(x, y) == x` |
| CppInt.RemNegate | CPPObjects.cpp:26-30 | negating the dividend negates the C++ remainder |
| CppObjects.IsOdd | CPPObjects.cpp:28-31 | `isOdd(x)` holds exactly when `x` is not a multiple of 2 (Euclidean `x % 2 == 1`), negative `x` included |
| CppObjects.IsOddIgnoresSign | CPPObjects.cpp:26-31 | `isOdd(x) == isOdd(-x)` whenever `-x` is an `int`, and `isOdd(0)` is false |
| CppObjects.NegativeOddRemainder | CPPObjects.cpp:26-27 | for a negative odd `x` the C++ `x % 2` is -1, so the `== 1` test the comment warns against would call it even |
| CppObjects.Scan | CPPObjects.cpp:103-120 | after the first `n` elements the counter is between 0 and `n` and the candidate is one of those elements |
| CppObjects.ScanBalance | CPPObjects.cpp:107-120 | after `n` elements, twice the count of any value is at most `n + num` for the candidate and `n - num` for any other value |
| CppObjects.MajorityWins | CPPObjects.cpp:107-120 | a value that fills more than half the array is the final candidate (Boyer–Moore majority vote) |
| CppObjects.MajorityVote | CPPObjects.cpp:102-120 | the loop computes `Scan` of the array, ends with `num >= 0` and a candidate from the array, and returns the majority value when there is one; every `arr[i]` it reads is in bounds, with `i` from 1 to `arrSize - 1` and `arrSize` equal to the element count |
| CppObjects.SampleVote | CPPObjects.cpp:102-122 | for `{2, 1, 2, 1, 2}` the loop ends with candidate 2 |
| Templates.Max | 11.1-14.xnotes.cpp:79-83 | `max(x, y)` is at least both arguments and equals one of them |
| Templates.MaxTie | 11.1-14.xnotes.cpp:79-83 | when `x < y` does not hold, `max(x, y)` is `x` |
| Templates.SubUndoesAdd | 11.1-14.xnotes.cpp:120-136 | without overflow `add(x, y)` is the exact sum and `sub(add(x, y), y) == x` |
| Templates.MultExact | 11.1-14.xnotes.cpp:126-130 | without overflow `mult(x, y)` is the exact product; `mult(x, 1) == x` and `mult(x, 0) == 0` |
| Templates.Q2Calls | 11.1-14.xnotes.cpp:168-177 | `add(2, 3) == 5`, `mult(2, 3) == 6`, `sub(3, 2) == 1` |
| Templates.FactorialLimit | 11.1-14.xnotes.cpp:109-114 | 12! fits in an `int` and N! does not for any N above 12, so 12 is the largest N whose product does not overflow |
| Templates.Factorial | 11.1-14.xnotes.cpp:104-117 | for `0 <= N <= 12` the loop returns N!; a negative N is refused by the precondition, as `static_assert(N >= 0)` refuses it |
| Templates.FactorialAsserts | 11.1-14.xnotes.cpp:153-156 | `factorial<0>() == 1`, `factorial<3>() == 6`, `factorial<5>() == 120` |
| Classes.Calc.constructor | 15.1-17.x.cpp:18-20 | a fresh `Calc` holds 0 |
| Classes.Calc.Add | 15.1-17.x.cpp:22-25 | the value becomes `old + v`, only this object changes, and the object itself is returned |
| Classes.Calc.Sub | 15.1-17.x.cpp:26-29 | the value becomes `old - v`, only this object changes, and the object itself is returned |
| Classes.Calc.Mult | 15.1-17.x.cpp:30-33 | the value becomes `old * v`, only this object changes, and the object itself is returned |
| Classes.Calc.GetValue | 15.1-17.x.cpp:34-36 | returns the value and changes nothing |
| Classes.Calc.Reset | 15.1-17.x.cpp:37-38 | the value is 0 afterwards, whatever it was before |
| Classes.CalcUsage | 15.1-17.x.cpp:138-146 | `add(5).sub(3).mult(4)` on a fresh object gives 8, and `reset` then gives 0 |
| Classes.ResetIdempotent | 15.1-17.x.cpp:37-38 | the value read after a second reset equals the value read after the first, and both are 0 |
| Classes.DateGetters | 15.1-17.x.cpp:57-71 | `Date(y, m, d)` reports year `y`, month `m` and day `d` |
| Classes.NewFruit | 15.1-17.x.cpp:93-99 | a fruit built from type `t` reports type `t` and 0 percent eaten; the type `Fruit` admits only states with 0 percent eaten, since nothing but the constructor sets that field |
| Classes.IsCherryExactly | 15.1-17.x.cpp:101 | `isCherry()` holds exactly when the fruit was built as a cherry |
| Classes.FruitUsage | 15.1-17.x.cpp:126-131 | the apple built in `main` takes the "I am an apple" branch |
| NameSpaceHeaders.AdditionExact | NameSpaceHeaders.cpp:37-43 | without overflow `Addition::doSomething(x, y)` is the exact sum and is symmetric |
| NameSpaceHeaders.SubtractionExact | NameSpaceHeaders.cpp:3-8 | without overflow `Subtraction::doSomething(x, y)` is the exact difference, and `doSomething(x, x) == 0` |
| NameSpaceHeaders.RoundTrips | NameSpaceHeaders.cpp:5-42 | when no overflow occurs, subtracting `y` undoes adding `y`, and adding `y` undoes subtracting it |

Some functions only compute, and their rows above name the lemma or function whose contract states what they compute:

- `Templates.Add`, `Templates.Mult` and `Templates.Sub` (11.1-14.xnotes.cpp:120-136) are covered by `SubUndoesAdd`, `MultExact` and `Q2Calls`.
- `Subtraction.DoSomething` and `Addition.DoSomething` (NameSpaceHeaders.cpp:5-8, 39-42) are covered by `AdditionExact`, `SubtractionExact` and `RoundTrips`.
- `CppObjects.Step`, one pass of the loop body (CPPObjects.cpp:110-119), is covered by `Scan`, `ScanBalance` and `MajorityVote`.
- `Classes.Date.GetYear`, `GetMonth` and `GetDay` (15.1-17.x.cpp:61-63) are covered by `DateGetters`.
- `Classes.FruitFields.GetType` and `GetPercentEaten` (15.1-17.x.cpp:98-99) are covered by `NewFruit`.
- `Classes.FruitFields.IsCherry` (15.1-17.x.cpp:101) is covered by `IsCherryExactly`.

The arithmetic functions have preconditions that say when C++ defines them: only when the result fits in an `int`.

## Left out

- Console input and output: every `main` body apart from the computations modelled above, `print` (11.1-14.xnotes.cpp:57-61), `genericIntPrint`, `enterNumber`, `Date::print`, and the `std::cin` / `std::getline` demos. The result of `FruitUsage` stands for the line `main` prints.
- Floating point: `Subtraction::DoubleSub::doubleSubtraction`, the constants in GlobalConsts.h, `g_pi`, and the `double` instantiations of the templates. `divide` is only declared and is not part of this model.
- Compile-time mechanics: overload resolution, the deleted `max` specialisation for `const char*`, the mixed-type `auto max`, and the non-type template parameter. `N` is an ordinary argument of `Factorial`, and the compile-time rejection of a negative `N` becomes a precondition.
- Templates.Factorial: overflow during constant evaluation is also a compile error in C++. The model refuses `N > 12` by a precondition instead.
- CppObjects.MajorityVote: `sizeof(arr) / 4` is computed with `sizeof(int) == 4`, the size the source hard-codes. The array is an argument, not the fixed `int[5]`; `SampleVote` builds that particular array.
- 7.1-10.xnotes.cpp: scoping, namespace and console demos only. Its one comparison and swap depends on console input.
- The headers `add.h`, `Add.h`, `Date.h` and `NameSpaceHeaders.h` are not part of this model.
- The private/public access of `Calc`, `Fruit` and `Date` is not modelled. Their fields are readable in specifications.
