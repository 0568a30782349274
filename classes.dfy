/**
 * Lessons 15.1-15.3 of the study log (15.1-17.x.cpp): the chaining
 * calculator `Calc`, the `Date` class split across header and source, and
 * `Fruit` with its nested enumeration.
 */
module Classes {
  import opened CppInt

  /**
   * `Calc`: one `int`, `m_value`, value-initialised to 0. Each mutator
   * returns the object itself (`*this` by reference), so calls chain.
   */
  class Calc {
    var value: Int32

    constructor ()
      ensures value == 0
    {
      value := 0;
    }

    method Add(v: Int32) returns (self: Calc)
      requires InRange(value as int + v as int)
      modifies this
      ensures self == this
      ensures value as int == old(value) as int + v as int
    {
      value := value + v;
      self := this;
    }

    method Sub(v: Int32) returns (self: Calc)
      requires InRange(value as int - v as int)
      modifies this
      ensures self == this
      ensures value as int == old(value) as int - v as int
    {
      value := value - v;
      self := this;
    }

    method Mult(v: Int32) returns (self: Calc)
      requires InRange(value as int * v as int)
      modifies this
      ensures self == this
      ensures value as int == old(value) as int * v as int
    {
      value := value * v;
      self := this;
    }

    /** A `const` member function: it reports `m_value` and changes nothing. */
    method GetValue() returns (v: Int32)
      ensures v == value
    {
      v := value;
    }

    /** `*this = {}`: back to the default state, whatever came before. */
    method Reset()
      modifies this
      ensures value == 0
    {
      value := 0;
    }
  }

  /** The 15.1 block of `main`: `add(5).sub(3).mult(4)` on a fresh object, then `reset`. */
  method CalcUsage() returns (chained: Int32, afterReset: Int32)
    ensures chained == 8 && afterReset == 0
  {
    var calculator := new Calc();
    var c1 := calculator.Add(5);
    var c2 := c1.Sub(3);
    var c3 := c2.Mult(4);
    chained := calculator.GetValue();
    calculator.Reset();
    afterReset := calculator.GetValue();
  }

  /** A second `reset` leaves the state the first one produced. */
  method ResetIdempotent(calculator: Calc) returns (once: Int32, twice: Int32)
    modifies calculator
    ensures once == twice == 0
    ensures calculator.value == once
  {
    calculator.Reset();
    once := calculator.GetValue();
    calculator.Reset();
    twice := calculator.GetValue();
  }

  /**
   * `Date`: year, month and day, set by the constructor's member
   * initialiser list and only read afterwards.
   */
  datatype Date = Date(year: Int32, month: Int32, day: Int32) {
    function GetYear(): (y: Int32) { year }
    function GetMonth(): (m: Int32) { month }
    function GetDay(): (d: Int32) { day }
  }

  /** The getters give back what the constructor was given. */
  lemma DateGetters(y: Int32, m: Int32, d: Int32)
    ensures Date(y, m, d).GetYear() == y
    ensures Date(y, m, d).GetMonth() == m
    ensures Date(y, m, d).GetDay() == d
  {
  }

  /** `Fruit::Type`, the nested unscoped enumeration. */
  datatype FruitType = Apple | Banana | Cherry

  /** The two data members of `Fruit`: its type and how much of it was eaten. */
  datatype FruitFields = FruitFields(fruitType: FruitType, percentEaten: Int32) {
    function GetType(): (t: FruitType) { fruitType }
    function GetPercentEaten(): (p: Int32) { percentEaten }
    function IsCherry(): (cherry: bool) { fruitType == Cherry }
  }

  /**
   * A `Fruit` object. Its only constructor sets `m_percentEaten` to 0 and no
   * member function changes it, so no other state is reachable.
   */
  type Fruit = f: FruitFields | f.percentEaten == 0 witness FruitFields(Apple, 0)

  /** The constructor `Fruit(Type)`: `m_percentEaten` starts at 0. */
  function NewFruit(t: FruitType): (f: Fruit)
    ensures f.GetType() == t && f.GetPercentEaten() == 0
  {
    FruitFields(t, 0)
  }

  /** `isCherry()` holds exactly for a fruit built as a cherry. */
  lemma IsCherryExactly(t: FruitType)
    ensures NewFruit(t).IsCherry() <==> t == Cherry
  {
  }

  /** The 15.3 block of `main`: an apple reports that it is an apple. */
  method FruitUsage() returns (message: string)
    ensures message == "I am an apple"
  {
    var apple := NewFruit(Apple);
    if apple.GetType() == Apple {
      message := "I am an apple";
    } else {
      message := "I am not an apple";
    }
  }
}
