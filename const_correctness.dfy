/**
 * basics/const_correctness.cpp: `const` on variables, pointers, references,
 * parameters and member functions. Each `const` name of `main` is given to a
 * member that enforces its qualification:
 * - a const variable is a module constant, which cannot be assigned;
 * - a pointer to const is a local of a method with no `modifies` clause: it
 *   can be rebound, but nothing can be written through it;
 * - a const pointer is a method parameter: it cannot be rebound, but the
 *   method's `modifies` clause lets it write its pointee;
 * - a const reference, and a `const` object, are read by a function or by a
 *   method with no `modifies` clause, inside which a write or a call of a
 *   mutating member is rejected.
 */
module ConstCorrectness {
  import opened Storage

  /** `const int immutable = 10;` */
  const IMMUTABLE: int32 := 10

  /** `print_value(const int& x)`: reads the argument through a read-only alias and yields what it prints. */
  method PrintValue(x: Cell) returns (printed: int32)
    ensures printed == x.v
  {
    printed := x.v;
  }

  /** A Counter with a default member initialiser, a `const` `get` and a mutating `increment`. */
  class Counter {
    var value: int32

    /** `int value = 0;` with the implicit default constructor. */
    constructor ()
      ensures value == 0
    {
      value := 0;
    }

    /** `int get() const`: reports the count and, reading only, cannot change the object. */
    function Get(): (r: int32)
      reads this
      ensures r == value
    {
      value
    }

    /** `value++`; at INT32_MAX that would be signed overflow, which C++ leaves undefined. */
    method Increment()
      requires value as int < INT32_MAX
      modifies this
      ensures value as int == old(value) as int + 1
    {
      value := value + 1;
    }
  }

  /**
   * `const int* p1 = &a;` then `p1 = &b;`: the pointer to const is rebound
   * from `a` to `b`. With no `modifies` clause, `*p1 = 7` cannot be written
   * here, and neither object changes; afterwards `p1` reads `b`.
   */
  method PointerToConst(a: Cell, b: Cell) returns (aAfter: int32, bAfter: int32, p1Reads: int32)
    ensures aAfter == a.v && bAfter == b.v && p1Reads == b.v
  {
    var p1 := a;
    p1 := b;
    aAfter, bAfter, p1Reads := a.v, b.v, p1.v;
  }

  /**
   * `int* const p2 = &a;` then `*p2 = 12;`: the const pointer is a parameter,
   * so `p2 = &b` cannot be written, while its pointee may be.
   */
  method WriteThroughConstPointer(p2: Cell)
    modifies p2
    ensures p2.v == 12
  {
    p2.v := 12;
  }

  /** `const int& ref = a;`: reading through the const reference sees the object's current value. */
  function ReadConstReference(ref: Cell): (r: int32)
    reads ref
    ensures r == ref.v
  {
    ref.v
  }

  /**
   * `std::cout << c.get()` on `const Counter c`: only `const` members can be
   * used on the object; with no `modifies` clause, `c.Increment()` is rejected here.
   */
  method ShowConstCounter(c: Counter) returns (shown: int32)
    ensures shown == c.value
  {
    shown := c.Get();
  }

  /**
   * `main`, with the rejected statements left out; it yields the values the
   * program prints or holds at each step:
   * - `p1` is rebound from `&a` to `&b`, leaving a at 5 and b at 6;
   * - `*p2 = 12` through the const pointer `p2 == &a` makes a 12;
   * - after `a = 9` the const reference `ref` to a reads 9, and
   *   `print_value(a)` prints 9;
   * - the default-constructed `const Counter c` reports 0 through `get`.
   */
  method ConstCorrectnessMain()
    returns (immutable: int32, aAfterRebind: int32, bAfterRebind: int32, p1Reads: int32,
             aAfterP2: int32, refReads: int32, printed: int32, counterGet: int32)
    ensures immutable == 10
    ensures aAfterRebind == 5 && bAfterRebind == 6 && p1Reads == 6
    ensures aAfterP2 == 12
    ensures refReads == 9 && printed == 9
    ensures counterGet == 0
  {
    immutable := IMMUTABLE;
    var a := new Cell(5);
    var b := new Cell(6);

    aAfterRebind, bAfterRebind, p1Reads := PointerToConst(a, b);

    WriteThroughConstPointer(a);
    aAfterP2 := a.v;

    a.v := 9;
    refReads := ReadConstReference(a);
    printed := PrintValue(a);

    var c := new Counter();
    counterGet := ShowConstCounter(c);
  }
}
