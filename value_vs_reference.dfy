/**
 * basics/value_vs_reference.cpp: three functions that each try to store a
 * new value into their parameter, which is an `int` copy, an `int&` alias or
 * an `int*` address. Only the last two reach the caller's variable.
 */
module ValueVsReference {
  import opened Storage

  /**
   * `by_value(int x)` called as `by_value(a)`: the caller's variable is passed
   * only so that the copy-initialisation of `x` from it is visible; it is read
   * once, to make that copy, and the assignment of 10 goes to the copy. The
   * method may modify nothing, so the caller's variable keeps its value.
   */
  method ByValue(arg: Cell)
    ensures arg.v == old(arg.v)
  {
    var x := arg.v;
    x := 10;
  }

  /** `by_reference(int& x)`: `x` is the caller's variable, which becomes 20 whatever it held. */
  method ByReference(x: Cell)
    modifies x
    ensures x.v == 20
  {
    x.v := 20;
  }

  /**
   * `by_pointer(int* x)`: stores 30 into the pointee when the pointer is not
   * null. A null pointer has no pointee, so then the method may modify nothing.
   */
  method ByPointer(x: Cell?)
    modifies if x == null then {} else {x}
    ensures x != null ==> x.v == 30
  {
    if x != null {
      x.v := 30;
    }
  }

  /** Calling `by_reference` twice leaves the variable as calling it once does: both end at 20. */
  method ByReferenceTwice(x: Cell)
    modifies x
    ensures x.v == 20
  {
    ByReference(x);
    ByReference(x);
  }

  /**
   * `main`: a, b and c start at 1, 2 and 3; after by_value(a), by_reference(b)
   * and by_pointer(&c) the program prints 1, 20 and 30. Each call writes only
   * its own target, so the other two variables keep their values in between.
   */
  method ValueVsReferenceMain() returns (a: int32, b: int32, c: int32)
    ensures a == 1 && b == 20 && c == 30
  {
    var aCell := new Cell(1);
    var bCell := new Cell(2);
    var cCell := new Cell(3);
    ByValue(aCell);
    assert aCell.v == 1 && bCell.v == 2 && cCell.v == 3;
    ByReference(bCell);
    assert aCell.v == 1 && cCell.v == 3;
    ByPointer(cCell);
    a, b, c := aCell.v, bCell.v, cCell.v;
  }
}
