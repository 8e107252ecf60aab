/**
 * What the example programs share: the C++ `int` they compute with, and an
 * `int` object living in storage (a local variable, a global or a `new int`)
 * that names, references and pointers can refer to.
 */
module Storage {

  /** C++ `int` on the platforms the examples target: 32-bit two's complement. */
  const INT32_MIN: int := -0x8000_0000
  const INT32_MAX: int := 0x7fff_ffff

  newtype int32 = x: int | INT32_MIN <= x <= INT32_MAX

  datatype Option<T> = None | Some(value: T)

  /**
   * One `int` object in storage. A C++ variable `int a` is a Cell; `int& r = a`
   * and `int* p = &a` are Dafny references to the same Cell, so a write through
   * either is a write to `a`.
   */
  class Cell {
    var v: int32

    constructor (init: int32)
      ensures v == init
    {
      v := init;
    }
  }
}
