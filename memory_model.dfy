/**
 * basics/memory_model.cpp: where objects live and how long. Automatic locals
 * vanish when their function returns, a `new` object outlives the function
 * that made it, and static storage (a global, a file-scope static and a
 * function-local static) lasts for the whole run.
 */
module MemoryModel {
  import opened Storage

  /**
   * The program's static storage, made an explicit object: `global_var`,
   * the file-scope `file_static`, and the `function_static` local to
   * `static_example`. Constructing it is program start-up.
   */
  class StaticStorage {
    var globalVar: int32
    var fileStatic: int32
    var functionStatic: int32

    /**
     * `int global_var = 42; static int file_static = 100;` and
     * `static int function_static = 0;`, whose constant initialiser is in
     * place before the first call to `static_example`.
     */
    constructor ()
      ensures globalVar == 42 && fileStatic == 100 && functionStatic == 0
    {
      globalVar, fileStatic, functionStatic := 42, 100, 0;
    }

    /**
     * `static_example`: increments `function_static`, which keeps its value
     * between calls, and yields the value it prints. `global_var` and
     * `file_static` are outside its frame.
     */
    method StaticExample() returns (printed: int32)
      requires functionStatic as int < INT32_MAX
      modifies this`functionStatic
      ensures functionStatic as int == old(functionStatic) as int + 1
      ensures printed == functionStatic
      ensures globalVar == old(globalVar) && fileStatic == old(fileStatic)
    {
      functionStatic := functionStatic + 1;
      printed := functionStatic;
    }
  }

  /**
   * `stack_example`: a local `int` and a local array of three, printed and
   * gone on return. It has no frame, so no storage that outlives it changes.
   */
  method StackExample() returns (printedLocal: int32, printedFirst: int32)
    ensures printedLocal == 10 && printedFirst == 1
  {
    var local: int32 := 10;
    var arr := new int32[3];
    arr[0], arr[1], arr[2] := 1, 2, 3;
    printedLocal, printedFirst := local, arr[0];
  }

  /** `heap_example`: a new `int` holding 99, still there after the function returns. */
  method HeapExample() returns (p: Cell)
    ensures fresh(p) && p.v == 99
  {
    p := new Cell(99);
  }

  /**
   * `main` up to the address comparison: the stack example, the heap object
   * read back through the returned pointer, the two globals, and three calls
   * to `static_example` printing 1, 2 and 3.
   */
  method MemoryModelMain()
    returns (stackLocal: int32, stackFirst: int32, heapValue: int32,
             globalVar: int32, fileStatic: int32, staticPrinted: seq<int32>)
    ensures stackLocal == 10 && stackFirst == 1
    ensures heapValue == 99
    ensures globalVar == 42 && fileStatic == 100
    ensures staticPrinted == [1, 2, 3]
  {
    var statics := new StaticStorage();
    stackLocal, stackFirst := StackExample();
    var heapPtr := HeapExample();
    heapValue := heapPtr.v;
    globalVar, fileStatic := statics.globalVar, statics.fileStatic;
    var first := statics.StaticExample();
    var second := statics.StaticExample();
    var third := statics.StaticExample();
    staticPrinted := [first, second, third];
    assert statics.globalVar == 42 && statics.fileStatic == 100;
  }
}
