# cpp-fundamentals: values, references, pointers, `const` and storage duration

A Dafny model of the small C++ teaching programs in this repository that have
behaviour worth stating: the `Counter` class and how it is passed to functions
(`oop/classes_objects.cpp`), pass-by-value, by-reference and by-pointer
(`basics/value_vs_reference.cpp`), `const` on pointers, references, parameters
and member functions (`basics/const_correctness.cpp`), and static, automatic
and dynamic storage (`basics/memory_model.cpp`).

One module per source file, plus `Storage` for what they share:

- `Storage`: the C++ `int` as `int32` (32-bit, two's complement) and `Cell`,
  one `int` object in storage. A C++ reference or pointer to a variable is a
  Dafny reference to its `Cell`, so a write through the alias is a write to
  the variable.
- `ClassesObjects`: the `Counter` class (a mutable `value` field, `Increment`
  with `modifies this`, `Get` a function that only `reads this`), the by-value
  and by-reference helpers, and `main`'s values. Beside the class,
  `Run` gives the meaning of any sequence of `increment`/`get` calls on one
  counter. The class methods are tied to `Run` by their postconditions, and
  `MakeCalls`, a client making any sequence of calls on a `Counter` object,
  is proved to leave the state and report the values `Run` gives. The
  lemmas about `Run` therefore hold of the object itself. They prove the documented invariant `value >= 0`, that the
  count only goes up, and that calls compose in order.
- `ValueVsReference`: `by_value`, `by_reference` and `by_pointer`. The
  `modifies` clause of each says what the call can reach. The copy is
  untouched, the alias is written, the null pointer writes nothing, and no
  other variable changes.
- `ConstCorrectness`: each `const` name in `main` is handed to a member that
  enforces its qualification. The const variable is a module constant, which
  cannot be assigned. The pointer to const `p1` is a local of a method with no
  `modifies` clause, so it can be rebound but cannot write. The const pointer
  `p2` is a method parameter, so it cannot be rebound but may write its
  pointee. The const reference `ref`, `print_value`'s parameter and the
  `const Counter` are read by a function or by a method with no `modifies`
  clause, where a write or a call of `increment` is rejected.
- `MemoryModel`: static storage is an explicit `StaticStorage` object built at
  program start. `static_example` may modify only `function_static`, so the
  two globals never change. `heap_example` returns a fresh cell. `stack_example`
  has no frame at all.

Each `main` is a method that returns the values the program prints or holds at
each step, and proves them.

Signed overflow is undefined in C++. `Counter::increment` and `static_example`
therefore require the value to be below INT32_MAX. `Run` reports an increment
past INT32_MAX as `None`. The constructor `Counter(int start = 0)` does not
check its argument, so the documented invariant `value >= 0` is proved only for
counters constructed with a non-negative start. That is the only case the
program uses (5 and 10).

## Model

| member | source | states |
|---|---|---|
| `ClassesObjects.Counter.constructor` | oop/classes_objects.cpp:25-27 | `Counter(start)` holds `start`; with the argument omitted it holds 0; a non-negative start establishes the invariant |
| `ClassesObjects.Counter.Copy` | oop/classes_objects.cpp:46-47 | the copy made for a by-value parameter holds the same value as the original |
| `ClassesObjects.Counter.Increment` | oop/classes_objects.cpp:34-36 | raises `value` by exactly one, agreeing with `Run` on a single `increment`, changes only this object and keeps the invariant; undefined (excluded) at INT32_MAX |
| `ClassesObjects.Counter.Get` | oop/classes_objects.cpp:38-40 | a `const` read: reads only the object, reports the current value and leaves the state as `Run` of a single `get` says |
| `ClassesObjects.Run` | oop/classes_objects.cpp:34-40 | the meaning of a sequence of `increment`/`get` calls on one counter: a defined run never ends below its start and reports at most once per call; `None` when an increment would overflow |
| `ClassesObjects.MakeCalls` | oop/classes_objects.cpp:34-40 | making any defined sequence of calls on a `Counter` object leaves it in the final state `Run` gives and observes exactly the values `Run` reports |
| `ClassesObjects.RunAppend` | oop/classes_objects.cpp:34-40 | running two call sequences one after the other is running their concatenation: final state threads through and the reports concatenate |
| `ClassesObjects.RunCounts` | oop/classes_objects.cpp:34-40 | a call sequence is defined exactly when start plus its increments stays within INT32_MAX, and then ends that many above the start with one report per `get` |
| `ClassesObjects.RunReportsInOrder` | oop/classes_objects.cpp:34-40 | the counter never goes down: every `get` reports between the start and the final value, and later reports are never smaller |
| `ClassesObjects.InvariantKept` | oop/classes_objects.cpp:21-40 | a counter constructed with `start >= 0` satisfies `value >= 0` after any defined sequence of calls, and every `get` reports a non-negative value |
| `ClassesObjects.IncrementByValue` | oop/classes_objects.cpp:46-49 | the parameter is a copy; the caller's counter is unchanged after the call |
| `ClassesObjects.IncrementByReference` | oop/classes_objects.cpp:51-54 | the caller's counter is incremented by exactly one and nothing else is modified |
| `ClassesObjects.ClassesObjectsMain` | oop/classes_objects.cpp:59-80 | `a(5)` then `increment` prints 6, still 6 after `increment_by_value`, 7 after `increment_by_reference`; the heap counter goes from 10 to 11 |
| `ValueVsReference.ByValue` | basics/value_vs_reference.cpp:9-11 | assigning 10 to the parameter copy leaves the caller's variable unchanged |
| `ValueVsReference.ByReference` | basics/value_vs_reference.cpp:13-15 | the aliased variable becomes 20 whatever it held, and only it may change |
| `ValueVsReference.ByReferenceTwice` | basics/value_vs_reference.cpp:13-15 | calling `by_reference` twice ends in the same state as once: the variable is 20 |
| `ValueVsReference.ByPointer` | basics/value_vs_reference.cpp:17-21 | a non-null pointee becomes 30; for a null pointer the frame is empty, so nothing changes |
| `ValueVsReference.ValueVsReferenceMain` | basics/value_vs_reference.cpp:23-38 | from a=1, b=2, c=3 the three calls leave a=1, b=20, c=30, each call leaving the other variables as they were |
| `ConstCorrectness.PrintValue` | basics/const_correctness.cpp:28-34 | takes a read-only alias: prints the argument's value and cannot modify it |
| `ConstCorrectness.Counter.constructor` | basics/const_correctness.cpp:39-41 | a default-constructed counter holds 0 |
| `ConstCorrectness.Counter.Get` | basics/const_correctness.cpp:44-48 | a `const` member: returns `value` and, reading only, leaves the object unchanged |
| `ConstCorrectness.Counter.Increment` | basics/const_correctness.cpp:50-52 | adds exactly one to `value` and modifies only this object |
| `ConstCorrectness.PointerToConst` | basics/const_correctness.cpp:74-82 | the pointer to const is rebound from `a` to `b` and cannot write either: both keep their values and it then reads `b` |
| `ConstCorrectness.WriteThroughConstPointer` | basics/const_correctness.cpp:85-87 | the const pointer cannot be rebound, and writing 12 through it sets its pointee to 12, the only object it may change |
| `ConstCorrectness.ReadConstReference` | basics/const_correctness.cpp:106-114 | reading through the const reference yields the object's current value and writes nothing |
| `ConstCorrectness.ShowConstCounter` | basics/const_correctness.cpp:121-129 | on a `const Counter` only the read-only `get` is usable; it shows the counter's value and nothing is modified |
| `ConstCorrectness.ConstCorrectnessMain` | basics/const_correctness.cpp:55-132 | the const variable is 10; rebinding `p1` from `&a` to `&b` leaves a=5 and b=6; writing 12 through `p2` sets a to 12; after `a = 9` both `ref` and `print_value(a)` see 9; the `const Counter` reports 0 |
| `MemoryModel.StaticStorage.constructor` | basics/memory_model.cpp:21-25 | at program start `global_var` is 42, `file_static` 100 and `function_static` 0 |
| `MemoryModel.StaticStorage.StaticExample` | basics/memory_model.cpp:24-28 | increments the persistent `function_static` by one and prints the new value; `global_var` and `file_static` are outside its frame and unchanged |
| `MemoryModel.StackExample` | basics/memory_model.cpp:33-39 | prints its local 10 and `array[0]` 1, and has no frame, so no storage that outlives the call changes |
| `MemoryModel.HeapExample` | basics/memory_model.cpp:44-48 | returns a freshly allocated `int` holding 99 |
| `MemoryModel.MemoryModelMain` | basics/memory_model.cpp:53-70 | the stack example prints 10 and 1, the heap value reads 99 after `heap_example` returned, the globals are 42 and 100, and three calls of `static_example` print 1, 2, 3 |

## Left out

- Console output: every `std::cout`, including the constructor and destructor messages of `Counter`. The values the programs print are the results of the `...Main` methods and of `PrintValue`, `StaticExample` and `StackExample`.
- Destruction and `delete`: Dafny has no deallocation, so destructor order, `delete p`, `delete heap_ptr` and `heap_ptr = nullptr` are not modelled.
- The address comparison in `basics/memory_model.cpp` (lines 72-81): addresses depend on the platform's memory layout.
- The undefined-behaviour demonstrations: the dangling pointer and the leaked `new int(888)` in `basics/memory_model.cpp`. Dafny is memory safe and garbage collected, so they cannot be represented.
- The statements under `#if 0` in `basics/const_correctness.cpp`: the compiler rejects them, so they are not part of any member. The members that take each `const` name reject their Dafny counterparts: assigning `IMMUTABLE`, writing through `p1` in `PointerToConst`, rebinding the parameter `p2`, and writing through `ref` or calling `Increment` in `ShowConstCounter`. `ConstCorrectnessMain` itself holds plain references to `a`, `b` and the counter, so inside it these rejections are not modelled.
- The unused `const int* const p3 = &a` in `basics/const_correctness.cpp`: it is only declared, never read or written.
- basics/pointers_deepdive.cpp is not part of this model. It is a straight-line `main` that prints addresses and values. Its aliasing points are the ones the modules above state.
- ClassesObjects.Counter.Increment: requires `value < INT32_MAX`, because signed overflow is undefined in C++. The same holds for `ConstCorrectness.Counter.Increment`, `IncrementByValue`, `IncrementByReference` and `StaticStorage.StaticExample`. No wrap-around is modelled.
