/**
 * oop/classes_objects.cpp: a `Counter` class with a constructor taking an
 * optional start value, a mutating `increment` and a `const` `get`, passed to
 * functions by value (a copy is incremented) and by reference (the caller's
 * object is incremented).
 */
module ClassesObjects {
  import opened Storage

  // ---------------------------------------------------------------------
  // What a client can observe of one Counter: a sequence of calls
  // ---------------------------------------------------------------------

  /** The two member functions a client can call on a constructed Counter. */
  datatype Call = Increment | Get

  /** The state after a sequence of calls, and what each `get` reported, in order. */
  datatype Outcome = Outcome(final: int32, reported: seq<int32>)

  /**
   * The effect of `calls` on a counter holding `value`. `None` when an
   * `increment` would take `value` past INT32_MAX: signed overflow is
   * undefined in C++, so nothing is promised from that point on.
   */
  function Run(value: int32, calls: seq<Call>): (r: Option<Outcome>)
    ensures r.Some? ==> value <= r.value.final && |r.value.reported| <= |calls|
    decreases |calls|
  {
    if calls == [] then Some(Outcome(value, []))
    else match calls[0]
      case Get =>
        (match Run(value, calls[1..])
         case None => None
         case Some(o) => Some(Outcome(o.final, [value] + o.reported)))
      case Increment =>
        if value as int < INT32_MAX then Run(value + 1, calls[1..]) else None
  }

  /** How many of `calls` are `increment`s. */
  function Increments(calls: seq<Call>): nat
  {
    if calls == [] then 0
    else (if calls[0] == Increment then 1 else 0) + Increments(calls[1..])
  }

  /** How many of `calls` are `get`s. */
  function Gets(calls: seq<Call>): nat
  {
    if calls == [] then 0
    else (if calls[0] == Get then 1 else 0) + Gets(calls[1..])
  }

  /** Running `a` then `b` is the same as running `a + b`: the calls compose in order. */
  lemma {:induction false} RunAppend(value: int32, a: seq<Call>, b: seq<Call>)
    ensures Run(value, a + b) ==
      match Run(value, a)
      case None => None
      case Some(o) =>
        match Run(o.final, b)
        case None => None
        case Some(o') => Some(Outcome(o'.final, o.reported + o'.reported))
    decreases |a|
  {
    if a == [] {
      assert a + b == b;
      match Run(value, b)
      case None =>
      case Some(o') => assert [] + o'.reported == o'.reported;
    } else {
      assert (a + b)[0] == a[0];
      assert (a + b)[1..] == a[1..] + b;
      match a[0] {
        case Get =>
          RunAppend(value, a[1..], b);
          match Run(value, a[1..]) {
            case None =>
            case Some(o) =>
              match Run(o.final, b) {
                case None =>
                case Some(o') =>
                  assert [value] + (o.reported + o'.reported) == ([value] + o.reported) + o'.reported;
              }
          }
        case Increment =>
          if value as int < INT32_MAX {
            RunAppend(value + 1, a[1..], b);
          }
      }
    }
  }

  /**
   * The calls are well defined exactly when the increments stay within `int`,
   * and then the counter ends `Increments(calls)` above where it started,
   * having reported once per `get`.
   */
  lemma {:induction false} RunCounts(value: int32, calls: seq<Call>)
    ensures Run(value, calls).Some? <==> value as int + Increments(calls) <= INT32_MAX
    ensures Run(value, calls).Some? ==>
      Run(value, calls).value.final as int == value as int + Increments(calls) &&
      |Run(value, calls).value.reported| == Gets(calls)
    decreases |calls|
  {
    if calls != [] {
      match calls[0]
      case Get => RunCounts(value, calls[1..]);
      case Increment =>
        if value as int < INT32_MAX {
          RunCounts(value + 1, calls[1..]);
        }
    }
  }

  /**
   * The counter only goes up: every `get` reports a value between the start
   * and the final value, and later `get`s never report less than earlier ones.
   */
  lemma {:induction false} RunReportsInOrder(value: int32, calls: seq<Call>)
    requires Run(value, calls).Some?
    ensures var o := Run(value, calls).value;
      value <= o.final &&
      (forall i :: 0 <= i < |o.reported| ==> value <= o.reported[i] <= o.final) &&
      (forall i, j :: 0 <= i <= j < |o.reported| ==> o.reported[i] <= o.reported[j])
    decreases |calls|
  {
    if calls != [] {
      match calls[0]
      case Get =>
        RunReportsInOrder(value, calls[1..]);
        var o := Run(value, calls[1..]).value;
        var r := [value] + o.reported;
        assert Run(value, calls).value.reported == r;
        forall i, j | 0 <= i <= j < |r| ensures r[i] <= r[j] {
          if i > 0 {
            assert r[i] == o.reported[i - 1] && r[j] == o.reported[j - 1];
          } else if j > 0 {
            assert r[j] == o.reported[j - 1];
          }
        }
      case Increment =>
        RunReportsInOrder(value + 1, calls[1..]);
    }
  }

  /**
   * The documented invariant `value >= 0`: a counter constructed with a
   * non-negative start stays non-negative, and so does everything it reports,
   * whatever calls follow (as long as they are defined).
   */
  lemma {:induction false} InvariantKept(start: int32, calls: seq<Call>)
    requires start >= 0
    requires Run(start, calls).Some?
    ensures Run(start, calls).value.final >= 0
    ensures forall i :: 0 <= i < |Run(start, calls).value.reported| ==> Run(start, calls).value.reported[i] >= 0
  {
    RunReportsInOrder(start, calls);
  }

  // ---------------------------------------------------------------------
  // The class
  // ---------------------------------------------------------------------

  class Counter {
    var value: int32

    /** The invariant documented on the field; the constructor does not enforce it. */
    ghost predicate Valid()
      reads this
    {
      value >= 0
    }

    /** `Counter(int start = 0)`. */
    constructor (start: int32 := 0)
      ensures value == start
      ensures start >= 0 ==> Valid()
    {
      value := start;
    }

    /** The implicitly declared copy constructor, run when a Counter is passed by value. */
    constructor Copy(other: Counter)
      ensures value == other.value
    {
      value := other.value;
    }

    /** `value++`; at INT32_MAX that would be signed overflow, which C++ leaves undefined. */
    method Increment()
      requires value as int < INT32_MAX
      modifies this
      ensures Run(old(value), [Call.Increment]) == Some(Outcome(value, []))
      ensures value as int == old(value) as int + 1
      ensures old(Valid()) ==> Valid()
    {
      value := value + 1;
    }

    /** The `const` member: it reads the object and has nothing it may modify. */
    function Get(): (r: int32)
      reads this
      ensures Run(value, [Call.Get]) == Some(Outcome(value, [r]))
    {
      assert [Call.Get][1..] == [] && [value] + [] == [value];
      value
    }
  }

  /**
   * A client making `calls` on the counter `c`, in order: what it observes and
   * the state it leaves are those `Run` gives, so the lemmas about `Run` hold
   * of the object itself.
   */
  method MakeCalls(c: Counter, calls: seq<Call>) returns (reported: seq<int32>)
    requires Run(c.value, calls).Some?
    modifies c
    ensures Run(old(c.value), calls) == Some(Outcome(c.value, reported))
  {
    reported := [];
    var i := 0;
    assert calls[i..] == calls && [] + Run(c.value, calls).value.reported == Run(c.value, calls).value.reported;
    while i < |calls|
      invariant 0 <= i <= |calls|
      invariant Run(c.value, calls[i..]).Some?
      invariant Run(old(c.value), calls) ==
        Some(Outcome(Run(c.value, calls[i..]).value.final, reported + Run(c.value, calls[i..]).value.reported))
    {
      ghost var rest := Run(c.value, calls[i + 1..]);
      assert calls[i..][0] == calls[i] && calls[i..][1..] == calls[i + 1..];
      match calls[i] {
        case Increment =>
          c.Increment();
        case Get =>
          var r := c.Get();
          assert reported + ([r] + rest.value.reported) == (reported + [r]) + rest.value.reported;
          reported := reported + [r];
      }
      i := i + 1;
    }
    assert calls[i..] == [] && reported + [] == reported;
  }

  /** `increment_by_value(Counter c)`: the parameter is a copy, and only the copy is incremented. */
  method IncrementByValue(c: Counter)
    requires c.value as int < INT32_MAX
    ensures c.value == old(c.value)
  {
    var copy := new Counter.Copy(c);
    copy.Increment();
  }

  /** `increment_by_reference(Counter& c)`: the parameter is the caller's object. */
  method IncrementByReference(c: Counter)
    requires c.value as int < INT32_MAX
    modifies c
    ensures c.value as int == old(c.value) as int + 1
  {
    c.Increment();
  }

  /**
   * The values `main` prints: a stack counter built from 5 and incremented,
   * then passed by value and by reference, and a heap counter built from 10
   * and incremented once.
   */
  method ClassesObjectsMain() returns (afterIncrement: int32, afterByValue: int32, afterByReference: int32, heapCounter: int32)
    ensures afterIncrement == 6
    ensures afterByValue == 6
    ensures afterByReference == 7
    ensures heapCounter == 11
  {
    var a := new Counter(5);
    a.Increment();
    afterIncrement := a.Get();
    IncrementByValue(a);
    afterByValue := a.Get();
    IncrementByReference(a);
    afterByReference := a.Get();
    var p := new Counter(10);
    p.Increment();
    heapCounter := p.Get();
  }
}
