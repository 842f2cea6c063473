/** counters.go: the accumulating counter of the handler.go build variant.

    The source keeps the value as a float64 that is only ever increased by integers; the
    model keeps it as an unbounded integer. */
module Counters {

  class Counter {
    var val: int

    /** The zero value `counter{}`. */
    constructor ()
      ensures val == 0
    {
      val := 0;
    }

    /** `Increment` adds `value` to the counter and changes nothing else. */
    method Increment(value: int)
      modifies this
      ensures val == old(val) + value
    {
      val := val + value;
    }
  }

  /** counters_test.go: from zero, +2 then -3 leaves -1. */
  method IncrementScenario() returns (c: Counter)
    ensures fresh(c) && c.val == -1
  {
    c := new Counter();
    c.Increment(2);
    assert c.val == 2;
    c.Increment(-3);
  }

  /** Two increments have the effect of one increment by their sum. */
  method IncrementTwice(c: Counter, a: int, b: int)
    modifies c
    ensures c.val == old(c.val) + (a + b)
  {
    c.Increment(a);
    c.Increment(b);
  }
}
