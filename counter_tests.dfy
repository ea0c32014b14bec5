/** The unit tests of src/counter/counter.rs, each as a client of `Counter` that
    returns what the test observes through `get` and `is_even`; the postconditions
    are the test's assertions. */
module CounterTests {
  import opened Counters
  import opened CounterScripts

  /** `test_new_counter`: a new counter reads 0. */
  method TestNewCounter() returns (got: i32)
    ensures got == 0
  {
    var c := new Counter();
    got := c.Get();
  }

  /** `test_increment`: two increments read 1, then 2. */
  method TestIncrement() returns (first: i32, second: i32)
    ensures first == 1 && second == 2
  {
    var c := new Counter();
    c.Increment();
    first := c.Get();
    c.Increment();
    second := c.Get();
  }

  /** `test_add`: `add(5)` reads 5, then `add(-2)` reads 3. */
  method TestAdd() returns (first: i32, second: i32)
    ensures first == 5 && second == 3
  {
    var c := new Counter();
    c.Add(5);
    first := c.Get();
    c.Add(-2);
    second := c.Get();
  }

  /** `test_reset`: `add(10)` then `reset` reads 0. */
  method TestReset() returns (got: i32)
    ensures got == 0
  {
    var c := new Counter();
    c.Add(10);
    c.Reset();
    got := c.Get();
  }

  /** `test_is_even`: 0 is even, 1 is odd, 2 is even. */
  method TestIsEven() returns (atZero: bool, atOne: bool, atTwo: bool)
    ensures atZero && !atOne && atTwo
  {
    var c := new Counter();
    atZero := c.IsEven();
    c.Increment();
    atOne := c.IsEven();
    c.Increment();
    atTwo := c.IsEven();
  }

  /** `test_multiple_operations`: `add(3)`, `increment`, `add(2)` read 6. */
  method TestMultipleOperations() returns (got: i32)
    ensures got == 6
  {
    var c := new Counter();
    c.Add(3);
    c.Increment();
    c.Add(2);
    got := c.Get();
  }

  /** `test_expensive_operation`: a thousand increments in a loop read 1000. */
  method TestExpensiveOperation() returns (got: i32)
    ensures got == 1000
  {
    var c := new Counter();
    var i := 0;
    while i < 1000
      invariant 0 <= i <= 1000
      invariant c.value as int == i
    {
      c.Increment();
      i := i + 1;
    }
    got := c.Get();
  }

  /** The same thousand increments as a script: by the general sum property. */
  method ThousandIncrementsAsScript() returns (got: i32)
    ensures got == 1000
  {
    IncrementsFit(0, 1000);
    IncrementsSum(1000);
    got := SumFromNew(Increments(1000));
  }
}
