# Counter

A model of `Counter` from src/counter/counter.rs: a struct owning one signed 32-bit
integer `value`, created at 0 by `new`, read by `get`, changed in place by
`increment`, `add(n)` and `reset`, and asked for its parity by `is_even`.

- `counter.dfy`, module `Counters`: Rust's `i32` as a newtype over `int`, Rust's
  truncating `% 2` (`TruncRem2`), and the class `Counter` with its one field. The
  methods that take `&mut self` in Rust (`Increment`, `Add`, `Reset`) are methods
  with `modifies this`; the `&self` readers (`Get`, `IsEven`) are functions with
  `reads this`, so they cannot change the counter.
- `counter_scripts.dfy`, module `CounterScripts`: scripts of calls (`Op`), the value a
  script leaves (`Replay`), when it stays inside `i32` (`Fits`), the sum of its deltas
  (`Sum`), a method that runs a script on a real counter (`RunScript`), and the lemmas
  about sequences of calls that the tests exercise.
- `counter_tests.dfy`, module `CounterTests`: each unit test as a client method that
  returns what the test observes; its postcondition is the test's assertion.

Overflow: Rust's `+=` on `i32` panics in debug builds and wraps in release builds,
so neither is a behaviour to copy. `Increment` and `Add` instead require that the
result stays inside `i32`, and scripts carry the same obligation through `Fits`.

`is_even` uses Rust's `%`, which truncates toward zero (`-3 % 2 == -1`), whereas
Dafny's `%` is Euclidean. `TruncRem2` models Rust's operator, and `IsEven` is proved
to agree with mathematical parity for negative values too.

## Model

| member | source | states |
|---|---|---|
| `Counters.Counter.constructor` | src/counter/counter.rs:8-10 | a new counter holds 0 |
| `Counters.Counter.Get` | src/counter/counter.rs:13-15 | returns the current value; reads only, so the counter is unchanged |
| `Counters.Counter.Increment` | src/counter/counter.rs:18-20 | the value becomes exactly one more than before, and its parity flips; requires the old value to be below `i32::MAX` |
| `Counters.Counter.Add` | src/counter/counter.rs:23-25 | the value becomes the old value plus `n` for any signed `n` (unchanged for 0, smaller for negative `n`); requires the sum to lie within `i32` |
| `Counters.Counter.Reset` | src/counter/counter.rs:28-30 | the value becomes 0 whatever it was |
| `Counters.Counter.IsEven` | src/counter/counter.rs:33-35 | true exactly when the value is divisible by 2, negative values included; reads only |
| `Counters.TruncRem2` | src/counter/counter.rs:34 | Rust's truncating `% 2`: the remainder is -1, 0 or 1, has the sign of the dividend, and differs from it by an even number |
| `CounterScripts.ReplayIsSum` | src/counter/counter.rs:97-103 | a script of increments and adds moves the value by exactly the sum of its deltas |
| `CounterScripts.ReplayAfterReset` | src/counter/counter.rs:75-80 | after a reset the outcome depends only on the calls that follow it, whatever came before |
| `CounterScripts.ResetIdempotent` | src/counter/counter.rs:28-30 | two resets in a row have the same effect as one, whatever follows |
| `CounterScripts.IncrementsSum` | src/counter/counter.rs:108-114 | `k` increments add up to `k` |
| `CounterScripts.IncrementsFit` | src/counter/counter.rs:18-20 | from an `i32` value, `k` increments never overflow exactly when the final value is at most `i32::MAX` |
| `CounterScripts.ParityAfterIncrements` | src/counter/counter.rs:84-93 | after `k` increments the value is even exactly when the start value and `k` have the same parity |
| `CounterScripts.RunScript` | src/counter/counter.rs:97-103 | running a non-overflowing script on a counter, call by call, leaves the value the script's replay predicts |
| `CounterScripts.SumFromNew` | src/counter/counter.rs:97-114 | from `new`, any non-overflowing script of increments and adds leaves `get()` equal to the sum of its deltas |
| `CounterTests.TestNewCounter` | src/counter/counter.rs:48-51 | a new counter reads 0 |
| `CounterTests.TestIncrement` | src/counter/counter.rs:55-61 | two increments from new read 1, then 2 |
| `CounterTests.TestAdd` | src/counter/counter.rs:65-71 | `add(5)` reads 5, then `add(-2)` reads 3 |
| `CounterTests.TestReset` | src/counter/counter.rs:75-80 | `add(10)` then `reset` reads 0 |
| `CounterTests.TestIsEven` | src/counter/counter.rs:84-93 | 0 is even, after one increment odd, after two even |
| `CounterTests.TestMultipleOperations` | src/counter/counter.rs:97-103 | `add(3)`, `increment`, `add(2)` read 6 |
| `CounterTests.TestExpensiveOperation` | src/counter/counter.rs:108-114 | a thousand increments in a loop read 1000 |
| `CounterTests.ThousandIncrementsAsScript` | src/counter/counter.rs:108-114 | the same thousand increments read 1000 as a consequence of `SumFromNew` |

## Left out

- Counters.Counter.Increment: does not model what happens at `i32::MAX`; Rust panics in debug builds and wraps in release builds, so staying in range is a precondition instead.
- Counters.Counter.Add: does not model overflow or underflow of the sum, for the same reason; staying within `i32` is a precondition.
- `test_should_panic` (src/counter/counter.rs:117-122): it only panics explicitly and says nothing about `Counter`.
- The test-harness attributes (`#[cfg(test)]`, `#[test]`, `#[ignore]`, the assertion messages): only the assertions themselves are modelled.
- Ownership and drop: Rust's exclusive ownership of the counter is not modelled; the clients here only ever use counters they allocate themselves.
