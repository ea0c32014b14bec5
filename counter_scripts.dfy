/** Sequences of counter operations, as the tests of src/counter/counter.rs drive a
    counter: what value a script of calls leaves, when it stays inside `i32`, and
    how a real `Counter` agrees with that account. */
module CounterScripts {
  import opened Counters

  /** One mutating call on a counter. */
  datatype Op = Increment | Add(n: i32) | Reset

  /** The value after one call, on unbounded integers. */
  function Step(v: int, op: Op): int {
    match op
    case Increment => v + 1
    case Add(n) => v + n as int
    case Reset => 0
  }

  /** The value after a script of calls, applied from the first to the last. */
  function Replay(v: int, ops: seq<Op>): int
    decreases |ops|
  {
    if ops == [] then v else Replay(Step(v, ops[0]), ops[1..])
  }

  /** Every intermediate value of the script is an `i32`: no call overflows. */
  predicate Fits(v: int, ops: seq<Op>)
    decreases |ops|
  {
    ops == [] || (InI32(Step(v, ops[0])) && Fits(Step(v, ops[0]), ops[1..]))
  }

  /** How far a call moves the counter; `Reset` is not a move and counts 0. */
  function Delta(op: Op): int {
    match op
    case Increment => 1
    case Add(n) => n as int
    case Reset => 0
  }

  /** The sum of the deltas of a script. */
  function Sum(ops: seq<Op>): int {
    if ops == [] then 0 else Delta(ops[0]) + Sum(ops[1..])
  }

  predicate NoReset(ops: seq<Op>) {
    forall i :: 0 <= i < |ops| ==> !ops[i].Reset?
  }

  /** `k` calls of `increment`. */
  function Increments(k: nat): (ops: seq<Op>)
    ensures |ops| == k && NoReset(ops)
  {
    seq(k, _ => Increment)
  }

  /** Without a reset, a script moves the counter by exactly the sum of its deltas. */
  lemma {:induction false} ReplayIsSum(v: int, ops: seq<Op>)
    requires NoReset(ops)
    ensures Replay(v, ops) == v + Sum(ops)
    decreases |ops|
  {
    if ops != [] {
      assert NoReset(ops[1..]) by {
        forall i | 0 <= i < |ops[1..]| ensures !ops[1..][i].Reset? {
          assert ops[1..][i] == ops[i + 1];
        }
      }
      ReplayIsSum(Step(v, ops[0]), ops[1..]);
    }
  }

  /** A reset forgets everything before it: the outcome depends only on what follows. */
  lemma {:induction false} ReplayAfterReset(v: int, before: seq<Op>, after: seq<Op>)
    ensures Replay(v, before + [Reset] + after) == Replay(0, after)
    decreases |before|
  {
    if before == [] {
      assert ([Reset] + after)[1..] == after;
    } else {
      assert (before + [Reset] + after)[1..] == before[1..] + [Reset] + after;
      ReplayAfterReset(Step(v, before[0]), before[1..], after);
    }
  }

  /** Resetting twice has the same effect as resetting once, whatever follows. */
  lemma ResetIdempotent(v: int, after: seq<Op>)
    ensures Replay(v, [Reset, Reset] + after) == Replay(v, [Reset] + after)
  {
  }

  /** `k` increments add up to `k`. */
  lemma {:induction false} IncrementsSum(k: nat)
    ensures Sum(Increments(k)) == k
  {
    if k > 0 {
      assert Increments(k)[1..] == Increments(k - 1);
      IncrementsSum(k - 1);
    }
  }

  /** From an `i32` value, a run of `k` increments never overflows exactly when its
      last value is still at most `i32::MAX`. */
  lemma {:induction false} IncrementsFit(v: int, k: nat)
    requires InI32(v)
    ensures Fits(v, Increments(k)) <==> v + k <= I32_MAX
    decreases k
  {
    if k > 0 {
      assert Increments(k)[1..] == Increments(k - 1);
      if v + 1 <= I32_MAX {
        IncrementsFit(v + 1, k - 1);
      }
    }
  }

  /** Parity alternates under `increment`: after `k` increments the value is even
      exactly when the start value and `k` have the same parity. */
  lemma {:induction false} ParityAfterIncrements(v: int, k: nat)
    ensures IsEvenValue(Replay(v, Increments(k))) <==> (IsEvenValue(v) <==> IsEvenValue(k))
    decreases k
  {
    if k > 0 {
      assert Increments(k)[1..] == Increments(k - 1);
      ParityAfterIncrements(v + 1, k - 1);
    }
  }

  /** Runs a script on a counter, one call after another. */
  method RunScript(c: Counter, ops: seq<Op>)
    requires Fits(c.value as int, ops)
    modifies c
    ensures c.value as int == Replay(old(c.value) as int, ops)
  {
    var i := 0;
    while i < |ops|
      invariant 0 <= i <= |ops|
      invariant Fits(c.value as int, ops[i..])
      invariant Replay(c.value as int, ops[i..]) == Replay(old(c.value) as int, ops)
    {
      assert ops[i..][1..] == ops[i + 1..];
      match ops[i] {
        case Increment => c.Increment();
        case Add(n) => c.Add(n);
        case Reset => c.Reset();
      }
      i := i + 1;
    }
  }

  /** Starting from `Counter::new`, a reset-free script that never overflows leaves
      `get()` equal to the sum of its deltas: 1 per `increment`, `n` per `add(n)`. */
  method SumFromNew(ops: seq<Op>) returns (r: i32)
    requires NoReset(ops) && Fits(0, ops)
    ensures r as int == Sum(ops)
  {
    var c := new Counter();
    RunScript(c, ops);
    ReplayIsSum(0, ops);
    r := c.Get();
  }
}
