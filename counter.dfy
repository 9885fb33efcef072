/**
 * The process-wide ticket counter `sharedValue` behind `GetCounterInt`
 * (main.go:1436-1448). It starts at 1000; every call adds one and a value
 * that reaches 10000 is reset to 1000, so callers see 1001, 1002, ..., 9999,
 * 1000, 1001, ... The mutex is left out: calls are taken one at a time.
 */
module Counter {

  const Initial: int := 1000
  const Bound: int := 10000
  /** How many distinct values one cycle runs through. */
  const Period: int := Bound - Initial

  predicate InRange(v: int) { Initial <= v < Bound }

  /** One call of `GetCounterInt`: the value it stores and returns. */
  function Step(v: int): (r: int)
    ensures InRange(v) ==> InRange(r)
  {
    if v + 1 == Bound then Initial else v + 1
  }

  /** The counter after `k` calls, starting from `v`. */
  function After(v: int, k: nat): int
  {
    if k == 0 then v else Step(After(v, k - 1))
  }

  /** After k calls the counter has advanced k places around the cycle 1000..9999. */
  lemma {:induction false} AfterClosedForm(v: int, k: nat)
    requires InRange(v)
    ensures After(v, k) == Initial + (v - Initial + k) % Period
  {
    if k > 0 {
      AfterClosedForm(v, k - 1);
      ModSucc(v - Initial + k - 1);
    }
  }

  /** Counting one further around the cycle: the remainder advances by one or wraps to 0. */
  lemma ModSucc(a: int)
    requires a >= 0
    ensures (a + 1) % 9000 == if a % 9000 == 8999 then 0 else a % 9000 + 1
  {
    var q, x := a / 9000, a % 9000;
    assert a == 9000 * q + x && 0 <= x < 9000;
    if x == 8999 {
      assert a + 1 == 9000 * (q + 1);
    } else {
      assert a + 1 == 9000 * q + (x + 1);
    }
  }

  /** Within one cycle of 9000 calls no value repeats. */
  lemma NoRepeatWithinCycle(v: int, i: nat, j: nat)
    requires InRange(v)
    requires i < j < i + Period
    ensures After(v, i) != After(v, j)
  {
    AfterClosedForm(v, i);
    AfterClosedForm(v, j);
    var a, b := v - Initial + i, v - Initial + j;
    assert a == Period * (a / Period) + a % Period;
    assert b == Period * (b / Period) + b % Period;
  }

  /** From a fresh process: 9000 calls wrap back to 1000, the 9001st gives 1001. */
  lemma WrapsOnceAfter9001Calls()
    ensures After(Initial, 1) == 1001
    ensures After(Initial, 8999) == 9999
    ensures After(Initial, 9000) == Initial
    ensures After(Initial, 9001) == 1001
  {
    AfterClosedForm(Initial, 8999);
    AfterClosedForm(Initial, 9000);
    AfterClosedForm(Initial, 9001);
  }

  /** The global `sharedValue` with its mutex-guarded increment. */
  class SharedCounter {
    var value: int

    ghost predicate Valid()
      reads this
    {
      InRange(value)
    }

    constructor ()
      ensures Valid() && value == Initial
    {
      value := Initial;
    }

    /** `GetCounterInt`: advance the counter and return the new value. */
    method Next() returns (r: int)
      requires Valid()
      modifies this
      ensures Valid() && InRange(r)
      ensures value == Step(old(value)) && r == value
    {
      value := value + 1;
      if value == Bound {
        value := Initial;
      }
      r := value;
    }
  }
}
