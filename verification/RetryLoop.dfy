/** The retry decorator: how often the wrapped function is called, and how long the
    wrapper can sleep in total. */
module RetryLoop {

  /** How one call of the wrapped function ends. Only `Raises` is one of the retried exceptions. */
  datatype Call = Returns | Raises | RaisesOther | IsCancelled

  function Max(a: int, b: int): int {
    if a < b then b else a
  }

  function Least(a: real, b: real): real {
    if a < b then a else b
  }

  function Pow2(n: nat): int {
    if n == 0 then 1 else 2 * Pow2(n - 1)
  }

  /** `base` doubled `n` times. */
  function Doubled(base: real, n: nat): real {
    if n == 0 then base else Doubled(base, n - 1) + Doubled(base, n - 1)
  }

  lemma {:induction false} DoubledIsPower(base: real, n: nat)
    ensures Doubled(base, n) == base * Pow2(n) as real
  {
    if n > 0 {
      DoubledIsPower(base, n - 1);
      var p := Pow2(n - 1) as real;
      assert base * (2.0 * p) == base * p + base * p;
    }
  }

  /** The delay after the given attempt, counted from one, before jitter. */
  function Delay(base: real, cap: real, attempt: nat): real
    requires attempt >= 1
  {
    Least(Doubled(base, attempt - 1), cap)
  }

  /** The k-th delay is base times 2^(k-1), or the cap if that is less. */
  lemma DelayExactly(base: real, cap: real, k: nat)
    requires k >= 1
    ensures var d := base * Pow2(k - 1) as real; Delay(base, cap, k) == if d <= cap then d else cap
  {
    DoubledIsPower(base, k - 1);
  }

  /** The delays after the first `n` attempts. */
  function Delays(base: real, cap: real, n: nat): real {
    if n == 0 then 0.0 else Delays(base, cap, n - 1) + Delay(base, cap, n)
  }

  /** The attempt, at or after `from`, at which the loop stops: the first that does not raise a
      retried exception, or the last one allowed. */
  function StopsAt(calls: nat -> Call, from: nat, limit: nat): (n: nat)
    requires 1 <= from <= limit
    ensures from <= n <= limit
    ensures n < limit ==> calls(n) != Raises
    ensures forall k :: from <= k < n ==> calls(k) == Raises
    decreases limit - from
  {
    if from == limit || calls(from) != Raises then from else StopsAt(calls, from + 1, limit)
  }

  /** The wrapper. `calls(k)` is how the k-th call ends, `uniform(k, delay)` the time slept
      after it. The loop calls exactly up to the first stopping attempt, sleeps once
      between calls, and reports the last call's own ending. */
  method Retry(maxRetries: int, base: real, cap: real, calls: nat -> Call, uniform: (nat, real) -> real)
    returns (result: Call, attempts: nat, sleeps: nat, slept: real)
    requires base >= 0.0 && cap >= 0.0
    requires forall k, delay :: delay >= 0.0 ==> 0.0 <= uniform(k, delay) <= delay
    ensures attempts == StopsAt(calls, 1, Max(1, maxRetries)) && result == calls(attempts)
    ensures sleeps == attempts - 1
    ensures 0.0 <= slept <= Delays(base, cap, sleeps)
    ensures slept <= Doubled(base, Max(1, maxRetries) - 1) - base
    ensures slept <= Caps(cap, Max(1, maxRetries) - 1)
  {
    var retries := Max(1, maxRetries);
    attempts, sleeps, slept := 1, 0, 0.0;
    while true
      invariant 1 <= attempts <= retries && sleeps == attempts - 1
      invariant StopsAt(calls, 1, retries) == StopsAt(calls, attempts, retries)
      invariant 0.0 <= slept <= Delays(base, cap, sleeps)
      decreases retries - attempts
    {
      result := calls(attempts);
      if result != Raises || attempts >= retries {
        WholeWrapperIsBounded(base, cap, attempts, retries);
        return;
      }
      DoubledIsPositive(base, attempts - 1);
      slept := slept + uniform(attempts, Delay(base, cap, attempts));
      sleeps := sleeps + 1;
      attempts := attempts + 1;
    }
  }

  lemma {:induction false} DoubledIsPositive(base: real, n: nat)
    requires base >= 0.0
    ensures Doubled(base, n) >= base
  {
    if n > 0 {
      DoubledIsPositive(base, n - 1);
    }
  }

  /** `n` times the cap. */
  function Caps(cap: real, n: nat): real {
    if n == 0 then 0.0 else Caps(cap, n - 1) + cap
  }

  lemma {:induction false} CapsIsProduct(cap: real, n: nat)
    ensures Caps(cap, n) == n as real * cap
  {
    if n > 0 {
      CapsIsProduct(cap, n - 1);
      assert n as real * cap == (n - 1) as real * cap + cap;
    }
  }

  /** The sleep after `n` attempts is at most base * (2^n - 1), and at most n * cap. */
  lemma {:induction false} SleepIsBounded(base: real, cap: real, n: nat)
    requires base >= 0.0 && cap >= 0.0
    ensures 0.0 <= Delays(base, cap, n) <= Doubled(base, n) - base
    ensures Delays(base, cap, n) <= Caps(cap, n)
  {
    if n > 0 {
      SleepIsBounded(base, cap, n - 1);
      DoubledIsPositive(base, n - 1);
    }
  }

  /** The exponential bound is reached exactly while the cap does not bite. */
  lemma {:induction false} BoundIsReachedExactly(base: real, cap: real, n: nat)
    requires base >= 0.0 && cap >= 0.0 && n >= 1
    ensures Delays(base, cap, n) == Doubled(base, n) - base <==> Doubled(base, n - 1) <= cap
  {
    SleepIsBounded(base, cap, n - 1);
    if n > 1 {
      BoundIsReachedExactly(base, cap, n - 1);
      DoubledIsPositive(base, n - 2);
    }
  }

  /** More attempts never lower the bounds, so those for the configured number of retries
      cover every run of the wrapper. */
  lemma {:induction false} WholeWrapperIsBounded(base: real, cap: real, attempts: nat, retries: nat)
    requires base >= 0.0 && cap >= 0.0 && 1 <= attempts <= retries
    ensures Delays(base, cap, attempts - 1) <= Doubled(base, retries - 1) - base
    ensures Delays(base, cap, attempts - 1) <= Caps(cap, retries - 1)
    decreases retries - attempts
  {
    if attempts == retries {
      SleepIsBounded(base, cap, attempts - 1);
    } else {
      DoubledIsPositive(base, attempts - 1);
      WholeWrapperIsBounded(base, cap, attempts + 1, retries);
    }
  }

  /** The bounds in closed form. */
  lemma TotalSleep(base: real, cap: real, attempts: nat, retries: nat)
    requires base >= 0.0 && cap >= 0.0 && 1 <= attempts <= retries
    ensures Delays(base, cap, attempts - 1) <= base * Pow2(retries - 1) as real - base
    ensures Delays(base, cap, attempts - 1) <= (retries - 1) as real * cap
  {
    WholeWrapperIsBounded(base, cap, attempts, retries);
    var n: nat := retries - 1;
    DoubledIsPower(base, n);
    CapsIsProduct(cap, n);
  }
}
