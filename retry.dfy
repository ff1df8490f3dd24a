/**
 * `withRetry(fn, {retries, baseMs, factor})`: call `fn` up to `retries + 1`
 * times, return the first success, sleep `baseMs * factor^i` after failed
 * attempt `i` unless it was the last one, and rethrow the last error when
 * every attempt failed. Each collector file carries its own copy of this loop;
 * they differ only in their default `retries` and `baseMs`.
 *
 * The callee is an oracle: `attempt(i)` is what the i-th call returns or throws.
 * Sleeping is recorded as the list of delays waited, in order.
 */
module Retry {
  import opened Wrappers

  datatype Policy = Policy(retries: int, baseMs: real, factor: real)

  /** The defaults every caller uses: factor 2. */
  function DefaultPolicy(retries: int, baseMs: real): Policy {
    Policy(retries, baseMs, 2.0)
  }

  /** What the call to `withRetry` gives back: a value, or the error it throws
      (`undefined`, i.e. None, when the loop made no attempt). */
  datatype Outcome<+T, +E> = Succeeded(value: T) | Exhausted(lastError: Option<E>)

  /** The outcome together with how many calls were made and the delays slept. */
  datatype Trace<+T, +E> = Trace(outcome: Outcome<T, E>, calls: nat, waits: seq<real>)

  function Pow(b: real, n: nat): real
    decreases n
  {
    if n == 0 then 1.0 else b * Pow(b, n - 1)
  }

  function Delay(p: Policy, i: nat): real {
    p.baseMs * Pow(p.factor, i)
  }

  function Waits(p: Policy, k: nat): (w: seq<real>)
    ensures |w| == k && forall j :: 0 <= j < k ==> w[j] == Delay(p, j)
  {
    seq(k, j requires 0 <= j < k => Delay(p, j))
  }

  /** `for (let i = 0; i <= retries; i++)` runs this many times at most. */
  function MaxAttempts(p: Policy): nat {
    if p.retries < 0 then 0 else p.retries + 1
  }

  /** The first attempt in [i, n) that succeeds, or -1. */
  function FirstSuccessFrom<T, E>(attempt: nat -> Result<T, E>, i: nat, n: nat): (r: int)
    ensures r == -1 || (i <= r < n && attempt(r).Ok?)
    ensures r == -1 ==> forall j :: i <= j < n ==> attempt(j).Err?
    ensures r >= 0 ==> forall j :: i <= j < r ==> attempt(j).Err?
    decreases n - i
  {
    if i >= n then -1
    else if attempt(i).Ok? then i
    else FirstSuccessFrom(attempt, i + 1, n)
  }

  /** What `withRetry` does, as a function of the oracle and the policy. */
  function Spec<T, E>(attempt: nat -> Result<T, E>, p: Policy): (t: Trace<T, E>)
    ensures t.calls <= MaxAttempts(p)
    ensures p.retries >= 0 ==> t.calls >= 1
    ensures t.calls >= 1 ==> |t.waits| == t.calls - 1
    ensures t.calls == 0 ==> t.waits == []
    ensures forall j :: 0 <= j < |t.waits| ==> t.waits[j] == p.baseMs * Pow(p.factor, j)
    ensures forall j :: 0 <= j < t.calls - 1 ==> attempt(j).Err?
    ensures t.outcome.Succeeded? ==> t.calls >= 1 && attempt(t.calls - 1) == Ok(t.outcome.value)
    ensures t.outcome.Exhausted? ==> t.calls == MaxAttempts(p)
    ensures t.outcome.Exhausted? && t.calls >= 1 ==>
      attempt(t.calls - 1).Err? && t.outcome.lastError == Some(attempt(t.calls - 1).error)
    ensures t.outcome.Exhausted? && t.calls == 0 ==> t.outcome.lastError == None
  {
    var n := MaxAttempts(p);
    var k := FirstSuccessFrom(attempt, 0, n);
    if k >= 0 then Trace(Succeeded(attempt(k).value), k + 1, Waits(p, k))
    else if n == 0 then Trace(Exhausted(None), 0, [])
    else Trace(Exhausted(Some(attempt(n - 1).error)), n, Waits(p, n - 1))
  }

  method WithRetry<T, E>(attempt: nat -> Result<T, E>, p: Policy) returns (out: Outcome<T, E>, calls: nat, waits: seq<real>)
    ensures Trace(out, calls, waits) == Spec(attempt, p)
    ensures calls <= MaxAttempts(p)
    ensures out.Succeeded? ==> calls >= 1 && attempt(calls - 1) == Ok(out.value)
    ensures forall j :: 0 <= j < calls - 1 ==> attempt(j).Err?
    ensures out.Exhausted? ==> calls == MaxAttempts(p) && (calls >= 1 ==> out.lastError == Some(attempt(calls - 1).error))
    ensures calls >= 1 ==> waits == Waits(p, calls - 1)
  {
    var lastErr: Option<E> := None;
    var i: nat := 0;
    calls, waits := 0, [];
    while i <= p.retries
      invariant i <= MaxAttempts(p) && calls == i
      invariant p.retries >= 0 ==> i <= p.retries
      invariant forall j :: 0 <= j < i ==> attempt(j).Err?
      invariant lastErr == if i == 0 then None else Some(attempt(i - 1).error)
      invariant waits == Waits(p, i)
      invariant FirstSuccessFrom(attempt, 0, MaxAttempts(p)) == FirstSuccessFrom(attempt, i, MaxAttempts(p))
    {
      var r := attempt(i);
      calls := calls + 1;
      if r.Ok? {
        out := Succeeded(r.value);
        return;
      }
      lastErr := Some(r.error);
      if i == p.retries {
        out := Exhausted(lastErr);
        return;
      }
      waits := waits + [Delay(p, i)];
      i := i + 1;
    }
    out := Exhausted(lastErr);
  }
}
