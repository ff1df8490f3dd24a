/**
 * The collector runners (`run-hyperliquid.js`, `run-dydx.js`,
 * `run-backpack.js`, `run-aevo.js`, `run-orderly.js`): a loop that runs one
 * collection cycle at a time, sleeps a jittered interval, and stops cleanly
 * on a signal. The runners differ only in how the interval is jittered.
 */
module Runner {
  /** The four runners skip the 1 s floor when there is no jitter; the Orderly runner always applies it. */
  datatype DelayRule = FloorWithJitterOnly | AlwaysFloor

  function Max(a: int, b: int): int { if a >= b then a else b }

  /** `Math.floor((Math.random() * 2 - 1) * jitterMs)` for the draw `r`. */
  function Jitter(jitter: int, r: real): int {
    ((r * 2.0 - 1.0) * jitter as real).Floor
  }

  lemma ProductNonNegative(a: real, b: real)
    requires a >= 0.0 && b >= 0.0
    ensures a * b >= 0.0
  {
  }

  lemma ProductPositive(a: real, b: real)
    requires a > 0.0 && b > 0.0
    ensures a * b > 0.0
  {
  }

  /** A factor in [-1, 1) scales a positive `jitter` into [-jitter, jitter). */
  lemma ScaledPositive(c: real, jitter: int)
    requires -1.0 <= c < 1.0 && jitter > 0
    ensures (-jitter) as real <= c * jitter as real < jitter as real
  {
    ProductNonNegative(c + 1.0, jitter as real);
    ProductPositive(1.0 - c, jitter as real);
  }

  /** A factor in [-1, 1) scales a negative `jitter` into (jitter, -jitter]. */
  lemma ScaledNegative(c: real, jitter: int)
    requires -1.0 <= c < 1.0 && jitter < 0
    ensures jitter as real < c * jitter as real <= (-jitter) as real
  {
    ProductNonNegative(c + 1.0, (-jitter) as real);
    ProductPositive(1.0 - c, (-jitter) as real);
  }

  lemma FloorInHalfOpen(x: real, lo: int, hi: int)
    requires lo as real <= x < hi as real
    ensures lo <= x.Floor < hi
  {
  }

  lemma FloorInHalfClosed(x: real, lo: int, hi: int)
    requires lo as real < x <= hi as real
    ensures lo <= x.Floor <= hi
  {
  }

  lemma JitterPositive(jitter: int, r: real)
    requires 0.0 <= r < 1.0 && jitter > 0
    ensures -jitter <= Jitter(jitter, r) < jitter
  {
    ScaledPositive(r * 2.0 - 1.0, jitter);
    FloorInHalfOpen((r * 2.0 - 1.0) * jitter as real, -jitter, jitter);
  }

  lemma JitterNegative(jitter: int, r: real)
    requires 0.0 <= r < 1.0 && jitter < 0
    ensures jitter <= Jitter(jitter, r) <= -jitter
  {
    ScaledNegative(r * 2.0 - 1.0, jitter);
    FloorInHalfClosed((r * 2.0 - 1.0) * jitter as real, jitter, -jitter);
  }

  lemma JitterBounds(jitter: int, r: real)
    requires 0.0 <= r < 1.0
    ensures jitter > 0 ==> -jitter <= Jitter(jitter, r) < jitter
    ensures jitter < 0 ==> jitter <= Jitter(jitter, r) <= -jitter
    ensures jitter == 0 ==> Jitter(jitter, r) == 0
  {
    if jitter > 0 {
      JitterPositive(jitter, r);
    } else if jitter < 0 {
      JitterNegative(jitter, r);
    }
  }

  /** `nextDelay()` of the Hyperliquid, dYdX, Backpack and Aevo runners. */
  function NextDelay(base: int, jitter: int, r: real): (d: int)
    requires 0.0 <= r < 1.0
    ensures jitter <= 0 ==> d == base
    ensures jitter > 0 ==> d >= 1000 && (d == 1000 || base - jitter <= d < base + jitter)
  {
    JitterBounds(jitter, r);
    if jitter <= 0 then base else Max(1000, base + Jitter(jitter, r))
  }

  /** `nextDelay()` of the Orderly runner: jitter whenever it is non-zero, and
      always at least 1 s. */
  function NextDelayOrderly(base: int, jitter: int, r: real): (d: int)
    requires 0.0 <= r < 1.0
    ensures d >= 1000
    ensures jitter == 0 ==> d == Max(1000, base)
    ensures jitter > 0 ==> (d == 1000 || base - jitter <= d < base + jitter)
    ensures jitter < 0 ==> (d == 1000 || base + jitter <= d <= base - jitter)
  {
    JitterBounds(jitter, r);
    Max(1000, base + (if jitter != 0 then Jitter(jitter, r) else 0))
  }

  /** With positive jitter the two rules agree; without jitter they differ
      exactly when the base interval is under one second. */
  lemma DelayRulesCompared(base: int, jitter: int, r: real)
    requires 0.0 <= r < 1.0
    ensures jitter > 0 ==> NextDelay(base, jitter, r) == NextDelayOrderly(base, jitter, r)
    ensures jitter == 0 ==> (NextDelay(base, jitter, r) != NextDelayOrderly(base, jitter, r) <==> base < 1000)
  {
  }

  function DelayFor(rule: DelayRule, base: int, jitter: int, r: real): int
    requires 0.0 <= r < 1.0
  {
    match rule
    case FloorWithJitterOnly => NextDelay(base, jitter, r)
    case AlwaysFloor => NextDelayOrderly(base, jitter, r)
  }

  /**
   * The runner's module state. `inFlight` stands for the pending
   * `collectAndSend()` promise; `cycles` counts cycles started, `delays` the
   * sleeps chosen, `exited` the `process.exit(0)` call.
   */
  class Scheduler {
    const rule: DelayRule
    const baseIntervalMs: int
    const jitterMs: int
    var stopped: bool
    var isRunning: bool
    var inFlight: bool
    var cycles: nat
    var delays: seq<int>
    var exited: bool

    /** A cycle is in flight only while a run is marked. */
    predicate Valid()
      reads this
    {
      inFlight ==> isRunning
    }

    constructor(rule: DelayRule, base: int, jitter: int)
      ensures Valid()
      ensures this.rule == rule && baseIntervalMs == base && jitterMs == jitter
      ensures !stopped && !isRunning && !inFlight && cycles == 0 && delays == [] && !exited
    {
      this.rule := rule;
      baseIntervalMs := base;
      jitterMs := jitter;
      stopped, isRunning, inFlight := false, false, false;
      cycles, delays, exited := 0, [], false;
    }

    /** The synchronous start of `once()`: a tick that finds a run in progress
        is skipped without starting a cycle. */
    method StartOnce() returns (started: bool)
      requires Valid()
      modifies this
      ensures Valid()
      ensures started <==> !old(isRunning)
      ensures !started ==> unchanged(this)
      ensures started ==> isRunning && inFlight && cycles == old(cycles) + 1
      ensures started ==> stopped == old(stopped) && delays == old(delays) && exited == old(exited)
    {
      if isRunning {
        return false;
      }
      isRunning := true;
      cycles := cycles + 1;
      inFlight := true;
      started := true;
    }

    /** The `finally` of `once()`: whether the cycle succeeded or threw, the
        flags are cleared. A collector that fails to construct ends its cycle
        the same way. */
    method FinishOnce(succeeded: bool)
      requires Valid() && isRunning
      modifies this
      ensures Valid()
      ensures !isRunning && !inFlight
      ensures stopped == old(stopped) && cycles == old(cycles) && delays == old(delays) && exited == old(exited)
    {
      isRunning := false;
      inFlight := false;
    }

    /** `shutdown(signal)` up to its `await inFlight`: a second signal does nothing. */
    method ShutdownStart() returns (proceed: bool)
      requires Valid()
      modifies this
      ensures Valid()
      ensures proceed <==> !old(stopped)
      ensures !proceed ==> unchanged(this)
      ensures proceed ==> (stopped && isRunning == old(isRunning) && inFlight == old(inFlight) &&
        cycles == old(cycles) && delays == old(delays) && exited == old(exited))
    {
      if stopped {
        return false;
      }
      stopped := true;
      proceed := true;
    }

    /** The rest of `shutdown`, once the in-flight cycle (if any) has settled,
        its error ignored: the process exits with status 0. */
    method ShutdownFinish()
      requires Valid() && stopped && !inFlight
      modifies this
      ensures Valid()
      ensures exited
      ensures stopped && isRunning == old(isRunning) && !inFlight && cycles == old(cycles) && delays == old(delays)
    {
      exited := true;
    }

    /**
     * `loop()` from a fresh start until a signal. The signal arrives during
     * cycle `stopAt` (`duringSleep` false) or during the sleep that follows it
     * (`duringSleep` true); `draws(i)` is the `Math.random()` of the i-th delay
     * and `outcomes(i)` whether cycle i succeeded.
     */
    method Loop(stopAt: nat, duringSleep: bool, draws: nat -> real, outcomes: nat -> bool)
      requires Valid() && !stopped && !isRunning && !inFlight && cycles == 0 && delays == [] && !exited
      requires forall i :: 0.0 <= draws(i) < 1.0
      modifies this
      ensures Valid() && stopped && exited && !isRunning && !inFlight
      ensures cycles == stopAt + 1
      ensures |delays| == if duringSleep then stopAt + 1 else stopAt
      ensures forall k :: 0 <= k < |delays| ==> delays[k] == DelayFor(rule, baseIntervalMs, jitterMs, draws(k))
    {
      var i: nat := 0;
      while !stopped
        invariant Valid() && !isRunning && !inFlight
        invariant !stopped ==> i <= stopAt && cycles == i && |delays| == i && !exited
        invariant stopped ==> exited && cycles == stopAt + 1 && |delays| == (if duringSleep then stopAt + 1 else stopAt)
        invariant forall k :: 0 <= k < |delays| ==> delays[k] == DelayFor(rule, baseIntervalMs, jitterMs, draws(k))
        decreases stopAt + 1 - i, if stopped then 0 else 1
      {
        var started := StartOnce();
        var signalled := i == stopAt && !duringSleep;
        if signalled {
          var proceed := ShutdownStart();
        }
        FinishOnce(outcomes(i));
        if signalled {
          ShutdownFinish();
        }
        if stopped {
          break;
        }
        var d := DelayFor(rule, baseIntervalMs, jitterMs, draws(i));
        delays := delays + [d];
        if i == stopAt {
          var proceed := ShutdownStart();
          ShutdownFinish();
        }
        i := i + 1;
      }
    }
  }
}
