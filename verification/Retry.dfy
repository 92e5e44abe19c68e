/**
 `Retry` of pkg/routine/retry.go.

 Contexts, the results of `fn`, and the jitter draws are inputs, indexed by the attempt.  Durations
 are nanoseconds in 64 bits.  The product of an interval and the factor is taken exactly and truncated;
 what the conversion yields for a product beyond 64 bits is implementation-dependent, so it is an input.
 */
module Retry {
  import opened Wrappers
  import opened Integers

  const MILLISECOND: int := 1_000_000
  const SECOND: int := 1_000_000_000

  const LIMIT: real := 0x8000_0000_0000_0000 as real

  datatype Settings = Settings(
    maxAttempts: int, initialInterval: Int64, factor: real, maxInterval: Int64, jitter: bool,
    retryIf: Option<string -> bool>)

  /** What a float-to-integer conversion yields for a value that 64 bits cannot hold. */
  type Machine = real -> Int64

  /** rand.Int64N(limit) at attempt k. */
  type Draws = (nat, int) -> int

  /** What happens at attempt k: the context before it, the call's error, the draw, the context during the wait. */
  datatype Env = Env(
    cancelled: nat -> Option<string>, call: nat -> Option<string>, interrupted: nat -> Option<string>,
    draw: Draws, machine: Machine)

  /** rand.Int64N(limit) draws from [0, limit). */
  ghost predicate DrawsInRange(draw: Draws) {
    forall k: nat, limit: int :: limit > 0 ==> 0 <= draw(k, limit) < limit
  }

  datatype Trace = Trace(err: Option<string>, calls: nat, waits: seq<Int64>)

  function WithDefaults(c: Settings): Settings {
    Settings(
      if c.maxAttempts <= 0 then 3 else c.maxAttempts,
      if c.initialInterval <= 0 then 100 * MILLISECOND else c.initialInterval,
      if c.factor <= 1.0 then 2.0 else c.factor,
      if c.maxInterval <= 0 then 5 * SECOND else c.maxInterval,
      c.jitter, c.retryIf)
  }

  predicate Defaulted(c: Settings) {
    c.maxAttempts >= 1 && c.initialInterval >= 1 && c.factor > 1.0 && c.maxInterval >= 1
  }

  function Jittered(c: Settings, env: Env, attempt: nat, interval: Int64): Int64 {
    var limit := TruncatedDiv(interval, 4);
    if c.jitter && limit > 0 then Wrap(interval + env.draw(attempt, limit)) else interval
  }

  function Truncated(x: real): int {
    if x >= 0.0 then x.Floor else -((-x).Floor)
  }

  /** time.Duration(x). */
  function Converted(x: real, machine: Machine): Int64 {
    if MIN64 <= Truncated(x) <= MAX64 then Truncated(x) else machine(x)
  }

  function Product(interval: Int64, factor: real): real {
    interval as real * factor
  }

  /** time.Duration(float64(interval) * factor). */
  function Scaled(interval: Int64, factor: real, machine: Machine): Int64 {
    Converted(Product(interval, factor), machine)
  }

  function Capped(c: Settings, next: Int64): Int64 {
    if next > c.maxInterval then c.maxInterval else next
  }

  function NextInterval(c: Settings, machine: Machine, interval: Int64): Int64 {
    Capped(c, Scaled(interval, c.factor, machine))
  }

  class RetryConfig {
    var maxAttempts: int
    var initialInterval: Int64
    var factor: real
    var maxInterval: Int64
    const jitter: bool
    const retryIf: Option<string -> bool>

    ghost function Snapshot(): Settings
      reads this
    {
      Settings(maxAttempts, initialInterval, factor, maxInterval, jitter, retryIf)
    }

    constructor (c: Settings)
      ensures Snapshot() == c
    {
      maxAttempts, initialInterval, factor, maxInterval := c.maxAttempts, c.initialInterval, c.factor, c.maxInterval;
      jitter, retryIf := c.jitter, c.retryIf;
    }

    method ApplyDefaults()
      modifies this
      ensures Snapshot() == WithDefaults(old(Snapshot())) && Defaulted(Snapshot())
      ensures old(maxAttempts) <= 0 ==> maxAttempts == 3
      ensures old(initialInterval) <= 0 ==> initialInterval == 100_000_000
      ensures old(factor) <= 1.0 ==> factor == 2.0
      ensures old(maxInterval) <= 0 ==> maxInterval == 5_000_000_000
      ensures Defaulted(old(Snapshot())) ==> unchanged(this)
    {
      if maxAttempts <= 0 {
        maxAttempts := 3;
      }
      if initialInterval <= 0 {
        initialInterval := 100 * MILLISECOND;
      }
      if factor <= 1.0 {
        factor := 2.0;
      }
      if maxInterval <= 0 {
        maxInterval := 5 * SECOND;
      }
    }

    /** The delay before the next attempt, with its random share. */
    method Delay(env: Env, attempt: nat, interval: Int64) returns (sleepDuration: Int64)
      ensures sleepDuration == Jittered(Snapshot(), env, attempt, interval)
    {
      sleepDuration := interval;
      if jitter {
        var jitterLimit := TruncatedDiv(sleepDuration, 4);
        if jitterLimit > 0 {
          sleepDuration := Wrap(sleepDuration + env.draw(attempt, jitterLimit));
        }
      }
    }

    /** The next base interval; `scale` multiplies by the factor. */
    method Backoff(interval: Int64, scale: Int64 -> Int64) returns (nextInterval: Int64)
      ensures nextInterval == Capped(Snapshot(), scale(interval))
    {
      nextInterval := scale(interval);
      if nextInterval > maxInterval {
        nextInterval := maxInterval;
      }
    }
  }

  /** The base interval of wait number i. */
  function BaseAt(c: Settings, machine: Machine, i: nat): Int64 {
    if i == 0 then c.initialInterval else NextInterval(c, machine, BaseAt(c, machine, i - 1))
  }

  // ---- The specification: what remains from one attempt on ----

  /** The result and the number of calls (0 or 1) when this attempt ends Retry before any wait. */
  function Ends(c: Settings, env: Env, attempt: nat): Option<(Option<string>, nat)> {
    if env.cancelled(attempt).Some? then Some((env.cancelled(attempt), 0))
    else if env.call(attempt).None? then Some((None, 1))
    else if attempt == c.maxAttempts || (c.retryIf.Some? && !c.retryIf.value(env.call(attempt).value))
    then Some((env.call(attempt), 1))
    else None
  }

  function From(c: Settings, env: Env, attempt: nat, base: nat -> Int64): Trace
    requires attempt >= 1
    decreases c.maxAttempts - attempt
  {
    if attempt > c.maxAttempts then Trace(None, 0, [])
    else
      match Ends(c, env, attempt)
      case Some((err, calls)) => Trace(err, calls, [])
      case None =>
        var sleep := Jittered(c, env, attempt, base(attempt - 1));
        if env.interrupted(attempt).Some? then Trace(env.interrupted(attempt), 1, [sleep])
        else
          var rest := From(c, env, attempt + 1, base);
          Trace(rest.err, 1 + rest.calls, [sleep] + rest.waits)
  }

  function Schedule(c: Settings, machine: Machine): nat -> Int64 {
    (i: nat) => BaseAt(c, machine, i)
  }

  /** A whole call of Retry, on a configuration with its defaults applied. */
  function Run(c: Settings, env: Env): Trace {
    From(c, env, 1, Schedule(c, env.machine))
  }

  // ---- The source's loop ----

  /** One attempt: the context check, the call, and the two reasons to stop. */
  method Attempt(cfg: RetryConfig, env: Env, attempt: nat) returns (end: Option<(Option<string>, nat)>)
    ensures end == Ends(cfg.Snapshot(), env, attempt)
  {
    if env.cancelled(attempt).Some? {
      return Some((env.cancelled(attempt), 0));
    }
    var err := env.call(attempt);
    if err.None? {
      return Some((None, 1));
    }
    if attempt == cfg.maxAttempts {
      return Some((err, 1));
    }
    if cfg.retryIf.Some? && !cfg.retryIf.value(err.value) {
      return Some((err, 1));
    }
    return None;
  }

  lemma Prepend(before: seq<Int64>, sleep: Int64, rest: seq<Int64>)
    ensures before + ([sleep] + rest) == (before + [sleep]) + rest
  {
  }

  /** The attempt loop; `base` gives the base interval of each wait. */
  method Loop(cfg: RetryConfig, env: Env, scale: Int64 -> Int64, ghost base: nat -> Int64) returns (trace: Trace)
    requires base(0) == cfg.initialInterval
    requires forall i: nat :: base(i + 1) == Capped(cfg.Snapshot(), scale(base(i)))
    ensures trace == From(cfg.Snapshot(), env, 1, base)
  {
    ghost var c := cfg.Snapshot();
    var currentInterval := cfg.initialInterval;
    var calls, waits: seq<Int64> := 0, [];
    ghost var whole := From(c, env, 1, base);
    var attempt := 1;
    while attempt <= cfg.maxAttempts
      invariant cfg.Snapshot() == c && attempt >= 1
      invariant currentInterval == base(attempt - 1)
      invariant var rest := From(c, env, attempt, base);
                whole == Trace(rest.err, calls + rest.calls, waits + rest.waits)
      decreases cfg.maxAttempts - attempt
    {
      var end := Attempt(cfg, env, attempt);
      if end.Some? {
        return Trace(end.value.0, calls + end.value.1, waits);
      }
      calls := calls + 1;
      var sleepDuration := cfg.Delay(env, attempt, currentInterval);
      Prepend(waits, sleepDuration, From(c, env, attempt + 1, base).waits);
      waits := waits + [sleepDuration];
      if env.interrupted(attempt).Some? {
        return Trace(env.interrupted(attempt), calls, waits);
      }
      currentInterval := cfg.Backoff(currentInterval, scale);
      attempt := attempt + 1;
    }
    return Trace(None, calls, waits);
  }

  method Retry(settings: Settings, env: Env) returns (trace: Trace)
    ensures trace == Run(WithDefaults(settings), env)
  {
    var cfg := new RetryConfig(settings);
    cfg.ApplyDefaults();
    var factor := cfg.factor;
    trace := Loop(cfg, env, (interval: Int64) => Scaled(interval, factor, env.machine),
                  Schedule(cfg.Snapshot(), env.machine));
  }

  // ---- Attempts and result ----

  /**
   fn runs at most once per attempt, every call but the last failed, and the result is nil exactly when
   the last call returned nil: the loop never runs out into its final return.
   */
  lemma {:induction false} AttemptsAndResult(c: Settings, env: Env, attempt: nat, base: nat -> Int64)
    requires 1 <= attempt <= c.maxAttempts
    ensures var t := From(c, env, attempt, base);
            && t.calls <= c.maxAttempts - attempt + 1
            && |t.waits| <= t.calls && |t.waits| <= c.maxAttempts - attempt
            && (t.err.None? <==> t.calls >= 1 && env.call(attempt + t.calls - 1).None?)
            && (forall k :: attempt <= k < attempt + t.calls - 1 ==> env.call(k).Some? && env.interrupted(k).None?)
            && (forall k :: attempt <= k < attempt + t.calls ==> env.cancelled(k).None?)
    decreases c.maxAttempts - attempt
  {
    if attempt < c.maxAttempts {
      AttemptsAndResult(c, env, attempt + 1, base);
    }
  }

  /** The error is one that RetryIf, if set, accepts. */
  predicate Retriable(c: Settings, err: Option<string>) {
    err.Some? && (c.retryIf.Some? ==> c.retryIf.value(err.value))
  }

  /**
   Which result comes back.  Ended after a call without a wait: that call's own, which is nil, or an error of the
   last attempt or one that RetryIf rejects.  Ended in a wait or before the next call: the context's error.
   Every call before the last failed with an error that may be retried.
   */
  lemma {:induction false} ResultCameFrom(c: Settings, env: Env, attempt: nat, base: nat -> Int64)
    requires 1 <= attempt <= c.maxAttempts
    ensures var t := From(c, env, attempt, base);
            var last := attempt + t.calls - 1;
            && (|t.waits| == t.calls - 1 || |t.waits| == t.calls)
            && (|t.waits| == t.calls - 1 ==>
                  t.err == env.call(last)
                  && (t.err.Some? ==> last == c.maxAttempts || !Retriable(c, t.err)))
            && (|t.waits| == t.calls ==>
                  if t.calls >= 1 && env.interrupted(last).Some? then t.err == env.interrupted(last)
                  else t.err == env.cancelled(last + 1) && t.err.Some?)
            && (forall k :: attempt <= k < last ==> Retriable(c, env.call(k)))
            && (|t.waits| == t.calls >= 1 ==> Retriable(c, env.call(last)))
    decreases c.maxAttempts - attempt
  {
    if attempt < c.maxAttempts {
      ResultCameFrom(c, env, attempt + 1, base);
    }
  }

  // ---- The schedule ----

  lemma Products(interval: Int64, factor: real)
    requires interval >= 0 && factor >= 1.0
    ensures Product(interval, factor) == interval as real + Product(interval, factor - 1.0)
    ensures Product(interval, factor - 1.0) >= 0.0
  {
    NonNegative(interval as real, factor - 1.0);
  }

  lemma NonNegative(x: real, y: real)
    requires x >= 0.0 && y >= 0.0
    ensures x * y >= 0.0
  {
  }

  lemma ProductsOrdered(x: Int64, y: Int64, factor: real)
    requires x <= y && factor >= 0.0
    ensures Product(x, factor) <= Product(y, factor)
  {
    NonNegative((y - x) as real, factor);
  }

  lemma ConvertedPositive(x: real, machine: Machine)
    requires x >= 0.0
    ensures Converted(x, machine) == if x < LIMIT then x.Floor else machine(x)
  {
  }

  /** Negative values lose their fraction too, down to the smallest integer. */
  lemma ConvertedNegative(x: real, machine: Machine)
    requires x <= 0.0
    ensures Converted(x, machine) == if x > -LIMIT - 1.0 then -((-x).Floor) else machine(x)
  {
  }

  lemma FloorAbove(n: int, x: real)
    ensures n as real <= x <==> n <= x.Floor
  {
  }

  lemma NextFor(c: Settings, machine: Machine, interval: Int64)
    requires 1 <= interval <= c.maxInterval && interval as real <= Product(interval, c.factor)
    ensures var product := Product(interval, c.factor);
            NextInterval(c, machine, interval) == Capped(c, if product < LIMIT then product.Floor else machine(product))
    ensures var product := Product(interval, c.factor);
            interval <= NextInterval(c, machine, interval) <==> product < LIMIT || interval <= machine(product)
  {
    ConvertedPositive(Product(interval, c.factor), machine);
    FloorAbove(interval, Product(interval, c.factor));
  }

  /** One step of the schedule shrinks nothing exactly when the product fits 64 bits, or the machine is kind. */
  lemma NextGrowsExactlyWhen(c: Settings, machine: Machine, interval: Int64)
    requires Defaulted(c) && 1 <= interval <= c.maxInterval
    ensures interval <= NextInterval(c, machine, interval)
            <==> ProductFits(c, interval) || interval <= machine(Product(interval, c.factor))
  {
    Products(interval, c.factor);
    NextFor(c, machine, interval);
  }

  /** A product that is too large becomes no positive interval, as with amd64's conversion instruction. */
  ghost predicate Collapses(machine: Machine) {
    forall x: real :: x >= LIMIT ==> machine(x) < 1
  }

  /** A product that is too large becomes the largest interval, as with arm64's conversion instruction. */
  ghost predicate Saturates(machine: Machine) {
    forall x: real :: x >= LIMIT ==> machine(x) == MAX64
  }

  /** The factor adds less than a nanosecond to b. */
  predicate StandsStill(c: Settings, b: Int64) {
    Product(b, c.factor - 1.0) < 1.0
  }

  predicate ProductFits(c: Settings, b: Int64) {
    Product(b, c.factor) < LIMIT
  }

  /** Every product that the capped schedule can form fits 64 bits, or already the first step stands still. */
  predicate NeverOverflows(c: Settings) {
    ProductFits(c, c.maxInterval) || StandsStill(c, c.initialInterval)
  }

  /** What is added to b before truncation shows exactly when it is one or more. */
  lemma FloorBelow(b: Int64, product: real, added: real)
    requires product == b as real + added && added >= 0.0
    ensures if added < 1.0 then product.Floor == b else product.Floor >= b + 1
  {
  }

  /** One step of the schedule when its product cannot overflow. */
  lemma NextStays(c: Settings, machine: Machine, b: Int64)
    requires Defaulted(c) && 1 <= b <= c.maxInterval
    requires ProductFits(c, c.maxInterval) || StandsStill(c, b)
    ensures b <= NextInterval(c, machine, b) <= c.maxInterval
    ensures StandsStill(c, b) ==> NextInterval(c, machine, b) == b
  {
    Products(b, c.factor);
    ProductsOrdered(b, c.maxInterval, c.factor);
    NextFor(c, machine, b);
    FloorBelow(b, Product(b, c.factor), Product(b, c.factor - 1.0));
  }

  /** The schedule stands still, or stays in range and climbs. */
  lemma {:induction false} BaseClimbs(c: Settings, machine: Machine, i: nat)
    requires Defaulted(c) && c.initialInterval <= c.maxInterval && NeverOverflows(c)
    ensures c.initialInterval <= BaseAt(c, machine, i) <= BaseAt(c, machine, i + 1) <= c.maxInterval
    ensures StandsStill(c, c.initialInterval) ==> BaseAt(c, machine, i) == c.initialInterval
  {
    if i > 0 {
      BaseClimbs(c, machine, i - 1);
      if StandsStill(c, c.initialInterval) {
        NextStays(c, machine, BaseAt(c, machine, i - 1));
      }
    }
    NextStays(c, machine, BaseAt(c, machine, i));
  }

  /** One step of the schedule that does not shrink where overflows collapse. */
  lemma NextClimbs(c: Settings, machine: Machine, b: Int64)
    requires Defaulted(c) && 1 <= c.initialInterval <= b <= c.maxInterval && Collapses(machine)
    requires !StandsStill(c, c.initialInterval) && b <= NextInterval(c, machine, b)
    ensures NextInterval(c, machine, b) == c.maxInterval || NextInterval(c, machine, b) >= b + 1
    ensures ProductFits(c, b)
  {
    Products(b, c.factor);
    ProductsOrdered(c.initialInterval, b, c.factor - 1.0);
    NextFor(c, machine, b);
    FloorBelow(b, Product(b, c.factor), Product(b, c.factor - 1.0));
  }

  /** Wait number i + 1 has no smaller base interval than wait number i. */
  ghost predicate StepGrows(c: Settings, machine: Machine, i: nat) {
    BaseAt(c, machine, i) <= BaseAt(c, machine, i + 1)
  }

  ghost predicate Growing(c: Settings, machine: Machine) {
    forall i: nat :: StepGrows(c, machine, i)
  }

  lemma {:induction false} GrowingReachesCap(c: Settings, machine: Machine, i: nat)
    requires Defaulted(c) && c.initialInterval <= c.maxInterval && Collapses(machine) && Growing(c, machine)
    requires !StandsStill(c, c.initialInterval)
    ensures c.initialInterval <= BaseAt(c, machine, i) <= c.maxInterval
    ensures BaseAt(c, machine, i)
            >= if i <= c.maxInterval - c.initialInterval then c.initialInterval + i else c.maxInterval
  {
    if i > 0 {
      GrowingReachesCap(c, machine, i - 1);
      assert StepGrows(c, machine, i - 1);
      NextClimbs(c, machine, BaseAt(c, machine, i - 1));
    }
  }

  lemma {:induction false} SaturatingGrows(c: Settings, machine: Machine, i: nat)
    requires Defaulted(c) && c.initialInterval <= c.maxInterval && Saturates(machine)
    ensures 1 <= BaseAt(c, machine, i) <= BaseAt(c, machine, i + 1) <= c.maxInterval
  {
    if i > 0 {
      SaturatingGrows(c, machine, i - 1);
    }
    NextGrowsExactlyWhen(c, machine, BaseAt(c, machine, i));
  }

  /**
   From an initial interval within the cap, base intervals never shrink and never pass the cap: if no product
   overflows, on every machine; where overflows saturate, always; where they collapse, only if none overflows.
   */
  lemma BaseGrows(c: Settings, machine: Machine)
    requires Defaulted(c) && c.initialInterval <= c.maxInterval
    ensures NeverOverflows(c) || Saturates(machine) ==> Growing(c, machine)
    ensures NeverOverflows(c) || Saturates(machine) ==> forall i: nat :: 1 <= BaseAt(c, machine, i) <= c.maxInterval
    ensures Collapses(machine) ==> (Growing(c, machine) <==> NeverOverflows(c))
  {
    if NeverOverflows(c) {
      forall i: nat
        ensures StepGrows(c, machine, i) && 1 <= BaseAt(c, machine, i) <= c.maxInterval
      {
        BaseClimbs(c, machine, i);
      }
    } else if Saturates(machine) {
      forall i: nat
        ensures StepGrows(c, machine, i) && 1 <= BaseAt(c, machine, i) <= c.maxInterval
      {
        SaturatingGrows(c, machine, i);
      }
      assert machine(LIMIT) == MAX64;
    } else if Collapses(machine) && Growing(c, machine) {
      var last: nat := c.maxInterval - c.initialInterval;
      GrowingReachesCap(c, machine, last);
      assert StepGrows(c, machine, last);
      NextClimbs(c, machine, c.maxInterval);
      assert false;
    }
  }

  /** The product after wait number i fits 64 bits. */
  predicate StepFits(c: Settings, machine: Machine, i: nat) {
    ProductFits(c, BaseAt(c, machine, i))
  }

  lemma StepGrowsExactlyWhen(c: Settings, machine: Machine, i: nat)
    requires Defaulted(c) && Collapses(machine) && 1 <= BaseAt(c, machine, i) <= c.maxInterval
    ensures StepGrows(c, machine, i) <==> StepFits(c, machine, i)
    ensures StepGrows(c, machine, i) ==> 1 <= BaseAt(c, machine, i + 1) <= c.maxInterval
  {
    var b := BaseAt(c, machine, i);
    NextGrowsExactlyWhen(c, machine, b);
    Products(b, c.factor);
  }

  /**
   From one wait of a call to the next, over its first m steps, nothing shrinks where overflows collapse exactly
   when none of these steps overflows.  A call takes at most MaxAttempts - 2 of them.
   */
  lemma {:induction false} CallGrowsExactlyWhen(c: Settings, machine: Machine, m: nat)
    requires Defaulted(c) && c.initialInterval <= c.maxInterval && Collapses(machine)
    ensures (forall i: nat :: i < m ==> StepGrows(c, machine, i))
            <==> (forall i: nat :: i < m ==> StepFits(c, machine, i))
    ensures (forall i: nat :: i < m ==> StepGrows(c, machine, i)) ==> 1 <= BaseAt(c, machine, m) <= c.maxInterval
  {
    if m > 0 {
      CallGrowsExactlyWhen(c, machine, m - 1);
      if forall i: nat :: i < m - 1 ==> StepGrows(c, machine, i) {
        StepGrowsExactlyWhen(c, machine, m - 1);
      }
    }
  }

  /** A conversion that yields the smallest integer on overflow. */
  function Smallest(): Machine {
    (x: real) => MIN64
  }

  /** With defaults in place, a factor of 10^12 makes every wait after the first one end at once. */
  lemma {:induction false} LargeFactorCollapses(i: nat)
    ensures var c := WithDefaults(Settings(0, 0, 1_000_000_000_000.0, 0, false, None));
            BaseAt(c, Smallest(), i) == if i == 0 then 100 * MILLISECOND else MIN64
  {
    if i > 0 {
      LargeFactorCollapses(i - 1);
    }
  }

  // ---- The waits ----

  lemma {:induction false} WaitsFollowSchedule(c: Settings, env: Env, attempt: nat, base: nat -> Int64, i: nat)
    requires 1 <= attempt && i < |From(c, env, attempt, base).waits|
    ensures From(c, env, attempt, base).waits[i] == Jittered(c, env, attempt + i, base(attempt - 1 + i))
    decreases c.maxAttempts - attempt
  {
    if i > 0 {
      WaitsFollowSchedule(c, env, attempt + 1, base, i - 1);
    }
  }

  /** Each wait is its base interval plus less than a quarter of it, unless that sum wraps. */
  lemma WaitOfRun(c: Settings, env: Env, i: nat)
    requires DrawsInRange(env.draw) && i < |Run(c, env).waits|
    ensures var b, wait := BaseAt(c, env.machine, i), Run(c, env).waits[i];
            && (!c.jitter || b < 4 ==> wait == b)
            && (c.jitter && b >= 4 ==> wait < b + b / 4 && (b <= wait || b + b / 4 - 1 > MAX64))
  {
    WaitsFollowSchedule(c, env, 1, Schedule(c, env.machine), i);
    var b := BaseAt(c, env.machine, i);
    if c.jitter && b >= 4 {
      WrapOnce(b + env.draw(i + 1, b / 4));
    }
  }

  /** The time a wait takes: none when the duration is not positive. */
  function Slept(wait: Int64): nat {
    if wait > 0 then wait else 0
  }

  function Sum(waits: seq<Int64>): nat {
    if waits == [] then 0 else Slept(waits[0]) + Sum(waits[1..])
  }

  lemma {:induction false} SumBound(waits: seq<Int64>, most: nat)
    requires forall i :: 0 <= i < |waits| ==> waits[i] <= most
    ensures Sum(waits) <= |waits| * most
  {
    if waits != [] {
      SumBound(waits[1..], most);
      assert |waits| * most == most + |waits[1..]| * most;
    }
  }

  lemma TotalOf(sum: int, count: int, limit: int, most: int, cap: int)
    requires sum <= count * most && 0 <= count <= limit && 0 <= 4 * most <= 5 * cap
    ensures 4 * sum <= limit * (5 * cap)
  {
    assert (limit - count) * most >= 0;
    assert limit * (5 * cap - 4 * most) >= 0;
  }

  /** Whatever the draws and the overflows, a whole call waits at most (MaxAttempts - 1) * 5/4 * MaxInterval. */
  lemma TotalWaitBound(c: Settings, env: Env)
    requires Defaulted(c) && DrawsInRange(env.draw) && c.initialInterval <= c.maxInterval
    ensures 4 * Sum(Run(c, env).waits) <= (c.maxAttempts - 1) * (5 * c.maxInterval)
  {
    var waits := Run(c, env).waits;
    var most := c.maxInterval + c.maxInterval / 4;
    AttemptsAndResult(c, env, 1, Schedule(c, env.machine));
    forall i | 0 <= i < |waits| ensures waits[i] <= most {
      WaitOfRun(c, env, i);
    }
    SumBound(waits, most);
    TotalOf(Sum(waits), |waits|, c.maxAttempts - 1, most, c.maxInterval);
  }

  // ---- MaxInterval, documented as a cap on every delay ----

  ghost predicate WithinCap(c: Settings, env: Env) {
    forall i :: 0 <= i < |Run(c, env).waits| ==> Run(c, env).waits[i] <= c.maxInterval
  }

  /** Without jitter it is a cap exactly when the initial interval is within it: the first delay is never capped. */
  lemma FirstDelayIsNotCapped(c: Settings, env: Env)
    requires !c.jitter && Run(c, env).waits != []
    ensures WithinCap(c, env) <==> c.initialInterval <= c.maxInterval
  {
    var waits := Run(c, env).waits;
    forall i | 0 <= i < |waits| ensures waits[i] == BaseAt(c, env.machine, i) {
      WaitsFollowSchedule(c, env, 1, Schedule(c, env.machine), i);
    }
    assert waits[0] == c.initialInterval;
  }

  /** The base interval with its largest draw, unless 64 bits end before it. */
  function LargestWait(c: Settings, b: Int64): Int64 {
    if !c.jitter || b < 4 then b else if b + b / 4 - 1 <= MAX64 then b + b / 4 - 1 else MAX64
  }

  predicate DelayFits(c: Settings, machine: Machine, i: nat) {
    LargestWait(c, BaseAt(c, machine, i)) <= c.maxInterval
  }

  /** The draws change neither the number of waits nor the result. */
  lemma {:induction false} DrawsDoNotSteer(c: Settings, env: Env, draw: Draws, attempt: nat, base: nat -> Int64)
    requires attempt >= 1
    ensures var t, u := From(c, env, attempt, base), From(c, env.(draw := draw), attempt, base);
            t.err == u.err && t.calls == u.calls && |t.waits| == |u.waits|
    decreases c.maxAttempts - attempt
  {
    assert Ends(c, env, attempt) == Ends(c, env.(draw := draw), attempt);
    if attempt <= c.maxAttempts && Ends(c, env, attempt).None? && env.interrupted(attempt).None? {
      DrawsDoNotSteer(c, env, draw, attempt + 1, base);
    }
  }

  /** Draws that turn each interval into its largest wait. */
  function LargestDraws(c: Settings, machine: Machine): Draws {
    (k: nat, limit: int) => if k >= 1 then LargestDraw(BaseAt(c, machine, k - 1), limit) else limit - 1
  }

  function LargestDraw(b: Int64, limit: int): int {
    if b >= 4 && limit == b / 4 && b + limit - 1 > MAX64 then MAX64 - b else limit - 1
  }

  lemma LargestDrawReaches(c: Settings, b: Int64)
    ensures forall limit: int :: limit > 0 ==> 0 <= LargestDraw(b, limit) < limit
    ensures b >= 4 && c.jitter ==> Wrap(b + LargestDraw(b, b / 4)) == LargestWait(c, b)
  {
    if b >= 4 {
      WrapOnce(b + LargestDraw(b, b / 4));
    }
  }

  lemma LargestDrawsInRange(c: Settings, machine: Machine)
    ensures DrawsInRange(LargestDraws(c, machine))
  {
    forall k: nat, limit: int | limit > 0
      ensures 0 <= LargestDraws(c, machine)(k, limit) < limit
    {
      if k >= 1 {
        LargestDrawReaches(c, BaseAt(c, machine, k - 1));
      }
    }
  }

  lemma LargestJittered(c: Settings, e: Env, i: nat)
    requires e.draw == LargestDraws(c, e.machine)
    ensures Jittered(c, e, i + 1, BaseAt(c, e.machine, i)) == LargestWait(c, BaseAt(c, e.machine, i))
  {
    LargestDrawReaches(c, BaseAt(c, e.machine, i));
  }

  lemma LargestDrawsReach(c: Settings, env: Env, i: nat)
    requires i < |Run(c, env).waits|
    ensures var e := env.(draw := LargestDraws(c, env.machine));
            DrawsInRange(e.draw) && i < |Run(c, e).waits|
            && Run(c, e).waits[i] == LargestWait(c, BaseAt(c, env.machine, i))
  {
    var e := env.(draw := LargestDraws(c, env.machine));
    LargestDrawsInRange(c, env.machine);
    DrawsDoNotSteer(c, env, e.draw, 1, Schedule(c, env.machine));
    WaitsFollowSchedule(c, e, 1, Schedule(c, env.machine), i);
    LargestJittered(c, e, i);
  }

  /**
   With or without jitter, every possible draw keeps every delay of a call within MaxInterval if and only
   if each base interval stays within it together with its largest draw.
   */
  lemma CapHoldsExactlyWhen(c: Settings, env: Env)
    ensures (forall draw: Draws :: DrawsInRange(draw) ==> WithinCap(c, env.(draw := draw)))
            <==> (forall i :: 0 <= i < |Run(c, env).waits| ==>
                    DelayFits(c, env.machine, i))
  {
    var n := |Run(c, env).waits|;
    if forall i :: 0 <= i < n ==> DelayFits(c, env.machine, i) {
      forall draw: Draws | DrawsInRange(draw)
        ensures WithinCap(c, env.(draw := draw))
      {
        var e := env.(draw := draw);
        DrawsDoNotSteer(c, env, draw, 1, Schedule(c, env.machine));
        forall i | 0 <= i < n ensures Run(c, e).waits[i] <= c.maxInterval {
          WaitOfRun(c, e, i);
          assert DelayFits(c, env.machine, i);
        }
      }
    } else {
      var i :| 0 <= i < n && !DelayFits(c, env.machine, i);
      LargestDrawsReach(c, env, i);
      assert !WithinCap(c, env.(draw := LargestDraws(c, env.machine)));
    }
  }

  lemma {:induction false} BaseOrdered(c: Settings, machine: Machine, i: nat, j: nat)
    requires Defaulted(c) && c.initialInterval <= c.maxInterval && NeverOverflows(c) && i <= j
    ensures 1 <= BaseAt(c, machine, i) <= BaseAt(c, machine, j)
  {
    BaseClimbs(c, machine, i);
    if i < j {
      BaseOrdered(c, machine, i, j - 1);
      BaseClimbs(c, machine, j - 1);
    }
  }

  /** Without overflow, the first base interval and the largest of the last of n delays decide them all. */
  lemma LastDelayDecides(c: Settings, machine: Machine, n: nat)
    requires Defaulted(c) && NeverOverflows(c) && n > 0
    ensures (forall i :: 0 <= i < n ==> DelayFits(c, machine, i))
            <==> c.initialInterval <= c.maxInterval && DelayFits(c, machine, n - 1)
  {
    if c.initialInterval <= c.maxInterval {
      forall i | 0 <= i < n
        ensures DelayFits(c, machine, n - 1) ==> DelayFits(c, machine, i)
      {
        BaseOrdered(c, machine, i, n - 1);
      }
    } else {
      assert !DelayFits(c, machine, 0);
    }
  }

  /** So for a call with its waits known. */
  lemma CapHoldsByLastWait(c: Settings, env: Env)
    requires Defaulted(c) && NeverOverflows(c) && Run(c, env).waits != []
    ensures (forall draw: Draws :: DrawsInRange(draw) ==> WithinCap(c, env.(draw := draw)))
            <==> c.initialInterval <= c.maxInterval && DelayFits(c, env.machine, |Run(c, env).waits| - 1)
  {
    CapHoldsExactlyWhen(c, env);
    LastDelayDecides(c, env.machine, |Run(c, env).waits|);
  }

  // ---- The same before the call, whatever it will meet ----

  /** Some error is retried. */
  ghost predicate Retries(c: Settings) {
    c.retryIf.None? || exists message: string :: c.retryIf.value(message)
  }

  /** A call whose every attempt fails with this error. */
  function Failing(message: string, draw: Draws, machine: Machine): Env {
    Env((k: nat) => None, (k: nat) => Some(message), (k: nat) => None, draw, machine)
  }

  /** It waits before every attempt but the first. */
  lemma {:induction false} FailingWaits(
      c: Settings, message: string, draw: Draws, machine: Machine, attempt: nat, base: nat -> Int64)
    requires c.retryIf.Some? ==> c.retryIf.value(message)
    requires 1 <= attempt <= c.maxAttempts
    ensures |From(c, Failing(message, draw, machine), attempt, base).waits| == c.maxAttempts - attempt
    decreases c.maxAttempts - attempt
  {
    if attempt < c.maxAttempts {
      FailingWaits(c, message, draw, machine, attempt + 1, base);
    }
  }

  lemma WaitsBounded(c: Settings, env: Env)
    ensures var waits := Run(c, env).waits;
            (waits != [] ==> |waits| <= c.maxAttempts - 1) && (!Retries(c) ==> waits == [])
  {
    if c.maxAttempts >= 1 {
      AttemptsAndResult(c, env, 1, Schedule(c, env.machine));
    }
  }

  lemma CapKeptBy(c: Settings, env: Env)
    requires DrawsInRange(env.draw)
    requires forall i :: 0 <= i < |Run(c, env).waits| ==> DelayFits(c, env.machine, i)
    ensures WithinCap(c, env)
  {
    CapHoldsExactlyWhen(c, env);
    assert env.(draw := env.draw) == env;
  }

  /**
   A configuration keeps every delay of every call within MaxInterval, whatever the calls' outcomes, contexts and
   draws, if and only if each of its MaxAttempts - 1 base intervals fits with its largest draw, or nothing is retried.
   */
  lemma CapIsSafeExactlyWhen(c: Settings, machine: Machine)
    ensures (forall env: Env :: env.machine == machine && DrawsInRange(env.draw) ==> WithinCap(c, env))
            <==> !Retries(c) || (forall i :: 0 <= i < c.maxAttempts - 1 ==> DelayFits(c, machine, i))
  {
    if !Retries(c) || (forall i :: 0 <= i < c.maxAttempts - 1 ==> DelayFits(c, machine, i)) {
      forall env: Env | env.machine == machine && DrawsInRange(env.draw)
        ensures WithinCap(c, env)
      {
        WaitsBounded(c, env);
        CapKeptBy(c, env);
      }
    } else {
      var i :| 0 <= i < c.maxAttempts - 1 && !DelayFits(c, machine, i);
      var message: string :| c.retryIf.Some? ==> c.retryIf.value(message);
      CapBrokenAt(c, message, machine, i);
    }
  }

  /** The call that breaks it: all attempts fail, and every draw is the largest. */
  lemma CapBrokenAt(c: Settings, message: string, machine: Machine, i: nat)
    requires c.retryIf.Some? ==> c.retryIf.value(message)
    requires i < c.maxAttempts - 1 && !DelayFits(c, machine, i)
    ensures var env := Failing(message, LargestDraws(c, machine), machine);
            DrawsInRange(env.draw) && !WithinCap(c, env)
  {
    var env := Failing(message, LargestDraws(c, machine), machine);
    FailingWaits(c, message, env.draw, machine, 1, Schedule(c, machine));
    LargestDrawsReach(c, env, i);
    assert env.(draw := LargestDraws(c, env.machine)) == env;
  }

  /** When no product overflows, the first interval and the largest last delay decide it. */
  lemma CapIsSafeByLastDelay(c: Settings, machine: Machine)
    requires Defaulted(c) && NeverOverflows(c) && Retries(c) && c.maxAttempts >= 2
    ensures (forall env: Env :: env.machine == machine && DrawsInRange(env.draw) ==> WithinCap(c, env))
            <==> c.initialInterval <= c.maxInterval && DelayFits(c, machine, c.maxAttempts - 2)
  {
    CapIsSafeExactlyWhen(c, machine);
    LastDelayDecides(c, machine, c.maxAttempts - 1);
  }

  /** A call whose capped second delay of five seconds is stretched to nearly six and a quarter. */
  lemma JitterPassesTheCap(env: Env)
    requires forall k: nat :: env.cancelled(k).None? && env.call(k).Some? && env.interrupted(k).None?
    requires forall k: nat, limit: int :: env.draw(k, limit) == limit - 1
    ensures DrawsInRange(env.draw)
    ensures var c := WithDefaults(Settings(3, 3 * SECOND, 2.0, 5 * SECOND, true, None));
            Run(c, env).waits == [3_749_999_999, 6_249_999_999] && 6_249_999_999 > c.maxInterval
  {
    var c := WithDefaults(Settings(3, 3 * SECOND, 2.0, 5 * SECOND, true, None));
    var base := Schedule(c, env.machine);
    assert base(0) == 3 * SECOND && base(1) == NextInterval(c, env.machine, base(0)) == 5 * SECOND;
    assert From(c, env, 3, base).waits == [];
    assert From(c, env, 2, base).waits == [6_249_999_999];
  }
}
