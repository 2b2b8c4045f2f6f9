/**
 `setMotorDelayAndSkip` and `getMovementsNumberOfCycles`: how a target number of CPU cycles becomes a delay and a skip
 interval.
 */
module Planner {
  import opened Arithmetic
  import opened StepTiming

  const MICROSTEPS_PER_STEP := 8.0

  function PlannedDelay(steps: uint32, cycles: real): uint32
    requires steps >= 1
  {
    var base := ToUint32(ValueInRange(cycles / STEP_TIMER_PERIOD / steps as real, 1.0, UINT32_MAX as real));
    if Ceil(steps as real * base as real * 2.0 - 1.0) as real * STEP_TIMER_PERIOD < cycles then Increment(base)
    else base
  }

  function PlannedSkips(steps: uint32, delay: uint32, cycles: real): uint32 {
    var denominator := cycles / STEP_TIMER_PERIOD - (steps as real * delay as real - 1.0);
    if denominator != 0.0
    then ToUint32(ValueInRange(steps as real * delay as real / denominator, 0.0, UINT32_MAX as real))
    else 0
  }

  /** The state `setMotorDelayAndSkip` leaves the motor in. */
  function Plan(m: Motor, cycles: real): Motor
    requires m.steps >= 1
  {
    var delay := PlannedDelay(m.steps, cycles);
    m.(delay := delay, skips := PlannedSkips(m.steps, delay, cycles), delayCounter := 0, skipsCounter := 0)
  }

  /** Ticks a movement of `steps` steps takes when it is planned for `cycles`. */
  function PlannedTicks(steps: uint32, cycles: real): nat
    requires steps >= 1
  {
    Duration(Plan(Motor(0, 0, 0, 0, steps, true), cycles))
  }

  lemma PlanIgnoresTheRest(m: Motor, cycles: real)
    requires m.steps >= 1
    ensures Duration(Plan(m, cycles)) == PlannedTicks(m.steps, cycles)
  {
  }

  /** The executed time is at least the target and less than twice the target. */
  predicate InWindow(ticks: nat, cycles: real) {
    cycles <= ticks as real * STEP_TIMER_PERIOD < 2.0 * cycles
  }

  function NumberOfCycles(steps: uint32, stepsPerMm: real, feedRate: real, cpuHz: real): real
    requires stepsPerMm > 0.0 && feedRate > 0.0
  {
    Max(steps as real / stepsPerMm / MICROSTEPS_PER_STEP / feedRate * 60.0 * cpuHz, steps as real * STEP_TIMER_PERIOD)
  }

  /** The delay before it is incremented: the target divided by the step count, rounded down. */
  lemma BaseDelay(steps: uint32, ticks: real, base: uint32)
    requires steps >= 1 && ticks >= steps as real
    requires base == ToUint32(ValueInRange(ticks / steps as real, 1.0, UINT32_MAX as real))
    ensures base >= 1
    ensures steps as real * base as real <= ticks
    ensures base < UINT32_MAX ==> ticks < steps as real * (base as real + 1.0)
  {
    Quotient(ticks, steps as real, 1.0);
    Quotient(ticks, steps as real, base as real);
    Quotient(ticks, steps as real, base as real + 1.0);
  }

  /** The number of ticks reachable with delay `base` and the smallest skip interval. */
  function Reach(steps: uint32, base: uint32): real {
    2.0 * (steps as real * base as real) - 1.0
  }

  lemma ReachGrows(steps: uint32, base: uint32)
    requires steps >= 1 && base >= 1
    ensures steps as real <= Reach(steps, base) <= Reach(steps, UINT32_MAX)
    ensures base < UINT32_MAX ==> Reach(steps, base) + 1.0 <= Reach(steps, UINT32_MAX)
  {
    ReachGrowsReal(steps as real, base as real, UINT32_MAX as real);
  }

  lemma ReachGrowsReal(n: real, b: real, m: real)
    requires n >= 1.0 && 1.0 <= b <= m
    ensures n <= 2.0 * (n * b) - 1.0 <= 2.0 * (n * m) - 1.0
    ensures b + 1.0 <= m ==> 2.0 * (n * b) <= 2.0 * (n * m) - 1.0
  {
    RealMul(1.0, b, n);
    RealMul(b, m, n);
    if b + 1.0 <= m {
      RealMul(b + 1.0, m, n);
    }
  }

  /** The increment fires only from a delay of one, or when the 32-bit delay is exhausted. */
  lemma IncrementOnlyFromOne(steps: uint32, ticks: real, base: uint32)
    requires steps >= 1 && base >= 1
    requires ticks < steps as real * (base as real + 1.0)
    requires Reach(steps, base) < ticks
    ensures base == 1
  {
    assert steps as real * (base as real - 1.0) < 1.0;
    if base >= 2 {
      RealMul(1.0, base as real - 1.0, steps as real);
    }
  }

  lemma AtMostNext(product: nat, skips: nat, q: nat)
    requires product >= 1 && skips >= 1 && q == (product - 1) / skips
    ensures product as real <= (q as real + 1.0) * skips as real
  {
    var w := (q + 1) * skips;
    assert product - 1 == q * skips + (product - 1) % skips;
    assert w as real == (q as real + 1.0) * skips as real;
  }

  /** With a positive skip interval no larger than product / slack, the skipped ticks cover the slack. */
  lemma SkipsCoverSlack(product: nat, skips: nat, slack: real)
    requires product >= 1 && skips >= 1 && slack > 0.0
    requires skips as real * slack <= product as real
    ensures ((product - 1) / skips) as real >= slack - 1.0
    ensures (product - 1) / skips <= product - 1
  {
    var q := (product - 1) / skips;
    AtMostNext(product, skips, q);
    if q as real + 1.0 < slack {
      RealMulStrict(q as real + 1.0, slack, skips as real);
    }
    MulMonotone(1, skips, q);
  }

  /** Product of steps and delay as one natural number. */
  lemma ProductOf(steps: uint32, delay: uint32) returns (product: nat)
    ensures product == steps * delay && product as real == steps as real * delay as real
    ensures steps >= 1 && delay >= 1 ==> product >= 1
  {
    product := steps * delay;
  }

  /** Skip interval chosen when the delay leaves a slack of at least one tick. */
  lemma SkipsWithSlack(steps: uint32, delay: uint32, cycles: real, product: nat)
    requires product == steps * delay && product as real == steps as real * delay as real && product >= 1
    requires product as real <= cycles / STEP_TIMER_PERIOD <= 2.0 * product as real - 1.0
    ensures var skips := PlannedSkips(steps, delay, cycles);
            skips >= 1 && skips as real * (cycles / STEP_TIMER_PERIOD - (product as real - 1.0)) <= product as real
  {
    var slack := cycles / STEP_TIMER_PERIOD - (product as real - 1.0);
    var skips := PlannedSkips(steps, delay, cycles);
    Quotient(product as real, slack, 1.0);
    Quotient(product as real, slack, skips as real);
  }

  /** Skip interval chosen when the delay overshoots the target: at most the clamp remains. */
  lemma SkipsWithoutSlack(steps: uint32, delay: uint32, cycles: real, product: nat)
    requires product == steps * delay && product as real == steps as real * delay as real && product >= 1
    requires cycles / STEP_TIMER_PERIOD < product as real
    ensures var skips := PlannedSkips(steps, delay, cycles);
            skips == 0 || skips == UINT32_MAX || (skips < UINT32_MAX && skips >= product)
  {
    var slack := cycles / STEP_TIMER_PERIOD - (product as real - 1.0);
    if slack > 0.0 {
      RealMulStrict(slack, 1.0, product as real);
      Quotient(product as real, slack, product as real);
    } else if slack < 0.0 {
      NegativeQuotient(product as real, slack);
    }
  }

  lemma NegativeQuotient(a: real, b: real)
    requires a > 0.0 && b < 0.0
    ensures a / b < 0.0
  {
    var q := a / b;
    assert q * b == a;
  }

  /** A delay whose product with the step count is within the target: the executed time is in [target, 2 * target). */
  lemma BoundWithoutIncrement(m: Motor, cycles: real)
    requires m.steps >= 1 && m.delay >= 1 && m.skips == PlannedSkips(m.steps, m.delay, cycles)
    requires m.steps as real * m.delay as real <= cycles / STEP_TIMER_PERIOD <= Reach(m.steps, m.delay)
    ensures cycles / STEP_TIMER_PERIOD <= Duration(m) as real < 2.0 * (cycles / STEP_TIMER_PERIOD)
  {
    var product := ProductOf(m.steps, m.delay);
    SkipsWithSlack(m.steps, m.delay, cycles, product);
    var slack := cycles / STEP_TIMER_PERIOD - (product as real - 1.0);
    SkipsCoverSlack(product, m.skips, slack);
    assert Duration(m) == product + (product - 1) / m.skips;
  }

  /** The incremented delay of two. */
  lemma BoundWithIncrement(m: Motor, cycles: real)
    requires m.steps >= 1 && m.delay == 2 && m.skips == PlannedSkips(m.steps, m.delay, cycles)
    requires Reach(m.steps, 1) < cycles / STEP_TIMER_PERIOD < m.steps as real * 2.0
    ensures cycles / STEP_TIMER_PERIOD <= Duration(m) as real < 2.0 * (cycles / STEP_TIMER_PERIOD)
  {
    var product := ProductOf(m.steps, m.delay);
    SkipsWithoutSlack(m.steps, m.delay, cycles, product);
    if m.skips != 0 {
      assert Duration(m) == product + (product - 1) / m.skips;
      if m.skips == UINT32_MAX {
        assert product <= 2 * UINT32_MAX;
        QuotientAtMostOne(product - 1, m.skips);
      } else {
        DivModUnique(product - 1, m.skips, 0, product - 1);
      }
    }
  }

  lemma QuotientAtMostOne(a: nat, d: nat)
    requires d >= 1 && a < 2 * d
    ensures a / d <= 1
    ensures a < d ==> a / d == 0
  {
    if a < d {
      DivModUnique(a, d, 0, a);
    } else {
      DivModUnique(a, d, 1, a - d);
    }
  }

  lemma CeilOfInteger(n: int)
    ensures Ceil(n as real) == n
  {
  }

  /** Whether `PlannedDelay` increments is decided by the number of ticks reachable with the smallest skip interval. */
  lemma DelayChoice(steps: uint32, cycles: real) returns (base: uint32)
    requires steps >= 1 && cycles / STEP_TIMER_PERIOD >= steps as real
    ensures base == ToUint32(ValueInRange(cycles / STEP_TIMER_PERIOD / steps as real, 1.0, UINT32_MAX as real))
    ensures PlannedDelay(steps, cycles)
            == if Reach(steps, base) < cycles / STEP_TIMER_PERIOD then Increment(base) else base
  {
    base := ToUint32(ValueInRange(cycles / STEP_TIMER_PERIOD / steps as real, 1.0, UINT32_MAX as real));
    var product := ProductOf(steps, base);
    CeilOfInteger(2 * product - 1);
    assert (2 * product - 1) as real == steps as real * base as real * 2.0 - 1.0;
  }

  lemma PlannerTicks(m: Motor, cycles: real)
    requires m.steps >= 1 && cycles / STEP_TIMER_PERIOD >= m.steps as real
    ensures var ticks := cycles / STEP_TIMER_PERIOD;
            ticks <= Duration(Plan(m, cycles)) as real < 2.0 * ticks <==> ticks <= Reach(m.steps, UINT32_MAX)
  {
    var base := DelayChoice(m.steps, cycles);
    PlannerTicksFrom(Plan(m, cycles), cycles, base);
  }

  lemma PlannerTicksFrom(planned: Motor, cycles: real, base: uint32)
    requires planned.steps >= 1 && cycles / STEP_TIMER_PERIOD >= planned.steps as real
    requires base == ToUint32(ValueInRange(cycles / STEP_TIMER_PERIOD / planned.steps as real, 1.0, UINT32_MAX as real))
    requires planned.delay == if Reach(planned.steps, base) < cycles / STEP_TIMER_PERIOD then Increment(base) else base
    requires planned.skips == PlannedSkips(planned.steps, planned.delay, cycles)
    ensures var ticks := cycles / STEP_TIMER_PERIOD;
            ticks <= Duration(planned) as real < 2.0 * ticks <==> ticks <= Reach(planned.steps, UINT32_MAX)
  {
    BaseDelay(planned.steps, cycles / STEP_TIMER_PERIOD, base);
    if Reach(planned.steps, base) >= cycles / STEP_TIMER_PERIOD {
      ReachableTarget(planned, cycles);
    } else if base < UINT32_MAX {
      JustMissedTarget(planned, cycles, base);
    } else {
      WrappedDelay(planned, cycles);
    }
  }

  lemma ReachableTarget(m: Motor, cycles: real)
    requires m.steps >= 1 && m.delay >= 1 && m.skips == PlannedSkips(m.steps, m.delay, cycles)
    requires m.steps as real * m.delay as real <= cycles / STEP_TIMER_PERIOD <= Reach(m.steps, m.delay)
    ensures cycles / STEP_TIMER_PERIOD <= Duration(m) as real < 2.0 * (cycles / STEP_TIMER_PERIOD)
    ensures cycles / STEP_TIMER_PERIOD <= Reach(m.steps, UINT32_MAX)
  {
    BoundWithoutIncrement(m, cycles);
    ReachGrows(m.steps, m.delay);
  }

  lemma JustMissedTarget(m: Motor, cycles: real, base: uint32)
    requires m.steps >= 1 && 1 <= base < UINT32_MAX && m.delay == base + 1
             && m.skips == PlannedSkips(m.steps, m.delay, cycles)
    requires Reach(m.steps, base) < cycles / STEP_TIMER_PERIOD < m.steps as real * (base as real + 1.0)
    ensures cycles / STEP_TIMER_PERIOD <= Duration(m) as real < 2.0 * (cycles / STEP_TIMER_PERIOD)
    ensures cycles / STEP_TIMER_PERIOD <= Reach(m.steps, UINT32_MAX)
  {
    IncrementOnlyFromOne(m.steps, cycles / STEP_TIMER_PERIOD, base);
    BoundWithIncrement(m, cycles);
    ReachGrows(m.steps, base);
  }

  /**
   The planner bound, exactly: for a movement that needs at least one tick per step, the executed time lies in
   [cycles, 2 * cycles) if and only if the target is reachable with the largest 32-bit delay and the smallest skip
   interval. Beyond that the 32-bit delay wraps to zero and the motor runs at full speed.
   */
  lemma PlannerBound(m: Motor, cycles: real)
    requires m.steps >= 1 && cycles >= m.steps as real * STEP_TIMER_PERIOD
    ensures InWindow(Duration(Plan(m, cycles)), cycles)
            <==> cycles / STEP_TIMER_PERIOD <= Reach(m.steps, UINT32_MAX)
  {
    PlannerTicks(m, cycles);
  }

  /** A delay that wrapped to zero makes the motor step on every tick, sooner than the target. */
  lemma WrappedDelay(m: Motor, cycles: real)
    requires m.steps >= 1 && m.delay == 0 && m.skips == PlannedSkips(m.steps, m.delay, cycles)
    requires cycles / STEP_TIMER_PERIOD > Reach(m.steps, UINT32_MAX)
    ensures Duration(m) as real < cycles / STEP_TIMER_PERIOD
  {
    var ticks := cycles / STEP_TIMER_PERIOD;
    assert m.steps as real * m.delay as real == 0.0;
    assert 0.0 / (ticks + 1.0) == 0.0;
    assert m.skips == 0;
  }

  /** Beyond the reach the planned delay has wrapped to zero, and the movement ends before the target. */
  lemma BeyondReach(m: Motor, cycles: real)
    requires m.steps >= 1 && cycles / STEP_TIMER_PERIOD > Reach(m.steps, UINT32_MAX)
    ensures Plan(m, cycles).delay == 0 && Duration(Plan(m, cycles)) as real * STEP_TIMER_PERIOD < cycles
  {
    ReachGrows(m.steps, UINT32_MAX);
    var base := DelayChoice(m.steps, cycles);
    LargestDelay(m.steps, cycles / STEP_TIMER_PERIOD, base);
    WrappedDelay(Plan(m, cycles), cycles);
  }

  lemma LargestDelay(steps: uint32, ticks: real, base: uint32)
    requires steps >= 1 && ticks >= steps as real && ticks > Reach(steps, UINT32_MAX)
    requires base == ToUint32(ValueInRange(ticks / steps as real, 1.0, UINT32_MAX as real))
    ensures base == UINT32_MAX
  {
    BaseDelay(steps, ticks, base);
    if base < UINT32_MAX {
      SuccessorWithin(steps as real, base as real, UINT32_MAX as real);
    }
  }

  lemma SuccessorWithin(n: real, b: real, m: real)
    requires n >= 1.0 && 1.0 <= b && b + 1.0 <= m
    ensures n * (b + 1.0) <= 2.0 * (n * m) - 1.0
  {
    RealMul(b + 1.0, m, n);
    RealMul(1.0, m, n);
  }

  /**
   A movement the firmware accepts and does not stretch: with the default 128.451375 steps per millimetre and a 24 MHz
   clock, one microstep of another motor beside 10^9 microsteps of the extruder at its slowest, 60 mm per minute.
   */
  lemma OneStepBesideLongExtrusion(m: Motor)
    requires m.steps == 1
    ensures var cycles := NumberOfCycles(1_000_000_000, 128.451375, 60.0, 24_000_000.0);
            Duration(Plan(m, cycles)) as real * STEP_TIMER_PERIOD < cycles
  {
    var cycles := NumberOfCycles(1_000_000_000, 128.451375, 60.0, 24_000_000.0);
    assert cycles >= 8_796_093_022_208.0;
    assert Reach(1, UINT32_MAX) < 8_589_934_592.0;
    BeyondReach(m, cycles);
  }

  /** Over `ticks`, `steps` microsteps are on average no faster than `feedRate`. */
  predicate NotFaster(steps: uint32, stepsPerMm: real, feedRate: real, cpuHz: real, ticks: nat)
    requires stepsPerMm > 0.0 && cpuHz > 0.0
  {
    var millimeters := steps as real / stepsPerMm / MICROSTEPS_PER_STEP;
    var minutes := ticks as real * STEP_TIMER_PERIOD / cpuHz / 60.0;
    millimeters <= feedRate * minutes
  }

  /** The largest target over the moving motors bounds every motor's average speed by its own clamped feed rate. */
  lemma NeverFasterThanFeedRate(m: Motor, cycles: real, stepsPerMm: real, feedRate: real, cpuHz: real)
    requires m.steps >= 1 && stepsPerMm > 0.0 && feedRate > 0.0 && cpuHz > 0.0
    requires cycles >= NumberOfCycles(m.steps, stepsPerMm, feedRate, cpuHz)
    requires cycles / STEP_TIMER_PERIOD <= Reach(m.steps, UINT32_MAX)
    ensures NotFaster(m.steps, stepsPerMm, feedRate, cpuHz, Duration(Plan(m, cycles)))
  {
    ExecutedAtLeast(m, cycles);
    NotFasterThan(m.steps, cycles, stepsPerMm, feedRate, cpuHz, Duration(Plan(m, cycles)));
  }

  lemma NotFasterThan(steps: uint32, cycles: real, stepsPerMm: real, feedRate: real, cpuHz: real, ticks: nat)
    requires stepsPerMm > 0.0 && feedRate > 0.0 && cpuHz > 0.0
    requires NumberOfCycles(steps, stepsPerMm, feedRate, cpuHz) <= cycles <= ticks as real * STEP_TIMER_PERIOD
    ensures NotFaster(steps, stepsPerMm, feedRate, cpuHz, ticks)
  {
    SpeedBound(steps, cycles, stepsPerMm, feedRate, cpuHz, ticks as real * STEP_TIMER_PERIOD);
  }

  lemma SpeedBound(steps: uint32, cycles: real, stepsPerMm: real, feedRate: real, cpuHz: real, executed: real)
    requires stepsPerMm > 0.0 && feedRate > 0.0 && cpuHz > 0.0
    requires NumberOfCycles(steps, stepsPerMm, feedRate, cpuHz) <= cycles <= executed
    ensures steps as real / stepsPerMm / MICROSTEPS_PER_STEP <= feedRate * (executed / cpuHz / 60.0)
  {
    FeedRateStep(steps as real / stepsPerMm / MICROSTEPS_PER_STEP, feedRate, cpuHz, executed);
  }

  lemma ExecutedAtLeast(m: Motor, cycles: real)
    requires m.steps >= 1 && cycles >= m.steps as real * STEP_TIMER_PERIOD
    requires cycles / STEP_TIMER_PERIOD <= Reach(m.steps, UINT32_MAX)
    ensures Duration(Plan(m, cycles)) as real * STEP_TIMER_PERIOD >= cycles
  {
    PlannerBound(m, cycles);
  }

  lemma FeedRateStep(millimeters: real, feedRate: real, cpuHz: real, executed: real)
    requires feedRate > 0.0 && cpuHz > 0.0
    requires millimeters / feedRate * 60.0 * cpuHz <= executed
    ensures millimeters <= feedRate * (executed / cpuHz / 60.0)
  {
    var quotient, minutes := millimeters / feedRate, executed / cpuHz / 60.0;
    Quotient(executed, cpuHz, quotient * 60.0);
    assert quotient <= minutes;
    Quotient(millimeters, feedRate, quotient);
    RealMul(quotient, minutes, feedRate);
  }
}
