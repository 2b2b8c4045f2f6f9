/**
 The step-timer interrupt of motors.cpp: four motors, each with a step delay and a skip interval.
 `Motor` is one motor's share of the global arrays; `StepTimer` holds the arrays themselves.
 */
module StepTiming {
  import opened Arithmetic

  const NUMBER_OF_MOTORS := 4
  const STEP_TIMER_PERIOD := 1024.0

  datatype Motor = Motor(skips: uint32, skipsCounter: uint32, delay: uint32, delayCounter: uint32, steps: uint32,
                         moving: bool)

  /** One step action; the second result says whether the step pin is raised. */
  function StepAction(m: Motor): (Motor, bool) {
    if m.skips != 0 && m.skipsCounter >= m.skips then
      (m.(skipsCounter := 0), false)
    else
      var counted := if m.skips != 0 then m.(skipsCounter := Increment(m.skipsCounter)) else m;
      var c := Increment(m.delayCounter);
      if c >= m.delay then
        var left := Decrement(m.steps);
        (counted.(steps := left, moving := m.moving && left != 0, delayCounter := 0), true)
      else
        (counted.(delayCounter := c), false)
  }

  /** What one timer interrupt does to one motor. */
  function Tick(m: Motor): (Motor, bool) {
    if m.moving then StepAction(m) else (m, false)
  }

  function Ticks(m: Motor, k: nat): Motor {
    if k == 0 then m else Tick(Ticks(m, k - 1)).0
  }

  function Pulses(m: Motor, k: nat): nat {
    if k == 0 then 0 else Pulses(m, k - 1) + if Tick(Ticks(m, k - 1)).1 then 1 else 0
  }

  predicate Armed(m: Motor) {
    m.moving && m.steps >= 1 && m.skipsCounter == 0 && m.delayCounter == 0
  }

  /** A delay of zero behaves like a delay of one, because the counter is incremented before it is compared. */
  function EffectiveDelay(delay: uint32): (d: nat)
    ensures d >= 1
  {
    if delay == 0 then 1 else delay
  }

  /** Ticks that advance the delay counter among the first `k`: every (skips + 1)-th tick is skipped. */
  function Actions(k: nat, skips: nat): nat {
    if skips == 0 then k else k - k / (skips + 1)
  }

  /** Number of ticks the movement of `m` takes. */
  function Duration(m: Motor): nat {
    var total := m.steps * EffectiveDelay(m.delay);
    if m.skips == 0 || total == 0 then total else total + (total - 1) / m.skips
  }

  lemma ActionsNext(k: nat, skips: nat)
    ensures if skips != 0 && k % (skips + 1) == skips
            then Actions(k + 1, skips) == Actions(k, skips)
            else Actions(k + 1, skips) == Actions(k, skips) + 1
  {
    if skips != 0 {
      DivModNext(k, skips + 1);
    }
  }

  lemma {:induction false} ActionsMonotone(j: nat, k: nat, skips: nat)
    requires j <= k
    ensures Actions(j, skips) <= Actions(k, skips)
    decreases k - j
  {
    if j < k {
      ActionsNext(j, skips);
      ActionsMonotone(j + 1, k, skips);
    }
  }

  /** The last of the `total` actions happens on the last tick of the movement and not before. */
  lemma ActionsAtDuration(total: nat, skips: nat)
    requires total >= 1
    ensures var k := if skips == 0 then total else total + (total - 1) / skips;
            Actions(k, skips) == total && Actions(k - 1, skips) == total - 1
  {
    if skips != 0 {
      var q, r := (total - 1) / skips, (total - 1) % skips;
      assert total - 1 == q * skips + r;
      var k := total + q;
      assert k == q * (skips + 1) + (r + 1);
      DivModUnique(k, skips + 1, q, r + 1);
      assert k - 1 == q * (skips + 1) + r;
      DivModUnique(k - 1, skips + 1, q, r);
    }
  }

  lemma ActionsBefore(m: Motor, k: nat)
    requires m.steps >= 1
    ensures k < Duration(m) ==> Actions(k, m.skips) < m.steps * EffectiveDelay(m.delay)
    ensures k == Duration(m) ==> Actions(k, m.skips) == m.steps * EffectiveDelay(m.delay)
  {
    var total := m.steps * EffectiveDelay(m.delay);
    ActionsAtDuration(total, m.skips);
    if k < Duration(m) {
      ActionsMonotone(k, Duration(m) - 1, m.skips);
    }
  }

  lemma QuotientBound(a: nat, d: nat, n: nat)
    requires d >= 1 && a <= n * d
    ensures a < n * d ==> a / d < n
    ensures a == n * d ==> a / d == n && a % d == 0
  {
    if a == n * d {
      DivModUnique(a, d, n, 0);
    } else if a / d >= n {
      MulMonotone(n, a / d, d);
    }
  }

  /** The state `cur` of motor `m` when `k` ticks of its movement have passed, in closed form. */
  ghost predicate AtTick(m: Motor, k: nat, cur: Motor)
    requires m.steps >= 1
  {
    var a, d := Actions(k, m.skips), EffectiveDelay(m.delay);
    && cur.skips == m.skips
    && cur.delay == m.delay
    && cur.skipsCounter == (if m.skips == 0 then 0 else k % (m.skips + 1))
    && cur.delayCounter == a % d
    && cur.steps + a / d == m.steps
    && (cur.moving <==> k < Duration(m))
  }

  /** One tick takes the closed form at `k` to the closed form at `k + 1`. */
  lemma AtTickStep(m: Motor, k: nat, cur: Motor)
    requires Armed(m) && k < Duration(m) && AtTick(m, k, cur)
    ensures AtTick(m, k + 1, Tick(cur).0)
    ensures Actions(k + 1, m.skips) / EffectiveDelay(m.delay)
            == Actions(k, m.skips) / EffectiveDelay(m.delay) + if Tick(cur).1 then 1 else 0
  {
    var d := EffectiveDelay(m.delay);
    var a, a' := Actions(k, m.skips), Actions(k + 1, m.skips);
    ActionsBefore(m, k);
    ActionsBefore(m, k + 1);
    ActionsNext(k, m.skips);
    QuotientBound(a, d, m.steps);
    QuotientBound(a', d, m.steps);
    if m.skips != 0 {
      DivModNext(k, m.skips + 1);
    }
    DivModNext(a, d);
  }

  lemma DurationPositive(m: Motor)
    requires m.steps >= 1
    ensures Duration(m) >= 1
  {
    MulMonotone(1, m.steps, EffectiveDelay(m.delay));
  }

  lemma AtTickStart(m: Motor)
    requires Armed(m)
    ensures AtTick(m, 0, m)
    ensures Actions(0, m.skips) / EffectiveDelay(m.delay) == 0
  {
    DivModUnique(0, EffectiveDelay(m.delay), 0, 0);
    DivModUnique(0, m.skips + 1, 0, 0);
    DurationPositive(m);
  }

  lemma TicksNext(m: Motor, k: nat, pulses: nat)
    requires Armed(m) && k < Duration(m) && AtTick(m, k, Ticks(m, k))
    requires pulses == Pulses(m, k) == Actions(k, m.skips) / EffectiveDelay(m.delay)
    ensures AtTick(m, k + 1, Ticks(m, k + 1)) && Pulses(m, k + 1) == Actions(k + 1, m.skips) / EffectiveDelay(m.delay)
  {
    AtTickStep(m, k, Ticks(m, k));
  }

  lemma {:induction false} TicksClosedForm(m: Motor, k: nat)
    requires Armed(m) && k <= Duration(m)
    ensures AtTick(m, k, Ticks(m, k))
    ensures Pulses(m, k) == Actions(k, m.skips) / EffectiveDelay(m.delay)
  {
    if k == 0 {
      AtTickStart(m);
    } else {
      TicksClosedForm(m, k - 1);
      TicksNext(m, k - 1, Pulses(m, k - 1));
    }
  }

  /**
   The exact duration of a movement, for every step count, delay and skip interval: the motor is moving on every tick
   before `Duration`, has emitted exactly `steps` pulses at `Duration`, and nothing changes afterwards.
   */
  lemma {:induction false} ExactDuration(m: Motor, k: nat)
    requires Armed(m)
    ensures Ticks(m, k).moving <==> k < Duration(m)
    ensures k < Duration(m) ==> Pulses(m, k) < m.steps
    ensures k >= Duration(m) ==> Pulses(m, k) == m.steps && Ticks(m, k).steps == 0
  {
    if k <= Duration(m) {
      TicksClosedForm(m, k);
      ActionsBefore(m, k);
      QuotientBound(Actions(k, m.skips), EffectiveDelay(m.delay), m.steps);
    } else {
      ExactDuration(m, k - 1);
    }
  }

  /** Movement of a motor that is at rest or about to start, after `k` ticks, as the wait loop sees it. */
  lemma {:induction false} Outcome(m: Motor, k: nat)
    requires m.moving ==> Armed(m)
    ensures Ticks(m, k).moving <==> m.moving && k < Duration(m)
    ensures !Ticks(m, k).moving ==> Pulses(m, k) == if m.moving then m.steps else 0
  {
    if m.moving {
      ExactDuration(m, k);
    } else if k > 0 {
      Outcome(m, k - 1);
    }
  }

  /** The duration is the formula in the comment above the interrupt handler, for a delay of at least one. */
  lemma DurationFormula(m: Motor)
    requires m.steps >= 1 && m.delay >= 1
    ensures var product := m.steps as real * m.delay as real;
            Duration(m) == Ceil(product * (1.0 + if m.skips != 0 then 1.0 / m.skips as real else 0.0)
                                - if m.skips != 0 then 1.0 else 0.0)
  {
    var total := m.steps * m.delay;
    var product := m.steps as real * m.delay as real;
    assert product == total as real;
    FormulaFor(m, total, product);
  }

  lemma FormulaFor(m: Motor, total: nat, p: real)
    requires m.steps >= 1 && m.delay >= 1 && total == m.steps * m.delay && p == total as real
    ensures Duration(m) == Ceil(p * (1.0 + if m.skips != 0 then 1.0 / m.skips as real else 0.0)
                                - if m.skips != 0 then 1.0 else 0.0)
  {
    if m.skips != 0 {
      var q, r := (total - 1) / m.skips, (total - 1) % m.skips;
      assert total - 1 == q * m.skips + r;
      SkippedTime(total, m.skips, q, r, p, m.skips as real);
    }
  }

  lemma Above(x: real, q: real, s: real, xs: real, qs: real)
    requires s > 0.0 && x * s == xs && q * s == qs && qs < xs
    ensures q < x
  {
    if x <= q {
      RealMul(x, q, s);
    }
  }

  lemma AtMost(x: real, q: real, s: real, xs: real, qs: real)
    requires s > 0.0 && x * s == xs && q * s == qs && xs <= qs
    ensures x <= q
  {
    if x > q {
      RealMulStrict(q, x, s);
    }
  }

  lemma OneMore(q: real, s: real) returns (qs: real, next: real)
    ensures qs == q * s && next == (q + 1.0) * s && next == qs + s
  {
    qs, next := q * s, (q + 1.0) * s;
  }

  lemma ShareOfSkip(p: real, s: real, q: real, r: real, x: real)
    requires s > 0.0 && 0.0 < r <= s && p == q * s + r && x * s == p
    ensures q < x <= q + 1.0
  {
    var qs, next := OneMore(q, s);
    Above(x, q, s, p, qs);
    AtMost(x, q + 1.0, s, p, next);
  }

  lemma TimesOnePlus(p: real, s: real) returns (x: real)
    requires s > 0.0
    ensures x * s == p && p * (1.0 + 1.0 / s) == p + x
  {
    x := p / s;
    assert p * (1.0 / s) == x;
    assert p * (1.0 + 1.0 / s) == p * 1.0 + p * (1.0 / s);
  }

  lemma SkippedTime(total: nat, skips: nat, q: nat, r: nat, p: real, s: real)
    requires total >= 1 && skips >= 1 && r < skips && total - 1 == q * skips + r && p == total as real
             && s == skips as real
    ensures Ceil(p * (1.0 + 1.0 / s) - 1.0) == total + q
  {
    assert (q * skips) as real == q as real * s;
    var x := TimesOnePlus(p, s);
    ShareOfSkip(p, s, q as real, (r + 1) as real, x);
  }
}
