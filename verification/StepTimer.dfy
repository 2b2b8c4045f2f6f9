/** The step timer's global arrays, its interrupt handler, and the wait for a movement to finish. */
module StepEngine {
  import opened Arithmetic
  import opened StepTiming
  import opened Planner

  class StepTimer {
    const motorsDelaySkips: array<uint32>
    const motorsDelaySkipsCounter: array<uint32>
    const motorsStepDelay: array<uint32>
    const motorsStepDelayCounter: array<uint32>
    const motorsNumberOfSteps: array<uint32>
    const motorsIsMoving: array<bool>
    const stepPins: array<bool>

    /** Rising edges seen on each step pin. */
    ghost var pulses: seq<nat>

    /** The arrays are distinct and have one element per motor. */
    ghost predicate Layout() {
      && motorsDelaySkips.Length == motorsDelaySkipsCounter.Length == motorsStepDelay.Length == NUMBER_OF_MOTORS
      && motorsStepDelayCounter.Length == motorsNumberOfSteps.Length == NUMBER_OF_MOTORS
      && motorsIsMoving.Length == stepPins.Length == NUMBER_OF_MOTORS
      && motorsDelaySkips != motorsDelaySkipsCounter && motorsDelaySkips != motorsStepDelay
      && motorsDelaySkips != motorsStepDelayCounter && motorsDelaySkips != motorsNumberOfSteps
      && motorsDelaySkipsCounter != motorsStepDelay && motorsDelaySkipsCounter != motorsStepDelayCounter
      && motorsDelaySkipsCounter != motorsNumberOfSteps && motorsStepDelay != motorsStepDelayCounter
      && motorsStepDelay != motorsNumberOfSteps && motorsStepDelayCounter != motorsNumberOfSteps
      && motorsIsMoving != stepPins
    }

    ghost predicate Valid()
      reads this
    {
      Layout() && |pulses| == NUMBER_OF_MOTORS
    }

    ghost function Arrays(): set<object> {
      {motorsDelaySkips as object, motorsDelaySkipsCounter, motorsStepDelay, motorsStepDelayCounter,
       motorsNumberOfSteps, motorsIsMoving, stepPins}
    }

    /** Motor `i`'s share of the arrays. */
    ghost function At(i: nat): Motor
      requires Valid() && i < NUMBER_OF_MOTORS
      reads this, Arrays()
    {
      Motor(motorsDelaySkips[i], motorsDelaySkipsCounter[i], motorsStepDelay[i], motorsStepDelayCounter[i],
            motorsNumberOfSteps[i], motorsIsMoving[i])
    }

    constructor ()
      ensures Valid() && fresh(Arrays())
      ensures pulses == [0, 0, 0, 0] && forall i :: 0 <= i < NUMBER_OF_MOTORS ==> !motorsIsMoving[i]
    {
      motorsDelaySkips := new uint32[NUMBER_OF_MOTORS](_ => 0);
      motorsDelaySkipsCounter := new uint32[NUMBER_OF_MOTORS](_ => 0);
      motorsStepDelay := new uint32[NUMBER_OF_MOTORS](_ => 0);
      motorsStepDelayCounter := new uint32[NUMBER_OF_MOTORS](_ => 0);
      motorsNumberOfSteps := new uint32[NUMBER_OF_MOTORS](_ => 0);
      motorsIsMoving := new bool[NUMBER_OF_MOTORS](_ => false);
      stepPins := new bool[NUMBER_OF_MOTORS](_ => false);
      pulses := [0, 0, 0, 0];
    }

    method MotorsStepAction(motor: nat)
      requires Valid() && motor < NUMBER_OF_MOTORS
      modifies this, Arrays()
      ensures Valid()
      ensures At(motor) == StepAction(old(At(motor))).0
      ensures stepPins[motor] == (old(stepPins[motor]) || StepAction(old(At(motor))).1)
      ensures pulses[motor] == old(pulses[motor]) + if StepAction(old(At(motor))).1 then 1 else 0
      ensures forall i :: 0 <= i < NUMBER_OF_MOTORS && i != motor ==>
                            At(i) == old(At(i)) && stepPins[i] == old(stepPins[i]) && pulses[i] == old(pulses[i])
    {
      var skip := false;
      if motorsDelaySkips[motor] != 0 {
        skip := motorsDelaySkipsCounter[motor] >= motorsDelaySkips[motor];
        motorsDelaySkipsCounter[motor] := Increment(motorsDelaySkipsCounter[motor]);
      }
      if skip {
        motorsDelaySkipsCounter[motor] := 0;
      } else {
        motorsStepDelayCounter[motor] := Increment(motorsStepDelayCounter[motor]);
        if motorsStepDelayCounter[motor] >= motorsStepDelay[motor] {
          motorsNumberOfSteps[motor] := Decrement(motorsNumberOfSteps[motor]);
          if motorsNumberOfSteps[motor] == 0 {
            motorsIsMoving[motor] := false;
          }
          stepPins[motor] := true;
          pulses := pulses[motor := pulses[motor] + 1];
          motorsStepDelayCounter[motor] := 0;
        }
      }
    }

    /** The timer interrupt: clears the step pins, then lets every moving motor act. */
    method UpdateMotorsStepTimer()
      requires Valid()
      modifies this, Arrays()
      ensures Valid()
      ensures forall i :: 0 <= i < NUMBER_OF_MOTORS ==>
                            && At(i) == Tick(old(At(i))).0
                            && stepPins[i] == Tick(old(At(i))).1
                            && pulses[i] == old(pulses[i]) + if Tick(old(At(i))).1 then 1 else 0
    {
      stepPins[0], stepPins[1], stepPins[2], stepPins[3] := false, false, false, false;
      for i := 0 to NUMBER_OF_MOTORS
        invariant Valid()
        invariant forall k :: 0 <= k < i ==>
                                && At(k) == Tick(old(At(k))).0
                                && stepPins[k] == Tick(old(At(k))).1
                                && pulses[k] == old(pulses[k]) + if Tick(old(At(k))).1 then 1 else 0
        invariant forall k :: i <= k < NUMBER_OF_MOTORS ==>
                                At(k) == old(At(k)) && !stepPins[k] && pulses[k] == old(pulses[k])
      {
        if motorsIsMoving[i] {
          MotorsStepAction(i);
        }
      }
    }

    method AreMotorsMoving() returns (moving: bool)
      requires Valid()
      ensures moving <==> exists i :: 0 <= i < NUMBER_OF_MOTORS && At(i).moving
    {
      for i := 0 to NUMBER_OF_MOTORS
        invariant forall k :: 0 <= k < i ==> !At(k).moving
      {
        if motorsIsMoving[i] {
          assert At(i).moving;
          return true;
        }
      }
      return false;
    }

    method SetMotorDelayAndSkip(motor: nat, cycles: real)
      requires Valid() && motor < NUMBER_OF_MOTORS && At(motor).steps >= 1
      modifies Arrays()
      ensures Valid()
      ensures At(motor) == Plan(old(At(motor)), cycles)
      ensures forall i :: 0 <= i < NUMBER_OF_MOTORS && i != motor ==> At(i) == old(At(i))
    {
      motorsDelaySkipsCounter[motor] := 0;
      motorsStepDelayCounter[motor] := 0;
      var steps := motorsNumberOfSteps[motor];
      var delay := PlannedDelay(steps, cycles);
      motorsStepDelay[motor] := delay;
      motorsDelaySkips[motor] := PlannedSkips(steps, delay, cycles);
    }

    /** Plans every moving motor for `cycles`. */
    method PlanMovement(cycles: real)
      requires Valid()
      requires forall i :: 0 <= i < NUMBER_OF_MOTORS && At(i).moving ==> At(i).steps >= 1
      modifies Arrays()
      ensures Valid()
      ensures forall i :: 0 <= i < NUMBER_OF_MOTORS ==>
                            At(i) == if old(At(i)).moving then Plan(old(At(i)), cycles) else old(At(i))
    {
      for i := 0 to NUMBER_OF_MOTORS
        invariant forall k :: 0 <= k < i ==> At(k) == if old(At(k)).moving then Plan(old(At(k)), cycles) else old(At(k))
        invariant forall k :: i <= k < NUMBER_OF_MOTORS ==> At(k) == old(At(k))
      {
        if motorsIsMoving[i] {
          SetMotorDelayAndSkip(i, cycles);
        }
      }
    }

    /**
     Lets the timer run until no motor moves. Every motor emits exactly its number of steps, and the wait takes as many
     ticks as the longest movement.
     */
    method WaitUntilStopped() returns (ticks: nat, ghost last: nat)
      requires Valid()
      requires forall i :: 0 <= i < NUMBER_OF_MOTORS && At(i).moving ==> Armed(At(i))
      modifies this, Arrays()
      ensures Valid()
      ensures forall i :: 0 <= i < NUMBER_OF_MOTORS ==> !At(i).moving
      ensures forall i :: 0 <= i < NUMBER_OF_MOTORS ==>
                            pulses[i] == old(pulses[i]) + if old(At(i)).moving then old(At(i)).steps else 0
      ensures forall i :: 0 <= i < NUMBER_OF_MOTORS && old(At(i)).moving ==> Duration(old(At(i))) <= ticks
      ensures ticks == 0 || (last < NUMBER_OF_MOTORS && old(At(last)).moving && Duration(old(At(last))) == ticks)
    {
      ghost var start := [At(0), At(1), At(2), At(3)];
      ghost var before := pulses;
      assert forall i :: 0 <= i < NUMBER_OF_MOTORS ==> start[i] == At(i);
      ticks := 0;
      var moving := AreMotorsMoving();
      while moving
        invariant Valid() && Reached(start, before, ticks)
        invariant moving <==> exists i :: 0 <= i < NUMBER_OF_MOTORS && At(i).moving
        invariant ticks <= Longest(start)
        decreases Longest(start) - ticks
      {
        ghost var i :| 0 <= i < NUMBER_OF_MOTORS && At(i).moving;
        Outcome(start[i], ticks);
        ticks := Interrupt(start, before, ticks);
        moving := AreMotorsMoving();
      }
      last := AllStopped(start, before, ticks);
    }

    /** One more interrupt of the run that began in `start`. */
    method Interrupt(ghost start: seq<Motor>, ghost before: seq<nat>, ticks: nat) returns (next: nat)
      requires Valid() && |start| == |before| == NUMBER_OF_MOTORS && Reached(start, before, ticks)
      modifies this, Arrays()
      ensures Valid() && next == ticks + 1 && Reached(start, before, next)
    {
      UpdateMotorsStepTimer();
      next := ticks + 1;
    }

    lemma AllStopped(start: seq<Motor>, before: seq<nat>, ticks: nat) returns (last: nat)
      requires Valid() && |start| == |before| == NUMBER_OF_MOTORS && Reached(start, before, ticks)
      requires forall i :: 0 <= i < NUMBER_OF_MOTORS ==> !At(i).moving
      requires forall i :: 0 <= i < NUMBER_OF_MOTORS && start[i].moving ==> Armed(start[i])
      requires ticks <= Longest(start)
      ensures forall i :: 0 <= i < NUMBER_OF_MOTORS ==>
                            && (start[i].moving ==> Duration(start[i]) <= ticks)
                            && pulses[i] == before[i] + if start[i].moving then start[i].steps else 0
      ensures ticks == 0 || (last < NUMBER_OF_MOTORS && start[last].moving && Duration(start[last]) == ticks)
    {
      forall i | 0 <= i < NUMBER_OF_MOTORS
        ensures start[i].moving ==> Duration(start[i]) <= ticks
        ensures Pulses(start[i], ticks) == if start[i].moving then start[i].steps else 0
      {
        Outcome(start[i], ticks);
      }
      last := 0;
      if ticks != 0 {
        last :| 0 <= last < |start| && start[last].moving && Duration(start[last]) == Longest(start);
      }
    }

    /**
     Plans the moving motors for `cycles` and waits for them: exactly their steps are emitted, and every motor moves for
     the time it was planned for.
     */
    method Execute(cycles: real) returns (ticks: nat)
      requires Valid()
      requires forall i :: 0 <= i < NUMBER_OF_MOTORS && At(i).moving ==> At(i).steps >= 1
      modifies this, Arrays()
      ensures Valid()
      ensures forall i :: 0 <= i < NUMBER_OF_MOTORS ==> !At(i).moving
      ensures forall i :: 0 <= i < NUMBER_OF_MOTORS ==>
                            pulses[i] == old(pulses[i]) + if old(At(i)).moving then old(At(i)).steps else 0
      ensures Timed(old([At(0), At(1), At(2), At(3)]), cycles, ticks)
    {
      ghost var start := [At(0), At(1), At(2), At(3)];
      PlanMovement(cycles);
      ghost var planned := [At(0), At(1), At(2), At(3)];
      AllArmed(start, planned, cycles);
      ghost var last;
      ticks, last := WaitUntilStopped();
      InTime(start, planned, cycles, ticks, last);
    }

    /** `ticks` interrupts have passed since the motors were in state `start` and the pulse counts were `before`. */
    ghost predicate Reached(start: seq<Motor>, before: seq<nat>, ticks: nat)
      requires Valid() && |start| == |before| == NUMBER_OF_MOTORS
      reads this, Arrays()
    {
      forall i :: 0 <= i < NUMBER_OF_MOTORS ==>
                    At(i) == Ticks(start[i], ticks) && pulses[i] == before[i] + Pulses(start[i], ticks)
    }
  }

  /** `planned` is what `PlanMovement` makes of `start`. */
  ghost predicate ArePlanned(start: seq<Motor>, planned: seq<Motor>, cycles: real) {
    && |start| == |planned| == NUMBER_OF_MOTORS
    && (forall i :: 0 <= i < NUMBER_OF_MOTORS && start[i].moving ==> start[i].steps >= 1)
    && (forall i :: 0 <= i < NUMBER_OF_MOTORS ==>
                      planned[i] == if start[i].moving then Plan(start[i], cycles) else start[i])
  }

  lemma AllArmed(start: seq<Motor>, planned: seq<Motor>, cycles: real)
    requires ArePlanned(start, planned, cycles)
    ensures forall i :: 0 <= i < NUMBER_OF_MOTORS ==>
                          && (planned[i].moving ==> Armed(planned[i]))
                          && planned[i].moving == start[i].moving && planned[i].steps == start[i].steps
  {
  }

  /** The planner can stretch a movement of `steps` steps over `cycles`. */
  predicate Plannable(steps: uint32, cycles: real) {
    steps as real * STEP_TIMER_PERIOD <= cycles && cycles / STEP_TIMER_PERIOD <= Reach(steps, UINT32_MAX)
  }

  /**
   A wait of `ticks` for the motors `start` planned for `cycles`: it ends with the longest movement, and every movement
   the planner can stretch that far takes at least `cycles` and less than twice that.
   */
  ghost predicate Timed(start: seq<Motor>, cycles: real, ticks: nat) {
    && |start| == NUMBER_OF_MOTORS
    && (forall i :: 0 <= i < NUMBER_OF_MOTORS && start[i].moving ==>
                      && start[i].steps >= 1 && PlannedTicks(start[i].steps, cycles) <= ticks
                      && (Plannable(start[i].steps, cycles) ==> InWindow(PlannedTicks(start[i].steps, cycles), cycles)))
    && (ticks == 0 ||
        exists i :: 0 <= i < NUMBER_OF_MOTORS && start[i].moving && PlannedTicks(start[i].steps, cycles) == ticks)
  }

  lemma InTime(start: seq<Motor>, planned: seq<Motor>, cycles: real, ticks: nat, last: nat)
    requires ArePlanned(start, planned, cycles)
    requires forall i :: 0 <= i < NUMBER_OF_MOTORS && planned[i].moving ==> Duration(planned[i]) <= ticks
    requires ticks == 0 || (last < NUMBER_OF_MOTORS && planned[last].moving && Duration(planned[last]) == ticks)
    ensures Timed(start, cycles, ticks)
  {
    forall i | 0 <= i < NUMBER_OF_MOTORS && start[i].moving
      ensures PlannedTicks(start[i].steps, cycles) == Duration(planned[i])
      ensures Plannable(start[i].steps, cycles) ==> InWindow(PlannedTicks(start[i].steps, cycles), cycles)
    {
      PlanIgnoresTheRest(start[i], cycles);
      if Plannable(start[i].steps, cycles) {
        PlannerBound(start[i], cycles);
      }
    }
  }

  /** Ticks until every motor of `motors` has stopped. */
  ghost function Longest(motors: seq<Motor>): (n: nat)
    requires |motors| == NUMBER_OF_MOTORS
    requires forall i :: 0 <= i < |motors| && motors[i].moving ==> Armed(motors[i])
    ensures forall i :: 0 <= i < |motors| && motors[i].moving ==> Duration(motors[i]) <= n
    ensures n == 0 || exists i :: 0 <= i < |motors| && motors[i].moving && Duration(motors[i]) == n
  {
    var d := seq(NUMBER_OF_MOTORS, i requires 0 <= i < |motors| => if motors[i].moving then Duration(motors[i]) else 0);
    var a := if d[0] >= d[1] then 0 else 1;
    var b := if d[2] >= d[3] then 2 else 3;
    if d[a] >= d[b] then d[a] else d[b]
  }
}
