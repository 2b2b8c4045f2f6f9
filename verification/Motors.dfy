/**
 The `Motors` class of motors.cpp: the arrays a movement updates in place. Every method is proved against the functions
 of `Motion`. No emergency stop happens during a movement.
 */
module MotorControl {
  import opened Options
  import opened Arithmetic
  import opened BedSurface
  import opened Bed
  import opened StepTiming
  import opened Planner
  import opened StepEngine
  import opened Motion

  const X := 0
  const Y := 1
  const Z := 2
  const E := 3
  const F := 4

  function MaxFeedRate(i: nat, lower: bool): real {
    if i == X || i == Y then 4800.0 else if i == Z then 60.0 else if lower then 720.0 else 600.0
  }

  function MinFeedRate(i: nat): real {
    if i == X || i == Y then 120.0 else if i == Z then 30.0 else 60.0
  }

  /** The feed rate of one motor: the smaller of the commanded rate and the speed limit, in the motor's range. */
  function FeedRate(cfg: Settings, i: nat, lower: bool, commanded: real): (r: real)
    requires i < 4
    ensures r > 0.0
  {
    var limit := if i == E && lower then cfg.retractSpeedLimit else cfg.speedLimits.At(i);
    ValueInRange(Min(commanded, limit), MinFeedRate(i), MaxFeedRate(i, lower))
  }

  /** The host refuses any other number of steps per millimetre. */
  predicate PositiveScales(cfg: Settings) {
    cfg.stepsPerMm.x > 0.0 && cfg.stepsPerMm.y > 0.0 && cfg.stepsPerMm.z > 0.0 && cfg.stepsPerMm.e > 0.0
  }

  /** `cycles` is the largest of the needs from `i` on. */
  ghost predicate IsLargest(needs: seq<real>, i: nat, cycles: real) {
    (forall k :: i <= k < |needs| ==> needs[k] <= cycles) && (exists k :: i <= k < |needs| && needs[k] == cycles)
  }

  lemma LargerOf(needs: seq<real>, i: nat, needed: real, cycles: real)
    requires i < |needs| && needs[i] == needed >= 0.0
    requires if i + 1 == |needs| then cycles == 0.0 else IsLargest(needs, i + 1, cycles)
    ensures IsLargest(needs, i, Max(needed, cycles))
  {
    if needed >= cycles {
      assert needs[i] == Max(needed, cycles);
    } else {
      var k :| i + 1 <= k < |needs| && needs[k] == cycles;
    }
  }

  /** A movement of `steps` steps planned for `cycles`, in a wait of `ticks`. */
  predicate PacedSteps(steps: uint32, stepsPerMm: real, feedRate: real, cpuHz: real, cycles: real, ticks: nat)
    requires steps >= 1
  {
    var taken := PlannedTicks(steps, cycles);
    && taken <= ticks
    && (Plannable(steps, cycles) ==> InWindow(taken, cycles))
    && (Plannable(steps, cycles) && stepsPerMm > 0.0 && cpuHz > 0.0 ==>
        NotFaster(steps, stepsPerMm, feedRate, cpuHz, taken))
  }

  lemma PaceOfSteps(steps: uint32, stepsPerMm: real, feedRate: real, cpuHz: real, motors: seq<Motor>, i: nat,
                    cycles: real, ticks: nat)
    requires Timed(motors, cycles, ticks) && i < 4 && motors[i].moving && motors[i].steps == steps >= 1
    requires stepsPerMm > 0.0 && feedRate > 0.0 && NumberOfCycles(steps, stepsPerMm, feedRate, cpuHz) <= cycles
    ensures PacedSteps(steps, stepsPerMm, feedRate, cpuHz, cycles, ticks)
  {
    if Plannable(steps, cycles) && cpuHz > 0.0 {
      NeverFasterThanFeedRate(motors[i], cycles, stepsPerMm, feedRate, cpuHz);
      PlanIgnoresTheRest(motors[i], cycles);
    }
  }

  /** Cycles motor `i` alone needs for its movement from `before` to `to`. */
  function CyclesNeeded(cfg: Settings, cpuHz: real, before: Drive, i: nat, to: real, feedRate: real): real
    requires PositiveScales(cfg) && i < 4
  {
    var n := StepCount(before, Scale(cfg).At(i), to);
    if n == 0 then 0.0
    else NumberOfCycles(n, cfg.stepsPerMm.At(i), FeedRate(cfg, i, to < before.value, feedRate), cpuHz)
  }

  /** Cycles each motor alone needs. */
  function Needs(cfg: Settings, cpuHz: real, drives: seq<Drive>, values: seq<real>, feedRate: real): seq<real>
    requires PositiveScales(cfg) && |drives| == |values| == 4
  {
    [CyclesNeeded(cfg, cpuHz, drives[0], 0, values[0], feedRate),
     CyclesNeeded(cfg, cpuHz, drives[1], 1, values[1], feedRate),
     CyclesNeeded(cfg, cpuHz, drives[2], 2, values[2], feedRate),
     CyclesNeeded(cfg, cpuHz, drives[3], 3, values[3], feedRate)]
  }

  lemma NeedsAt(cfg: Settings, cpuHz: real, drives: seq<Drive>, values: seq<real>, feedRate: real, i: nat)
    requires PositiveScales(cfg) && |drives| == |values| == 4 && i < 4
    ensures Needs(cfg, cpuHz, drives, values, feedRate)[i]
            == CyclesNeeded(cfg, cpuHz, drives[i], i, values[i], feedRate)
  {
  }

  /** A motor is moving exactly when it has steps to make. */
  predicate IsStarted(cfg: Settings, before: Drive, i: nat, to: real, motor: Motor)
    requires i < 4
  {
    var n := StepCount(before, Scale(cfg).At(i), to);
    motor.moving == (n != 0) && (n != 0 ==> motor.steps == n)
  }

  ghost predicate AreStarted(cfg: Settings, drives: seq<Drive>, values: seq<real>, motors: seq<Motor>) {
    && |drives| == |values| == |motors| == 4
    && forall i :: 0 <= i < 4 ==> IsStarted(cfg, drives[i], i, values[i], motors[i])
  }

  lemma StartedSteps(cfg: Settings, drives: seq<Drive>, values: seq<real>, motors: seq<Motor>)
    requires AreStarted(cfg, drives, values, motors)
    ensures forall i :: 0 <= i < 4 && motors[i].moving ==> motors[i].steps >= 1
    ensures forall i :: 0 <= i < 4 ==>
                          (if motors[i].moving then motors[i].steps else 0)
                              == StepCount(drives[i], Scale(cfg).At(i), values[i])
  {
  }

  /**
   Every motor that moves takes its own planned time, which the wait covers. If the planner can stretch its movement
   that far, that is at least `cycles` and less than twice that, and the motor is on average no faster than its feed
   rate.
   */
  ghost predicate ArePaced(cfg: Settings, cpuHz: real, drives: seq<Drive>, values: seq<real>, feedRate: real,
                           cycles: real, ticks: nat)
    requires |drives| == |values| == 4
  {
    forall i :: 0 <= i < 4 ==> Paced(cfg, cpuHz, drives[i], i, values[i], feedRate, cycles, ticks)
  }

  predicate Paced(cfg: Settings, cpuHz: real, before: Drive, i: nat, to: real, feedRate: real, cycles: real, ticks: nat)
    requires i < 4
  {
    var n := StepCount(before, Scale(cfg).At(i), to);
    n >= 1 ==> PacedSteps(n, cfg.stepsPerMm.At(i), FeedRate(cfg, i, to < before.value, feedRate), cpuHz, cycles, ticks)
  }

  lemma PaceAll(cfg: Settings, cpuHz: real, drives: seq<Drive>, values: seq<real>, feedRate: real, motors: seq<Motor>,
                cycles: real, ticks: nat)
    requires PositiveScales(cfg) && AreStarted(cfg, drives, values, motors) && Timed(motors, cycles, ticks)
    requires IsLargest(Needs(cfg, cpuHz, drives, values, feedRate), 0, cycles)
    ensures ArePaced(cfg, cpuHz, drives, values, feedRate, cycles, ticks)
  {
    forall i | 0 <= i < 4
      ensures Paced(cfg, cpuHz, drives[i], i, values[i], feedRate, cycles, ticks)
    {
      assert Needs(cfg, cpuHz, drives, values, feedRate)[i] <= cycles;
      Pace(cfg, cpuHz, drives[i], i, values[i], feedRate, motors, cycles, ticks);
    }
  }

  lemma Pace(cfg: Settings, cpuHz: real, before: Drive, i: nat, to: real, feedRate: real, motors: seq<Motor>,
             cycles: real, ticks: nat)
    requires PositiveScales(cfg) && i < 4 && Timed(motors, cycles, ticks)
    requires CyclesNeeded(cfg, cpuHz, before, i, to, feedRate) <= cycles
    requires var n := StepCount(before, Scale(cfg).At(i), to);
             n >= 1 ==> motors[i].moving && motors[i].steps == n
    ensures Paced(cfg, cpuHz, before, i, to, feedRate, cycles, ticks)
  {
    var n := StepCount(before, Scale(cfg).At(i), to);
    if n >= 1 {
      PaceOfSteps(n, cfg.stepsPerMm.At(i), FeedRate(cfg, i, to < before.value, feedRate), cpuHz, motors, i, cycles,
                  ticks);
    }
  }

  datatype BacklashDirection = NoDirection | Positive | Negative

  /** The distance of a backlash movement in direction `d`. */
  function BacklashDistance(d: BacklashDirection, backlash: real): real {
    if d.NoDirection? then 0.0 else if d.Negative? then backlash * -1.0 else backlash
  }

  /** The direction in which a movement takes up backlash, if it does. */
  function BacklashFor(env: Env, m: Drive, scale: real, to: real, direction: bool): BacklashDirection {
    if !TakesUp(env, m, scale, to, direction) then NoDirection else if to < m.value then Negative else Positive
  }

  /** What the EEPROM holds of the motors: their positions, the directions of X and Y, and which values are valid. */
  datatype Saved = Saved(x: real, y: real, z: real, directionX: bool, directionY: bool, validities: seq<bool>)

  function AtRest(value: real): Drive {
    Drive(value, 0.0, true, 0)
  }

  /** The state of a new object that has restored `saved`. */
  function InitialState(saved: Saved): State {
    State(Vec(AtRest(saved.x), AtRest(saved.y), AtRest(saved.z), AtRest(0.0)), 4800.0, saved.directionX,
          saved.directionY, Absolute, Absolute, Millimeters, 0, 0)
  }

  method ArrayOf<T>(values: seq<T>) returns (a: array<T>)
    ensures fresh(a) && a[..] == values
  {
    a := new T[|values|](i requires 0 <= i < |values| => values[i]);
  }

  class Motors {
    const env: Env
    const cpuHz: real
    const timer: StepTimer
    const currentValues: array<real>
    const startValues: array<real>
    const motorsNumberOfRemainingSteps: array<real>
    const directionPins: array<bool>
    const currentMotorDirections: array<bool>
    const currentStateOfValues: array<bool>
    var mode: Mode
    var extruderMode: Mode
    var units: Units
    var settings: Settings

    /** Steps issued by segments on each motor, and backlash steps on X and Y, counted with their direction. */
    ghost var issued: seq<int>
    ghost var backlash: seq<int>

    /** `initialize` with the saved state of the EEPROM. */
    constructor (sqrt: real -> real, cpuHz: real, settings: Settings, saved: Saved)
      requires PositiveScales(settings) && |saved.validities| == 3
      ensures Valid() && Idle() && Lawful(env) && fresh(timer) && fresh(timer.Arrays())
      ensures fresh(currentValues) && fresh(startValues) && fresh(motorsNumberOfRemainingSteps) && fresh(directionPins)
      ensures fresh(currentMotorDirections) && fresh(currentStateOfValues)
      ensures env == Firmware(sqrt) && this.cpuHz == cpuHz && this.settings == settings
      ensures View() == InitialState(saved) && currentStateOfValues[..] == saved.validities
    {
      env, this.cpuHz, this.settings := Firmware(sqrt), cpuHz, settings;
      timer := new StepTimer();
      var values := ArrayOf([saved.x, saved.y, saved.z, 0.0, 4800.0]);
      var starts := ArrayOf([0.0, 0.0, 0.0, 0.0]);
      var remaining := ArrayOf([0.0, 0.0, 0.0, 0.0]);
      var pins := ArrayOf([true, true, true, true]);
      var directions := ArrayOf([saved.directionX, saved.directionY]);
      var validities := ArrayOf(saved.validities);
      currentValues, startValues, motorsNumberOfRemainingSteps := values, starts, remaining;
      directionPins, currentMotorDirections, currentStateOfValues := pins, directions, validities;
      mode, extruderMode, units := Absolute, Absolute, Millimeters;
      issued, backlash := [0, 0, 0, 0], [0, 0];
      new;
      InitialView(saved);
      FirmwareLawful(sqrt);
    }

    lemma InitialView(saved: Saved)
      requires Layout() && issued == [0, 0, 0, 0] && backlash == [0, 0]
      requires currentValues[..] == [saved.x, saved.y, saved.z, 0.0, 4800.0]
      requires motorsNumberOfRemainingSteps[..] == [0.0, 0.0, 0.0, 0.0] && directionPins[..] == [true, true, true, true]
      requires currentMotorDirections[..] == [saved.directionX, saved.directionY]
      requires mode == extruderMode == Absolute && units == Millimeters
      ensures View() == InitialState(saved)
    {
      assert currentValues[..][X] == saved.x && currentValues[..][Y] == saved.y && currentValues[..][Z] == saved.z;
      assert currentValues[..][E] == 0.0 && currentValues[..][F] == 4800.0;
      assert forall i :: 0 <= i < 4 ==> motorsNumberOfRemainingSteps[..][i] == 0.0 && directionPins[..][i];
      assert currentMotorDirections[..][X] == saved.directionX && currentMotorDirections[..][Y] == saved.directionY;
    }

    /** The arrays are distinct and have the sizes of the source. */
    ghost predicate Layout() {
      && currentValues.Length == 5
      && startValues.Length == motorsNumberOfRemainingSteps.Length == directionPins.Length == 4
      && currentMotorDirections.Length == 2 && currentStateOfValues.Length == 3
      && currentValues != startValues && currentValues != motorsNumberOfRemainingSteps
      && startValues != motorsNumberOfRemainingSteps
      && directionPins != currentMotorDirections && directionPins != currentStateOfValues
      && currentMotorDirections != currentStateOfValues
      && timer.Layout()
      && OwnArrays() !! timer.Arrays()
    }

    /** What the assignments of a movement have to keep. */
    ghost predicate Sized()
      reads this, timer
    {
      |issued| == 4 && |backlash| == 2 && |timer.pulses| == 4
    }

    ghost predicate Valid()
      reads this, timer
    {
      Layout() && Sized() && PositiveScales(settings)
    }

    ghost function OwnArrays(): set<object> {
      {currentValues as object, startValues, motorsNumberOfRemainingSteps, directionPins, currentMotorDirections,
       currentStateOfValues}
    }

    ghost function Arrays(): set<object> {
      OwnArrays() + timer.Arrays()
    }

    ghost function DriveAt(i: nat): Drive
      requires Layout() && |issued| == 4 && i < 4
      reads this, currentValues, motorsNumberOfRemainingSteps, directionPins
    {
      Drive(currentValues[i], motorsNumberOfRemainingSteps[i], directionPins[i], issued[i])
    }

    ghost function Drives(): Vec<Drive>
      requires Layout() && |issued| == 4
      reads this, currentValues, motorsNumberOfRemainingSteps, directionPins
    {
      Vec(DriveAt(0), DriveAt(1), DriveAt(2), DriveAt(3))
    }

    /** The abstract state. */
    ghost function View(): State
      requires Layout() && |issued| == 4 && |backlash| == 2
      reads this, currentValues, motorsNumberOfRemainingSteps, directionPins, currentMotorDirections
    {
      State(Drives(), currentValues[F], currentMotorDirections[X], currentMotorDirections[Y], mode, extruderMode, units,
            backlash[X], backlash[Y])
    }

    ghost predicate Idle()
      requires Layout()
      reads timer.motorsIsMoving
    {
      forall i :: 0 <= i < 4 ==> !timer.motorsIsMoving[i]
    }

    function StepsPerMm(i: nat): real
      requires i < 4
      reads this
    {
      settings.stepsPerMm.At(i)
    }

    /**
     Position, pin and left-over fraction of motor `i` for a movement to `newValue`; the result is its number of steps.
     */
    method UpdateDrive(i: nat, newValue: real) returns (n: uint32)
      requires Valid() && i < 4
      modifies this`issued, currentValues, motorsNumberOfRemainingSteps, directionPins
      ensures Sized()
      ensures n == StepCount(old(DriveAt(i)), Scale(settings).At(i), newValue)
      ensures DriveAt(i) == Step(old(DriveAt(i)), Scale(settings).At(i), newValue)
      ensures forall k :: 0 <= k < 4 && k != i ==> DriveAt(k) == old(DriveAt(k))
      ensures currentValues[F] == old(currentValues[F])
    {
      n := 0;
      if newValue != currentValues[i] {
        var lowerNewValue := newValue < currentValues[i];
        var scale := Scale(settings).At(i);
        ghost var before := DriveAt(i);
        var total := TotalSteps(Drive(currentValues[i], motorsNumberOfRemainingSteps[i], directionPins[i], 0), scale,
                                newValue);
        TotalAlike(before, scale, newValue);
        if total >= 1.0 {
          n := ToUint32(total);
        }
        StepFrom(before, scale, newValue, total, n);
        SetDrive(i, newValue, total - n as real, !lowerNewValue, issued[i] + if lowerNewValue then -(n as int) else n);
      }
    }

    method SetDrive(i: nat, value: real, remaining: real, pin: bool, ghost steps: int)
      requires Valid() && i < 4
      modifies this`issued, currentValues, motorsNumberOfRemainingSteps, directionPins
      ensures Sized() && DriveAt(i) == Drive(value, remaining, pin, steps)
      ensures forall k :: 0 <= k < 4 && k != i ==> DriveAt(k) == old(DriveAt(k))
      ensures currentValues[F] == old(currentValues[F])
    {
      directionPins[i], motorsNumberOfRemainingSteps[i], currentValues[i] := pin, remaining, value;
      issued := issued[i := steps];
    }

    /** The part of a movement without tasks that concerns motor `i`, whose new value is `newValue`. */
    method MoveMotor(i: nat, newValue: real, ghost cfg: Settings, ghost before: Drive, ghost feedRate: real)
        returns (cycles: real)
      requires Valid() && i < 4 && !timer.At(i).moving
      requires cfg == settings && before == DriveAt(i) && feedRate == currentValues[F]
      modifies this`issued, currentValues, motorsNumberOfRemainingSteps, directionPins, timer.motorsIsMoving,
               timer.motorsNumberOfSteps
      ensures Sized() && settings == cfg && currentValues[F] == feedRate
      ensures DriveAt(i) == Step(before, Scale(cfg).At(i), newValue)
      ensures IsStarted(cfg, before, i, newValue, timer.At(i))
      ensures forall k :: 0 <= k < 4 && k != i ==> DriveAt(k) == old(DriveAt(k)) && timer.At(k) == old(timer.At(k))
      ensures cycles == CyclesNeeded(cfg, cpuHz, before, i, newValue, feedRate) && cycles >= 0.0
    {
      cycles := 0.0;
      var lowerNewValue := newValue < currentValues[i];
      var n := UpdateDrive(i, newValue);
      if n != 0 {
        timer.motorsIsMoving[i] := true;
        timer.motorsNumberOfSteps[i] := n;
        cycles := NumberOfCycles(n, StepsPerMm(i), FeedRate(settings, i, lowerNewValue, currentValues[F]), cpuHz);
      }
    }

    /** The values a command asks for: relative or absolute, in millimetres if it was received. */
    method NewValues(gcode: MoveCode, received: bool) returns (newValues: array<real>)
      requires Valid()
      ensures fresh(newValues) && newValues.Length == 4
      ensures var p := RequestedPoint(if received then View() else View().(units := Millimeters), gcode);
              newValues[0] == p.x && newValues[1] == p.y && newValues[2] == p.z && newValues[3] == p.e
    {
      newValues := new real[4](i requires 0 <= i < 4 reads currentValues =>
                                 if i < currentValues.Length then currentValues[i] else 0.0);
      ghost var st := if received then View() else View().(units := Millimeters);
      for i := 4 downto 0
        invariant forall k :: 0 <= k < i ==> newValues[k] == currentValues[k]
        invariant forall k :: i <= k < 4 ==>
                                newValues[k] == Requested(st, gcode.motors.At(k), currentValues[k],
                                                          if k == E then extruderMode else mode)
      {
        if gcode.motors.At(i).Some? {
          var currentValue := gcode.motors.At(i).value;
          if received && units == Inches {
            currentValue := currentValue * INCHES_TO_MILLIMETERS;
          }
          if (i != E && mode == Relative) || (i == E && extruderMode == Relative) {
            currentValue := currentValue + currentValues[i];
          }
          newValues[i] := currentValue;
        }
      }
    }

    /** The four drives as a sequence. */
    ghost function AllDrives(): seq<Drive>
      requires Layout() && |issued| == 4
      reads this, currentValues, motorsNumberOfRemainingSteps, directionPins
    {
      [DriveAt(0), DriveAt(1), DriveAt(2), DriveAt(3)]
    }

    /** The motors from `i` on have been moved to `values` from `drives`, and the others are at rest where they were. */
    ghost predicate MovedFrom(i: nat, cfg: Settings, drives: seq<Drive>, values: seq<real>, feedRate: real)
      requires Valid() && |drives| == |values| == 4
      reads this, currentValues, motorsNumberOfRemainingSteps, directionPins, timer, timer.Arrays()
    {
      && settings == cfg && currentValues[F] == feedRate
      && (forall k :: 0 <= k < 4 && k < i ==> DriveAt(k) == drives[k] && !timer.At(k).moving)
      && (forall k :: i <= k < 4 ==>
                        && DriveAt(k) == Step(drives[k], Scale(cfg).At(k), values[k])
                        && IsStarted(cfg, drives[k], k, values[k], timer.At(k)))
    }

    method MoveNextMotor(i: nat, newValue: real, ghost cfg: Settings, ghost drives: seq<Drive>, ghost values: seq<real>,
                         ghost feedRate: real)
      returns (cycles: real)
      requires Valid() && i < 4 && |drives| == |values| == 4 && MovedFrom(i + 1, cfg, drives, values, feedRate)
               && newValue == values[i]
      modifies this`issued, currentValues, motorsNumberOfRemainingSteps, directionPins, timer.motorsIsMoving,
               timer.motorsNumberOfSteps
      ensures Valid() && MovedFrom(i, cfg, drives, values, feedRate)
      ensures cycles == CyclesNeeded(cfg, cpuHz, drives[i], i, newValue, feedRate) && cycles >= 0.0
    {
      cycles := MoveMotor(i, newValue, cfg, drives[i], feedRate);
    }

    /** All four motors, from E to X; the result is the largest number of cycles a motor needs. */
    method MoveMotors(newValues: array<real>, ghost cfg: Settings, ghost drives: seq<Drive>, ghost values: seq<real>,
                      ghost feedRate: real)
      returns (cycles: real)
      requires Valid() && Idle() && newValues.Length == 4 && newValues !in Arrays()
      requires cfg == settings && drives == AllDrives() && values == newValues[..] && feedRate == currentValues[F]
      modifies this`issued, currentValues, motorsNumberOfRemainingSteps, directionPins, timer.motorsIsMoving,
               timer.motorsNumberOfSteps
      ensures Valid() && MovedFrom(0, cfg, drives, values, feedRate)
      ensures IsLargest(Needs(cfg, cpuHz, drives, values, feedRate), 0, cycles)
    {
      ghost var needs := Needs(cfg, cpuHz, drives, values, feedRate);
      cycles := 0.0;
      for i := 4 downto 0
        invariant Valid() && MovedFrom(i, cfg, drives, values, feedRate)
        invariant if i == 4 then cycles == 0.0 else IsLargest(needs, i, cycles)
      {
        var needed := MoveNextMotor(i, newValues[i], cfg, drives, values, feedRate);
        NeedsAt(cfg, cpuHz, drives, values, feedRate, i);
        LargerOf(needs, i, needed, cycles);
        cycles := Max(needed, cycles);
      }
    }

    /** Plans the started motors and waits for them. */
    method Wait(cycles: real, ghost motors: seq<Motor>) returns (ticks: nat)
      requires Valid() && motors == [timer.At(0), timer.At(1), timer.At(2), timer.At(3)]
      requires forall i :: 0 <= i < 4 && motors[i].moving ==> motors[i].steps >= 1
      modifies timer, timer.Arrays()
      ensures Valid() && Idle() && Timed(motors, cycles, ticks)
      ensures forall i :: 0 <= i < 4 ==> DriveAt(i) == old(DriveAt(i))
      ensures settings == old(settings) && currentValues[F] == old(currentValues[F])
      ensures forall i :: 0 <= i < 4 ==>
                            timer.pulses[i] == old(timer.pulses[i]) + if motors[i].moving then motors[i].steps else 0
    {
      assert forall i :: 0 <= i < 4 ==> motors[i] == timer.At(i);
      ticks := timer.Execute(cycles);
      assert !timer.At(0).moving && !timer.At(1).moving && !timer.At(2).moving && !timer.At(3).moving;
    }

    /**
     The movement of motors that are at rest, to `newValues`, including the wait. It is planned for the cycles the
     slowest motor needs; every motor emits its steps in its own planned time.
     */
    method MoveAndWait(newValues: array<real>, ghost cfg: Settings, ghost drives: seq<Drive>, ghost values: seq<real>,
                       ghost feedRate: real)
      returns (cycles: real, ticks: nat)
      requires Valid() && Idle() && newValues.Length == 4 && newValues !in Arrays()
      requires cfg == settings && drives == AllDrives() && values == newValues[..] && feedRate == currentValues[F]
      modifies this`issued, currentValues, motorsNumberOfRemainingSteps, directionPins, timer, timer.Arrays()
      ensures Sized() && Idle() && settings == cfg && currentValues[F] == feedRate
      ensures forall i :: 0 <= i < 4 ==> DriveAt(i) == Step(drives[i], Scale(cfg).At(i), values[i])
      ensures forall i :: 0 <= i < 4 ==>
                            timer.pulses[i] == old(timer.pulses[i]) + StepCount(drives[i], Scale(cfg).At(i), values[i])
      ensures IsLargest(Needs(cfg, cpuHz, drives, values, feedRate), 0, cycles)
      ensures ArePaced(cfg, cpuHz, drives, values, feedRate, cycles, ticks)
    {
      cycles := MoveMotors(newValues, cfg, drives, values, feedRate);
      ghost var motors := [timer.At(0), timer.At(1), timer.At(2), timer.At(3)];
      StartedSteps(cfg, drives, values, motors);
      ticks := Wait(cycles, motors);
      PaceAll(cfg, cpuHz, drives, values, feedRate, motors, cycles, ticks);
    }

    /** The movement of motors that are at rest, to `to`. */
    method MoveToValues(newValues: array<real>, ghost to: Point)
      requires Valid() && Idle() && newValues.Length == 4 && newValues !in Arrays()
      requires to == Vec(newValues[0], newValues[1], newValues[2], newValues[3])
      modifies this`issued, currentValues, motorsNumberOfRemainingSteps, directionPins, timer, timer.Arrays()
      ensures Sized() && Idle()
      ensures View() == old(View()).(drives := FirmwareMoved(Scale(settings), old(Drives()), to))
    {
      var cycles, ticks := MoveAndWait(newValues, settings, AllDrives(), newValues[..], currentValues[F]);
    }

    method SetFeedRate(f: Option<real>)
      requires Valid()
      modifies currentValues
      ensures View() == if f.Some? then old(View()).(feedRate := f.value) else old(View())
    {
      if f.Some? {
        currentValues[F] := f.value;
      }
    }

    /** `move(gcode, NO_TASK)`. */
    method PerformMovement(gcode: MoveCode)
      requires Valid() && Idle()
      modifies this`issued, currentValues, motorsNumberOfRemainingSteps, directionPins, timer, timer.Arrays()
      ensures Sized() && Idle()
      ensures View() == PerformedState(old(View()), gcode)
    {
      SetFeedRate(gcode.f);
      var newValues := NewValues(gcode, false);
      MoveToValues(newValues, RequestedPoint(View().(units := Millimeters), gcode));
    }

    /** The state after a movement without tasks. */
    ghost function PerformedState(st: State, gcode: MoveCode): State
      reads this
    {
      var fed := if gcode.f.Some? then st.(feedRate := gcode.f.value) else st;
      fed.(drives := FirmwareMoved(Scale(settings), fed.drives, RequestedPoint(fed.(units := Millimeters), gcode)))
    }

    /**
     `compensateForBacklash`: moves X and Y by the backlash and then undoes every trace of it in the logical state.
     Position, feed rate, mode, left-over fractions, direction pins and the segments' step counts are what they were;
     only the backlash steps have been issued.
     */
    method CompensateForBacklash(directionX: BacklashDirection, directionY: BacklashDirection)
      requires Valid() && Idle()
      modifies this`mode, this`issued, this`backlash, currentValues, motorsNumberOfRemainingSteps, directionPins,
               timer, timer.Arrays()
      ensures Sized() && Idle()
      ensures View() == old(View()).(
                backlashX := old(backlash[X]) + ClearedSteps(old(currentValues[X]), old(directionPins[X]),
                                                             Scale(settings).x,
                                                             BacklashDistance(directionX, settings.backlashX)),
                backlashY := old(backlash[Y]) + ClearedSteps(old(currentValues[Y]), old(directionPins[Y]),
                                                             Scale(settings).y,
                                                             BacklashDistance(directionY, settings.backlashY)))
    {
      ghost var savedIssued := issued;
      TakeUp(BacklashDistance(directionX, settings.backlashX), BacklashDistance(directionY, settings.backlashY));
      backlash := [backlash[X] + issued[X] - savedIssued[X], backlash[Y] + issued[Y] - savedIssued[Y]];
      issued := savedIssued;
    }

    /** Moves X and Y by the backlash distances and puts everything back but the steps. */
    method TakeUp(dx: real, dy: real)
      requires Valid() && Idle()
      modifies this`mode, this`issued, currentValues, motorsNumberOfRemainingSteps, directionPins, timer, timer.Arrays()
      ensures Sized() && Idle()
      ensures mode == old(mode) && currentValues[F] == old(currentValues[F])
      ensures DriveAt(0) == old(DriveAt(0)).(
                steps := old(issued[X]) + ClearedSteps(old(currentValues[X]), old(directionPins[X]), Scale(settings).x,
                                                       dx))
      ensures DriveAt(1) == old(DriveAt(1)).(
                steps := old(issued[Y]) + ClearedSteps(old(currentValues[Y]), old(directionPins[Y]), Scale(settings).y,
                                                       dy))
      ensures DriveAt(2) == old(DriveAt(2)) && DriveAt(3) == old(DriveAt(3))
    {
      var savedRemainingX, savedRemainingY := motorsNumberOfRemainingSteps[X], motorsNumberOfRemainingSteps[Y];
      var savedPinX, savedPinY := directionPins[X], directionPins[Y];
      var savedMode := mode;
      var savedX, savedY, savedF := currentValues[X], currentValues[Y], currentValues[F];
      MoveAside(dx, dy);
      mode := savedMode;
      RestoreXY(savedX, savedY, savedF, savedRemainingX, savedRemainingY, savedPinX, savedPinY);
    }

    /** Without the left-over fractions, in relative mode. */
    method MoveAside(dx: real, dy: real)
      requires Valid() && Idle()
      modifies this`mode, this`issued, currentValues, motorsNumberOfRemainingSteps, directionPins, timer, timer.Arrays()
      ensures Sized() && Idle()
      ensures issued[X] == old(issued[X]) + ClearedSteps(old(currentValues[X]), old(directionPins[X]),
                                                         Scale(settings).x, dx)
      ensures issued[Y] == old(issued[Y]) + ClearedSteps(old(currentValues[Y]), old(directionPins[Y]),
                                                         Scale(settings).y, dy)
      ensures DriveAt(2) == old(DriveAt(2)) && DriveAt(3) == old(DriveAt(3))
    {
      RestoreXY(currentValues[X], currentValues[Y], currentValues[F], 0.0, 0.0, directionPins[X], directionPins[Y]);
      mode := Relative;
      MoveByBacklash(dx, dy);
    }

    /** Sets position, feed rate, left-over fractions and direction pins of X and Y. */
    method RestoreXY(x: real, y: real, f: real, remainingX: real, remainingY: real, pinX: bool, pinY: bool)
      requires Valid()
      modifies currentValues, motorsNumberOfRemainingSteps, directionPins
      ensures DriveAt(0) == Drive(x, remainingX, pinX, issued[0]) && DriveAt(1) == Drive(y, remainingY, pinY, issued[1])
      ensures DriveAt(2) == old(DriveAt(2)) && DriveAt(3) == old(DriveAt(3)) && currentValues[F] == f
    {
      currentValues[X], currentValues[Y], currentValues[F] := x, y, f;
      motorsNumberOfRemainingSteps[X], motorsNumberOfRemainingSteps[Y] := remainingX, remainingY;
      directionPins[X], directionPins[Y] := pinX, pinY;
    }

    /** The relative movement of `compensateForBacklash`. */
    method MoveByBacklash(dx: real, dy: real)
      requires Valid() && Idle() && mode == Relative
      requires motorsNumberOfRemainingSteps[X] == 0.0 && motorsNumberOfRemainingSteps[Y] == 0.0
      modifies this`issued, currentValues, motorsNumberOfRemainingSteps, directionPins, timer, timer.Arrays()
      ensures Sized() && Idle()
      ensures issued[X] == old(issued[X]) + ClearedSteps(old(currentValues[X]), old(directionPins[X]),
                                                         Scale(settings).x, dx)
      ensures issued[Y] == old(issued[Y]) + ClearedSteps(old(currentValues[Y]), old(directionPins[Y]),
                                                         Scale(settings).y, dy)
      ensures DriveAt(2) == old(DriveAt(2)) && DriveAt(3) == old(DriveAt(3))
    {
      ghost var before := View();
      PerformMovement(MoveCode(Vec(Some(dx), Some(dy), Option.None, Option.None), Some(settings.backlashSpeed)));
      BacklashMove(before, settings, dx, dy, settings.backlashSpeed);
    }

    ghost function StartPoint(): Point
      requires Layout()
      reads startValues
    {
      Vec(startValues[X], startValues[Y], startValues[Z], startValues[E])
    }

    /** A movement without tasks to `to`, with both modes absolute. */
    method MoveTo(to: Point)
      requires Valid() && Idle() && mode == extruderMode == Absolute
      modifies this`issued, currentValues, motorsNumberOfRemainingSteps, directionPins, timer, timer.Arrays()
      ensures Sized() && Idle()
      ensures View() == old(View()).(drives := FirmwareMoved(Scale(settings), old(Drives()), to))
    {
      AbsoluteTarget(View(), to);
      PerformMovement(MoveCode(Vec(Some(to.x), Some(to.y), Some(to.z), Some(to.e)), Option.None));
    }

    /** Assigns the position without stepping. */
    method Place(p: Point)
      requires Valid()
      modifies currentValues
      ensures Drives() == Placed(old(Drives()), p) && currentValues[F] == old(currentValues[F])
    {
      currentValues[X], currentValues[Y], currentValues[Z], currentValues[E] := p.x, p.y, p.z, p.e;
    }

    /** The drives are on the way to `goal`, with the segments from `k` on still to come. */
    ghost predicate OnTheWay(ends: nat -> Point, k: nat, n: nat, goal: Vec<Drive>)
      requires Layout() && |issued| == 4 && k <= n + 1
      reads this, currentValues, motorsNumberOfRemainingSteps, directionPins
    {
      goal == if k <= n then Segments(env, Scale(settings), Drives(), ends, k, n) else Drives()
    }

    method MoveNextSegment(ends: nat -> Point, k: nat, n: nat, ghost goal: Vec<Drive>) returns (next: nat)
      requires Valid() && Idle() && Lawful(env) && mode == extruderMode == Absolute && k <= n
      requires OnTheWay(ends, k, n, goal)
      modifies this`issued, currentValues, motorsNumberOfRemainingSteps, directionPins, timer, timer.Arrays()
      ensures Sized() && Idle()
      ensures next == k + 1 && OnTheWay(ends, next, n, goal)
      ensures View() == old(View()).(drives := Drives())
    {
      LawfulMoved(env, Scale(settings), Drives(), ends(k));
      MoveTo(ends(k));
      next := k + 1;
    }

    /** The loop over the `n` segments that end at `ends(1)`, ..., `ends(n)`. */
    method MoveSegments(ends: nat -> Point, n: nat, ghost goal: Vec<Drive>)
      requires Valid() && Idle() && Lawful(env) && mode == extruderMode == Absolute && n >= 1
      requires OnTheWay(ends, 1, n, goal)
      modifies this`issued, currentValues, motorsNumberOfRemainingSteps, directionPins, timer, timer.Arrays()
      ensures Sized() && Idle()
      ensures View() == old(View()).(drives := goal)
    {
      ghost var start := View();
      var k: nat := 1;
      while k <= n
        invariant 1 <= k <= n + 1
        invariant Sized() && Idle() && mode == extruderMode == Absolute
        invariant View() == start.(drives := Drives())
        invariant OnTheWay(ends, k, n, goal)
      {
        k := MoveNextSegment(ends, k, n, goal);
      }
    }

    /** Goes to the real start, through the segments, and back to the logical end. */
    method MoveAlong(start: Point, ends: nat -> Point, n: nat, end: Point)
      requires Valid() && Idle() && Lawful(env) && mode == extruderMode == Absolute && n >= 1
      modifies this`issued, currentValues, motorsNumberOfRemainingSteps, directionPins, timer, timer.Arrays()
      ensures Sized() && Idle()
      ensures View() == old(View()).(
                drives := Placed(Segments(env, Scale(settings), Placed(old(Drives()), start), ends, 1, n), end))
    {
      Place(start);
      ghost var goal := Segments(env, Scale(settings), Drives(), ends, 1, n);
      MoveSegments(ends, n, goal);
      Place(end);
    }

    /** The movement from `startValues` to the current values through the real ends of its segments. */
    method SplitUpValues()
      requires Valid() && Idle() && Lawful(env) && mode == extruderMode == Absolute
      modifies this`issued, currentValues, motorsNumberOfRemainingSteps, directionPins, timer, timer.Arrays()
      ensures Sized() && Idle()
      ensures View() == old(View()).(drives := SplitUp(env, settings, old(Drives()), StartPoint(),
                                                       Position(old(View()))))
    {
      var start := Vec(startValues[X], startValues[Y], startValues[Z], startValues[E]);
      var end := Vec(currentValues[X], currentValues[Y], currentValues[Z], currentValues[E]);
      var distance := env.distance(start, end);
      var n := NumberOfSegments(distance);
      MoveAlong(RealPosition(env, settings.bed, start), SegmentEnds(env, settings.bed, start, end, distance, n), n,
                end);
    }

    /** The same with both modes absolute on the way. */
    method SplitUpAbsolute()
      requires Valid() && Idle() && Lawful(env)
      modifies this`mode, this`extruderMode, this`issued, currentValues, motorsNumberOfRemainingSteps, directionPins,
               timer, timer.Arrays()
      ensures Sized() && Idle()
      ensures View() == old(View()).(drives := SplitUp(env, settings, old(Drives()), StartPoint(),
                                                       Position(old(View()))))
    {
      var savedMode, savedExtruderMode := mode, extruderMode;
      mode, extruderMode := Absolute, Absolute;
      SplitUpValues();
      mode, extruderMode := savedMode, savedExtruderMode;
    }

    /**
     `splitUpMovement(true)`: the movement from `startValues` to the current values, segment by segment through the
     compensated positions. The logical position, the modes and the validities end as they were.
     */
    method SplitUpMovement()
      requires Valid() && Idle() && Lawful(env)
      modifies this`mode, this`extruderMode, this`issued, currentValues, motorsNumberOfRemainingSteps, directionPins,
               currentStateOfValues, timer, timer.Arrays()
      ensures Sized() && Idle()
      ensures View() == old(View()).(drives := SplitUp(env, settings, old(Drives()), StartPoint(),
                                                       Position(old(View()))))
      ensures currentStateOfValues[X] == old(currentStateOfValues[X])
              && currentStateOfValues[Y] == old(currentStateOfValues[Y])
      ensures currentStateOfValues[Z] == old(currentStateOfValues[Z])
    {
      var validX, validY, validZ := currentStateOfValues[X], currentStateOfValues[Y], currentStateOfValues[Z];
      SetValidities(false, false, false);
      SplitUpAbsolute();
      SetValidities(validX, validY, validZ);
    }

    method SetValidities(x: bool, y: bool, z: bool)
      requires Layout()
      modifies currentStateOfValues
      ensures currentStateOfValues[X] == x && currentStateOfValues[Y] == y && currentStateOfValues[Z] == z
    {
      currentStateOfValues[X], currentStateOfValues[Y], currentStateOfValues[Z] := x, y, z;
    }

    /** Limits X and Y of the new values to the printable region; the search through the tiers ends at the high tier. */
    method Bound(newValues: array<real>)
      requires Layout() && newValues.Length == 4
      modifies newValues
      ensures Vec(newValues[X], newValues[Y], newValues[Z], newValues[E])
              == Bounded(env, settings, old(Vec(newValues[X], newValues[Y], newValues[Z], newValues[E])))
    {
      ghost var target := Vec(newValues[X], newValues[Y], newValues[Z], newValues[E]);
      var tier: nat := 0;
      while true
        invariant 0 <= tier <= 2
        invariant target == Vec(newValues[X], newValues[Y], newValues[Z], newValues[E])
        invariant ChosenTier(env, settings, target, tier) == ChosenTier(env, settings, target, 0)
        decreases 2 - tier
      {
        var potentialX := ValueInRange(newValues[X], MinX(tier), MaxX(tier));
        var potentialY := ValueInRange(newValues[Y], MinY(tier), MaxY(tier));
        var potentialZ := newValues[Z] + env.level(settings.bed.corners, potentialX, potentialY);
        if tier >= TierAt(settings, potentialZ) {
          var skewX := env.skew(settings.bed, settings.bed.skewX, potentialZ);
          var skewY := env.skew(settings.bed, settings.bed.skewY, potentialZ);
          newValues[X] := ValueInRange(newValues[X], MinX(tier) - skewX, MaxX(tier) - skewX);
          newValues[Y] := ValueInRange(newValues[Y], MinY(tier) - skewY, MaxY(tier) - skewY);
          break;
        }
        tier := tier + 1;
      }
    }

    /** The first pass of a received movement for motor `i`, whose recorded direction is `recorded`. */
    method PlanMotor(i: nat, newValue: real, recorded: bool) returns (ok: bool, direction: BacklashDirection)
      requires Valid() && Lawful(env) && i < 4
      modifies currentValues, currentStateOfValues
      ensures currentValues[F] == old(currentValues[F])
      ensures forall k :: 0 <= k < 4 && k != i ==> currentValues[k] == old(currentValues[k])
      ensures ok == !MotorTooBig(env, old(DriveAt(i)), Scale(settings).At(i), newValue)
      ensures ok ==> currentValues[i] == newValue
      ensures ok ==> direction == BacklashFor(env, old(DriveAt(i)), Scale(settings).At(i), newValue, recorded)
    {
      ok, direction := true, NoDirection;
      if newValue != currentValues[i] {
        var lowerNewValue := newValue < currentValues[i];
        PlannedAlike(env, DriveAt(i), Scale(settings).At(i), newValue);
        var total := env.planned(Drive(currentValues[i], motorsNumberOfRemainingSteps[i], directionPins[i], 0),
                                 Scale(settings).At(i), newValue);
        if total >= 1.0 {
          if total > UINT32_MAX as real {
            return false, NoDirection;
          }
          if recorded == lowerNewValue {
            direction := if lowerNewValue then Negative else Positive;
          }
          if i != E {
            currentStateOfValues[i] := false;
          }
        }
        currentValues[i] := newValue;
      }
    }

    /**
     The first pass of a received movement: refuses it if a motor cannot count its steps, and otherwise assigns the new
     values and finds where backlash has to be taken up.
     */
    method PlanMotors(newValues: array<real>)
        returns (ok: bool, directionX: BacklashDirection, directionY: BacklashDirection)
      requires Valid() && Lawful(env) && newValues.Length == 4 && newValues !in Arrays()
      requires forall i :: 0 <= i < 4 ==> startValues[i] == currentValues[i]
      modifies currentValues, currentStateOfValues
      ensures currentValues[F] == old(currentValues[F])
      ensures ok <==> forall i :: 0 <= i < 4 ==> !MotorTooBig(env, old(DriveAt(i)), Scale(settings).At(i), newValues[i])
      ensures forall i :: 0 <= i < 4 ==> currentValues[i] == if ok then newValues[i] else old(currentValues[i])
      ensures ok ==> directionX == BacklashFor(env, old(DriveAt(0)), Scale(settings).At(0), newValues[X],
                                               currentMotorDirections[X])
      ensures ok ==> directionY == BacklashFor(env, old(DriveAt(1)), Scale(settings).At(1), newValues[Y],
                                               currentMotorDirections[Y])
    {
      directionX, directionY := NoDirection, NoDirection;
      for i := 4 downto 0
        invariant currentValues[F] == old(currentValues[F])
        invariant forall k :: 0 <= k < i ==> currentValues[k] == old(currentValues[k])
        invariant forall k :: i <= k < 4 ==> currentValues[k] == newValues[k]
        invariant forall k :: i <= k < 4 ==> !MotorTooBig(env, old(DriveAt(k)), Scale(settings).At(k), newValues[k])
        invariant i <= X ==> directionX == BacklashFor(env, old(DriveAt(0)), Scale(settings).At(0), newValues[X],
                                                       currentMotorDirections[X])
        invariant i <= Y ==> directionY == BacklashFor(env, old(DriveAt(1)), Scale(settings).At(1), newValues[Y],
                                                       currentMotorDirections[Y])
      {
        assert DriveAt(i) == old(DriveAt(i));
        var direction;
        ok, direction := PlanMotor(i, newValues[i], i < 2 && currentMotorDirections[i]);
        if !ok {
          RestoreStart();
          return;
        }
        if i == X {
          directionX := direction;
        } else if i == Y {
          directionY := direction;
        }
      }
      ok := true;
    }

    method RestoreStart()
      requires Layout()
      modifies currentValues
      ensures forall i :: 0 <= i < 4 ==> currentValues[i] == startValues[i]
      ensures currentValues[F] == old(currentValues[F])
    {
      currentValues[X], currentValues[Y], currentValues[Z], currentValues[E] := startValues[X], startValues[Y],
          startValues[Z], startValues[E];
    }

    /** Takes up backlash, moves, and records the new directions. */
    method ExecuteMovement(directionX: BacklashDirection, directionY: BacklashDirection)
      requires Valid() && Idle() && Lawful(env)
      modifies this`mode, this`extruderMode, this`issued, this`backlash, currentValues, motorsNumberOfRemainingSteps,
               directionPins, currentStateOfValues, currentMotorDirections,
               timer, timer.Arrays()
      ensures Sized() && Idle()
      ensures View() == Executed(env, settings, old(View()), StartPoint(), directionX, directionY)
      ensures currentStateOfValues[X] == old(currentStateOfValues[X])
              && currentStateOfValues[Y] == old(currentStateOfValues[Y])
      ensures currentStateOfValues[Z] == old(currentStateOfValues[Z])
    {
      TakeUpBacklash(directionX, directionY);
      SplitUpMovement();
      RecordDirections(directionX, directionY);
    }

    /** Compensates for backlash if there is any to take up. */
    method TakeUpBacklash(directionX: BacklashDirection, directionY: BacklashDirection)
      requires Valid() && Idle() && Lawful(env)
      modifies this`mode, this`issued, this`backlash, currentValues, motorsNumberOfRemainingSteps, directionPins,
               timer, timer.Arrays()
      ensures Sized() && Idle()
      ensures View() == WithBacklash(env, settings, old(View()), directionX, directionY)
    {
      BacklashByLaw(env, settings, View(), directionX, directionY);
      if !directionX.NoDirection? || !directionY.NoDirection? {
        CompensateForBacklash(directionX, directionY);
      }
    }

    method RecordDirections(directionX: BacklashDirection, directionY: BacklashDirection)
      requires Layout()
      modifies currentMotorDirections
      ensures currentMotorDirections[X] == Recorded(directionX, old(currentMotorDirections[X]))
      ensures currentMotorDirections[Y] == Recorded(directionY, old(currentMotorDirections[Y]))
    {
      if !directionX.NoDirection? {
        currentMotorDirections[X] := directionX.Positive?;
      }
      if !directionY.NoDirection? {
        currentMotorDirections[Y] := directionY.Positive?;
      }
    }

    /** Remembers the start of a received movement and sets its feed rate. */
    method BeginMovement(gcode: MoveCode)
      requires Valid()
      modifies startValues, currentValues
      ensures StartPoint() == Position(old(View()))
      ensures forall i :: 0 <= i < 4 ==> startValues[i] == currentValues[i]
      ensures View() == WithFeedRate(old(View()), gcode)
    {
      startValues[X], startValues[Y], startValues[Z], startValues[E] := currentValues[X], currentValues[Y],
          currentValues[Z], currentValues[E];
      if gcode.f.Some? {
        currentValues[F] := Millimetres(units, gcode.f.value);
      }
    }

    /** The bounded values a received command asks for. */
    method TargetValues(gcode: MoveCode) returns (newValues: array<real>)
      requires Valid()
      ensures fresh(newValues) && newValues.Length == 4
      ensures Vec(newValues[X], newValues[Y], newValues[Z], newValues[E]) == Target(env, settings, View(), gcode)
    {
      newValues := NewValues(gcode, true);
      Bound(newValues);
    }

    /** The first pass, in the terms of `Motion`. */
    method FirstPass(newValues: array<real>)
        returns (ok: bool, directionX: BacklashDirection, directionY: BacklashDirection)
      requires Valid() && Lawful(env) && newValues.Length == 4 && newValues !in Arrays()
      requires forall i :: 0 <= i < 4 ==> startValues[i] == currentValues[i]
      modifies currentValues, currentStateOfValues
      ensures var target := Vec(newValues[X], newValues[Y], newValues[Z], newValues[E]);
              && ok == !TooBig(env, settings, old(Drives()), target)
              && View() == (if ok then old(View()).(drives := Placed(old(Drives()), target)) else old(View()))
              && (ok ==> directionX == BacklashFor(env, old(Drives()).x, Scale(settings).x, target.x,
                                                   old(View()).directionX))
              && (ok ==> directionY == BacklashFor(env, old(Drives()).y, Scale(settings).y, target.y,
                                                   old(View()).directionY))
    {
      ok, directionX, directionY := PlanMotors(newValues);
    }

    /** A received movement to `newValues`: it is refused without a trace, or executed. */
    method PerformTasks(newValues: array<real>) returns (ok: bool)
      requires Valid() && Idle() && Lawful(env) && newValues.Length == 4 && newValues !in Arrays()
      requires forall i :: 0 <= i < 4 ==> startValues[i] == currentValues[i]
      modifies this`mode, this`extruderMode, this`issued, this`backlash, currentValues, motorsNumberOfRemainingSteps,
               directionPins, currentStateOfValues, currentMotorDirections,
               timer, timer.Arrays()
      ensures Sized() && Idle() && settings == old(settings)
      ensures var target := Vec(newValues[X], newValues[Y], newValues[Z], newValues[E]);
              && ok == !TooBig(env, settings, old(Drives()), target)
              && View() == if ok then Accepted(env, settings, old(View()), target) else old(View())
    {
      ghost var before := View();
      ghost var target := Vec(newValues[X], newValues[Y], newValues[Z], newValues[E]);
      var directionX, directionY;
      assert StartPoint() == Position(before);
      ok, directionX, directionY := FirstPass(newValues);
      if ok {
        ExecutePlanned(before, target, directionX, directionY);
      }
    }

    /** Executes the movement from `before` to `target` that the first pass has planned. */
    method ExecutePlanned(ghost before: State, ghost target: Point, directionX: BacklashDirection,
                          directionY: BacklashDirection)
      requires Valid() && Idle() && Lawful(env)
      requires View() == before.(drives := Placed(before.drives, target)) && StartPoint() == Position(before)
      requires directionX == BacklashFor(env, before.drives.x, Scale(settings).x, target.x, before.directionX)
      requires directionY == BacklashFor(env, before.drives.y, Scale(settings).y, target.y, before.directionY)
      modifies this`mode, this`extruderMode, this`issued, this`backlash, currentValues, motorsNumberOfRemainingSteps,
               directionPins, currentStateOfValues, currentMotorDirections,
               timer, timer.Arrays()
      ensures Sized() && Idle() && settings == old(settings)
      ensures View() == Accepted(env, settings, before, target)
    {
      ExecutedIsAccepted(env, settings, before, target);
      ExecuteMovement(directionX, directionY);
    }

    /** The start of a received movement, and the values it asks for. */
    method PrepareMovement(gcode: MoveCode) returns (newValues: array<real>, ghost fed: State, ghost target: Point)
      requires Valid() && Idle()
      modifies startValues, currentValues
      ensures Idle() && settings == old(settings) && fresh(newValues) && newValues.Length == 4
      ensures forall i :: 0 <= i < 4 ==> startValues[i] == currentValues[i]
      ensures View() == fed && Vec(newValues[X], newValues[Y], newValues[Z], newValues[E]) == target
      ensures fed == WithFeedRate(old(View()), gcode) && target == Target(env, settings, fed, gcode)
    {
      fed := WithFeedRate(View(), gcode);
      BeginMovement(gcode);
      newValues := TargetValues(gcode);
      target := Target(env, settings, fed, gcode);
    }

    /** `PerformTasks` on a state and a target that are known by name, and so are the two ways it can end. */
    method PerformPlanned(newValues: array<real>, ghost fed: State, ghost target: Point, ghost refused: bool,
                          ghost done: State)
      returns (ok: bool)
      requires Valid() && Idle() && Lawful(env) && newValues.Length == 4 && newValues !in Arrays()
      requires forall i :: 0 <= i < 4 ==> startValues[i] == currentValues[i]
      requires View() == fed && Vec(newValues[X], newValues[Y], newValues[Z], newValues[E]) == target
      requires refused == TooBig(env, settings, fed.drives, target)
               && done == if refused then fed else Accepted(env, settings, fed, target)
      modifies this`mode, this`extruderMode, this`issued, this`backlash, currentValues, motorsNumberOfRemainingSteps,
               directionPins, currentStateOfValues, currentMotorDirections,
               timer, timer.Arrays()
      ensures Sized() && Idle() && ok == !refused && View() == done
    {
      ok := PerformTasks(newValues);
    }

    /** A received movement but for the validities. */
    method ReceiveMovement(gcode: MoveCode, ghost refused: bool, ghost done: State) returns (ok: bool)
      requires Valid() && Idle() && Lawful(env)
      requires refused == Refused(env, settings, View(), gcode) && done == Received(env, settings, View(), gcode)
      modifies this`mode, this`extruderMode, this`issued, this`backlash, startValues, currentValues,
               motorsNumberOfRemainingSteps, directionPins, currentStateOfValues, currentMotorDirections,
               timer, timer.Arrays()
      ensures Sized() && Idle() && ok == !refused && View() == done
    {
      var newValues, fed, target := PrepareMovement(gcode);
      ok := PerformPlanned(newValues, fed, target, refused, done);
    }

    /** A received movement whose two possible ends are known by name. */
    method MoveKnown(gcode: MoveCode, ghost refused: bool, ghost done: State) returns (ok: bool)
      requires Valid() && Idle() && Lawful(env)
      requires refused == Refused(env, settings, View(), gcode) && done == Received(env, settings, View(), gcode)
      modifies this`mode, this`extruderMode, this`issued, this`backlash, startValues, currentValues,
               motorsNumberOfRemainingSteps, directionPins, currentStateOfValues, currentMotorDirections,
               timer, timer.Arrays()
      ensures Sized() && Idle() && ok == !refused && View() == done && settings == old(settings)
      ensures currentStateOfValues[X] == old(currentStateOfValues[X])
              && currentStateOfValues[Y] == old(currentStateOfValues[Y])
      ensures currentStateOfValues[Z] == old(currentStateOfValues[Z])
    {
      var validX, validY, validZ := currentStateOfValues[X], currentStateOfValues[Y], currentStateOfValues[Z];
      ok := ReceiveMovement(gcode, refused, done);
      SetValidities(validX, validY, validZ);
    }

    /** `move(gcode)` for a received command. */
    method Move(gcode: MoveCode) returns (ok: bool)
      requires Valid() && Idle() && Lawful(env)
      modifies this`mode, this`extruderMode, this`issued, this`backlash, startValues, currentValues,
               motorsNumberOfRemainingSteps, directionPins, currentStateOfValues, currentMotorDirections,
               timer, timer.Arrays()
      ensures Sized() && Idle()
      ensures View() == Received(env, settings, old(View()), gcode)
      ensures ok == !Refused(env, settings, old(View()), gcode)
      ensures currentStateOfValues[X] == old(currentStateOfValues[X])
              && currentStateOfValues[Y] == old(currentStateOfValues[Y])
      ensures currentStateOfValues[Z] == old(currentStateOfValues[Z])
    {
      ghost var cfg, st := settings, View();
      ok := MoveKnown(gcode, Refused(env, cfg, st, gcode), Received(env, cfg, st, gcode));
    }

    /** A run of received commands. */
    method MoveAll(gcodes: seq<MoveCode>)
      requires Valid() && Idle() && Lawful(env)
      modifies this`mode, this`extruderMode, this`issued, this`backlash, startValues, currentValues,
               motorsNumberOfRemainingSteps, directionPins, currentStateOfValues, currentMotorDirections,
               timer, timer.Arrays()
      ensures Sized() && Idle() && settings == old(settings)
      ensures View() == Run(env, settings, old(View()), gcodes)
    {
      ghost var cfg, start := settings, View();
      ghost var states := RunStates(env, cfg, start, gcodes);
      MoveThrough(gcodes, states);
    }

    /** The same, with the states of the run known by name. */
    method MoveThrough(gcodes: seq<MoveCode>, ghost states: seq<State>)
      requires Valid() && Idle() && Lawful(env) && AreRun(env, settings, gcodes, states) && View() == states[0]
      modifies this`mode, this`extruderMode, this`issued, this`backlash, startValues, currentValues,
               motorsNumberOfRemainingSteps, directionPins, currentStateOfValues, currentMotorDirections,
               timer, timer.Arrays()
      ensures Sized() && Idle() && View() == states[|gcodes|] && settings == old(settings)
    {
      for i := 0 to |gcodes|
        invariant Sized() && Idle() && View() == states[i]
      {
        MoveNext(gcodes[i], states[i], states[i + 1]);
      }
    }

    /** One command of a run, from `before` to `after`. */
    method MoveNext(gcode: MoveCode, ghost before: State, ghost after: State)
      requires Valid() && Idle() && Lawful(env) && View() == before && Leads(env, settings, before, gcode, after)
      modifies this`mode, this`extruderMode, this`issued, this`backlash, startValues, currentValues,
               motorsNumberOfRemainingSteps, directionPins, currentStateOfValues, currentMotorDirections,
               timer, timer.Arrays()
      ensures Sized() && Idle() && View() == after
    {
      var ok := MoveKnown(gcode, Refused(env, settings, before, gcode), after);
    }

    /**
     `updateBedChanges`: caches the bed settings `bed` read from EEPROM; `affectValues` also moves the logical position
     so that the nozzle stays where it is.
     */
    method UpdateBedChanges(bed: BedSettings, affectValues: bool)
      requires Valid()
      modifies this`settings, currentValues
      ensures settings == old(settings).(bed := bed)
      ensures View() == old(View()).(
                drives := if affectValues then Placed(old(Drives()),
                                                      UpdatedPosition(env.level, old(settings.bed), bed,
                                                                      Position(old(View()))))
                          else old(Drives()))
    {
      var heightAdjustment := env.level(settings.bed.corners, currentValues[X], currentValues[Y]);
      var previousHeightAdjustment := heightAdjustment + settings.bed.heightOffset;
      var previousSkewX := SkewAdjustment(settings.bed, settings.bed.skewX, currentValues[Z] + heightAdjustment);
      var previousSkewY := SkewAdjustment(settings.bed, settings.bed.skewY, currentValues[Z] + heightAdjustment);
      settings := settings.(bed := bed);
      if affectValues {
        heightAdjustment := env.level(bed.corners, currentValues[X], currentValues[Y]);
        var z := currentValues[Z] + (previousHeightAdjustment - heightAdjustment - bed.heightOffset);
        Place(Vec(currentValues[X] + (previousSkewX - SkewAdjustment(bed, bed.skewX, z + heightAdjustment)),
                  currentValues[Y] + (previousSkewY - SkewAdjustment(bed, bed.skewY, z + heightAdjustment)), z,
                  currentValues[E]));
      }
    }
  }

  predicate Leads(env: Env, cfg: Settings, before: State, gcode: MoveCode, after: State) {
    after == Received(env, cfg, before, gcode)
  }

  /** `states` are the states of a run of `gcodes`. */
  ghost predicate AreRun(env: Env, cfg: Settings, gcodes: seq<MoveCode>, states: seq<State>) {
    && |states| == |gcodes| + 1
    && forall i :: 0 <= i < |gcodes| ==> Leads(env, cfg, states[i], gcodes[i], states[i + 1])
  }

  lemma {:induction false} RunStates(env: Env, cfg: Settings, st: State, gcodes: seq<MoveCode>)
      returns (states: seq<State>)
    ensures AreRun(env, cfg, gcodes, states) && states[0] == st && states[|gcodes|] == Run(env, cfg, st, gcodes)
    decreases |gcodes|
  {
    if gcodes == [] {
      states := [st];
    } else {
      var before, last := gcodes[..|gcodes| - 1], gcodes[|gcodes| - 1];
      var states' := RunStates(env, cfg, st, before);
      assert gcodes == before + [last];
      states := OneMoreState(env, cfg, before, states', last, Run(env, cfg, st, gcodes));
    }
  }

  lemma OneMoreState(env: Env, cfg: Settings, gcodes: seq<MoveCode>, states: seq<State>, last: MoveCode, after: State)
    returns (more: seq<State>)
    requires AreRun(env, cfg, gcodes, states) && Leads(env, cfg, states[|gcodes|], last, after)
    ensures AreRun(env, cfg, gcodes + [last], more) && more[0] == states[0] && more[|gcodes| + 1] == after
  {
    more := states + [after];
  }

  /** Executing a movement whose new values are assigned is what `Motion` calls accepting it. */
  lemma ExecutedIsAccepted(env: Env, cfg: Settings, st: State, target: Point)
    requires Lawful(env)
    ensures Executed(env, cfg, st.(drives := Placed(st.drives, target)), Position(st),
                     BacklashFor(env, st.drives.x, Scale(cfg).x, target.x, st.directionX),
                     BacklashFor(env, st.drives.y, Scale(cfg).y, target.y, st.directionY))
            == Accepted(env, cfg, st, target)
  {
    var d, s := st.drives, Scale(cfg);
    BacklashChoice(env, d.x, s.x, target.x, st.directionX, cfg.backlashX);
    BacklashChoice(env, d.y, s.y, target.y, st.directionY, cfg.backlashY);
    SplitUpPlaced(env, cfg, d, target, Position(st), target);
  }

  lemma SplitUpPlaced(env: Env, cfg: Settings, d: Vec<Drive>, p: Point, start: Point, end: Point)
    ensures SplitUp(env, cfg, Placed(d, p), start, end) == SplitUp(env, cfg, d, start, end)
  {
    PlacedTwice(d, p, RealPosition(env, cfg.bed, start));
  }

  lemma PlacedTwice(d: Vec<Drive>, p: Point, q: Point)
    ensures Placed(Placed(d, p), q) == Placed(d, q)
  {
  }

  lemma BacklashChoice(env: Env, m: Drive, scale: real, to: real, direction: bool, backlash: real)
    requires Lawful(env)
    ensures BacklashSteps(env, to, m.pin, scale, BacklashDistance(BacklashFor(env, m, scale, to, direction), backlash))
            == TakenUp(env, m, scale, to, direction, backlash)
    ensures Recorded(BacklashFor(env, m, scale, to, direction), direction) == NewDirection(env, m, scale, to, direction)
  {
    LawfulAt(env, Drive(to, 0.0, m.pin, 0), scale, to + 0.0);
  }

  function Recorded(d: BacklashDirection, direction: bool): bool {
    if d.NoDirection? then direction else d.Positive?
  }

  /** The state after backlash has been taken up. */
  function WithBacklash(env: Env, cfg: Settings, st: State, directionX: BacklashDirection,
                        directionY: BacklashDirection): State {
    var x, y := st.drives.x, st.drives.y;
    st.(backlashX := st.backlashX + BacklashSteps(env, x.value, x.pin, Scale(cfg).x,
                                                  BacklashDistance(directionX, cfg.backlashX)),
        backlashY := st.backlashY + BacklashSteps(env, y.value, y.pin, Scale(cfg).y,
                                                  BacklashDistance(directionY, cfg.backlashY)))
  }

  lemma BacklashByLaw(env: Env, cfg: Settings, st: State, directionX: BacklashDirection, directionY: BacklashDirection)
    requires Lawful(env)
    ensures var x, y := st.drives.x, st.drives.y;
            WithBacklash(env, cfg, st, directionX, directionY)
            == st.(backlashX := st.backlashX + ClearedSteps(x.value, x.pin, Scale(cfg).x,
                                                            BacklashDistance(directionX, cfg.backlashX)),
                   backlashY := st.backlashY + ClearedSteps(y.value, y.pin, Scale(cfg).y,
                                                            BacklashDistance(directionY, cfg.backlashY)))
    ensures directionX.NoDirection? && directionY.NoDirection? ==>
            WithBacklash(env, cfg, st, directionX, directionY) == st
  {
    var x, y := st.drives.x, st.drives.y;
    LawfulAt(env, Drive(x.value, 0.0, x.pin, 0), Scale(cfg).x, x.value + BacklashDistance(directionX, cfg.backlashX));
    LawfulAt(env, Drive(y.value, 0.0, y.pin, 0), Scale(cfg).y, y.value + BacklashDistance(directionY, cfg.backlashY));
  }

  /** The state after backlash, segments from `start`, and recorded directions. */
  function Executed(env: Env, cfg: Settings, st: State, start: Point, directionX: BacklashDirection,
                    directionY: BacklashDirection): State {
    WithBacklash(env, cfg, st, directionX, directionY).(
      drives := SplitUp(env, cfg, st.drives, start, Position(st)),
      directionX := Recorded(directionX, st.directionX),
      directionY := Recorded(directionY, st.directionY))
  }

  lemma AbsoluteTarget(st: State, p: Point)
    requires st.mode == st.extruderMode == Absolute
    ensures RequestedPoint(st.(units := Millimeters),
                           MoveCode(Vec(Some(p.x), Some(p.y), Some(p.z), Some(p.e)), Option.None)) == p
  {
  }

  /** What the relative movement of `compensateForBacklash` does to the four motors. */
  lemma BacklashMove(st: State, cfg: Settings, dx: real, dy: real, speed: real)
    requires st.mode == Relative && st.drives.x.remaining == 0.0 && st.drives.y.remaining == 0.0
    ensures var gcode := MoveCode(Vec(Some(dx), Some(dy), Option.None, Option.None), Some(speed));
            var fed := st.(feedRate := speed);
            var d := FirmwareMoved(Scale(cfg), fed.drives, RequestedPoint(fed.(units := Millimeters), gcode));
            && d.x.steps == st.drives.x.steps + ClearedSteps(st.drives.x.value, st.drives.x.pin, Scale(cfg).x, dx)
            && d.y.steps == st.drives.y.steps + ClearedSteps(st.drives.y.value, st.drives.y.pin, Scale(cfg).y, dy)
            && d.z == st.drives.z && d.e == st.drives.e
  {
    var x, y := st.drives.x, st.drives.y;
    StepsAdded(x, Scale(cfg).x, dx + x.value);
    StepsAdded(y, Scale(cfg).y, dy + y.value);
    assert x.(steps := 0) == Drive(x.value, 0.0, x.pin, 0) && y.(steps := 0) == Drive(y.value, 0.0, y.pin, 0);
  }
}
