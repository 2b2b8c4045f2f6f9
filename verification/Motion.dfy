/**
 The movement functions of motors.cpp on values: what a movement without tasks does to one motor, how a received
 movement is bounded, compensated for backlash and split into segments. Directions are recorded as `true` for increasing
 values.
 */
module Motion {
  import opened Options
  import opened Arithmetic
  import opened BedSurface
  import opened Bed
  import opened Planner

  const SEGMENT_LENGTH := 2.0
  const INCHES_TO_MILLIMETERS := 25.4

  datatype Mode = Relative | Absolute

  datatype Units = Millimeters | Inches

  /** The EEPROM settings a movement reads, with the cached bed settings. */
  datatype Settings = Settings(stepsPerMm: Vec<real>, backlashX: real, backlashY: real, backlashSpeed: real,
                               speedLimits: Vec<real>, retractSpeedLimit: real, expandPrintableRegion: bool,
                               bed: BedSettings)

  /** The parameters of a movement command. */
  datatype MoveCode = MoveCode(motors: Vec<Option<real>>, f: Option<real>)

  /**
   One motor: its position, the fraction of a step left over, its direction pin, and the steps issued with their sign.
   */
  datatype Drive = Drive(value: real, remaining: real, pin: bool, steps: int)

  /** The state a movement changes, with the signed backlash steps issued so far. */
  datatype State = State(drives: Vec<Drive>, feedRate: real, directionX: bool, directionY: bool,
                         mode: Mode, extruderMode: Mode, units: Units, backlashX: int, backlashY: int)

  /**
   The numeric functions a movement is built from. `Firmware` gives the ones of the repository; the structure of a
   movement is stated over any of them.
   */
  datatype Env = Env(distance: (Point, Point) -> real, level: Levelling, skew: (BedSettings, real, real) -> real,
                     step: (Drive, real, real) -> Drive, planned: (Drive, real, real) -> real)

  function Firmware(sqrt: real -> real): Env {
    Env((a, b) => HorizontalDistance(sqrt, a, b), FirmwareLevelling(sqrt), (b, k, h) => SkewAdjustment(b, k, h),
        (m, k, t) => Step(m, k, t), (m, k, t) => TotalSteps(m, k, t))
  }

  function Position(st: State): Point {
    Vec(st.drives.x.value, st.drives.y.value, st.drives.z.value, st.drives.e.value)
  }

  /** The drives moved to another position without stepping, as when `currentValues` is assigned. */
  function Placed(drives: Vec<Drive>, p: Point): Vec<Drive> {
    Vec(drives.x.(value := p.x), drives.y.(value := p.y), drives.z.(value := p.z), drives.e.(value := p.e))
  }

  /** Microsteps per millimetre. */
  function Scale(cfg: Settings): Vec<real> {
    Vec(cfg.stepsPerMm.x * MICROSTEPS_PER_STEP, cfg.stepsPerMm.y * MICROSTEPS_PER_STEP,
        cfg.stepsPerMm.z * MICROSTEPS_PER_STEP, cfg.stepsPerMm.e * MICROSTEPS_PER_STEP)
  }

  // ---- One motor

  /** Steps, with fraction, that a movement to `to` asks of a motor. */
  function TotalSteps(m: Drive, scale: real, to: real): real {
    Abs(to - m.value) * scale + if m.pin != (to >= m.value) then -m.remaining else m.remaining
  }

  /** The steps made before do not matter. */
  lemma TotalAlike(m: Drive, scale: real, to: real)
    ensures TotalSteps(m.(steps := 0), scale, to) == TotalSteps(m, scale, to)
  {
  }

  /** Whole steps a movement issues. */
  function StepCount(m: Drive, scale: real, to: real): uint32 {
    var total := TotalSteps(m, scale, to);
    if to != m.value && total >= 1.0 then ToUint32(total) else 0
  }

  /** What `move(gcode, NO_TASK)` does to one motor. */
  function Step(m: Drive, scale: real, to: real): Drive {
    if to == m.value then m
    else
      var n: int := StepCount(m, scale, to);
      Drive(to, TotalSteps(m, scale, to) - n as real, to > m.value, m.steps + if to > m.value then n else -n)
  }

  /** The same from the number of steps. */
  lemma StepFrom(m: Drive, scale: real, to: real, total: real, n: uint32)
    requires to != m.value && total == TotalSteps(m, scale, to) && n == (if total >= 1.0 then ToUint32(total) else 0)
    ensures StepCount(m, scale, to) == n
    ensures Step(m, scale, to)
            == Drive(to, total - n as real, !(to < m.value), m.steps + if to < m.value then -(n as int) else n)
  {
  }

  /** Steps of a motor at `at` whose left-over fraction is cleared, over `distance`. */
  function ClearedSteps(at: real, pin: bool, scale: real, distance: real): int {
    Step(Drive(at, 0.0, pin, 0), scale, at + distance).steps
  }

  /** The steps a movement adds do not depend on the steps made before. */
  lemma StepsAdded(m: Drive, scale: real, to: real)
    ensures Step(m, scale, to).steps == m.steps + Step(m.(steps := 0), scale, to).steps
  {
    assert TotalSteps(m, scale, to) == TotalSteps(m.(steps := 0), scale, to);
  }

  // ---- A movement without tasks, and its segments

  function Moved(env: Env, scale: Vec<real>, drives: Vec<Drive>, to: Point): Vec<Drive> {
    Vec(env.step(drives.x, scale.x, to.x), env.step(drives.y, scale.y, to.y),
        env.step(drives.z, scale.z, to.z), env.step(drives.e, scale.e, to.e))
  }

  /** The same with the firmware's own step function. */
  function FirmwareMoved(scale: Vec<real>, drives: Vec<Drive>, to: Point): Vec<Drive> {
    Vec(Step(drives.x, scale.x, to.x), Step(drives.y, scale.y, to.y), Step(drives.z, scale.z, to.z),
        Step(drives.e, scale.e, to.e))
  }

  /** Names a movement of a motor, so that `Lawful` is used only where it is asked for. */
  ghost predicate Asked(env: Env, m: Drive, scale: real, to: real) {
    true
  }

  /** The step functions are the firmware's. */
  ghost predicate Lawful(env: Env) {
    forall m: Drive, scale: real, to: real {:trigger Asked(env, m, scale, to)} ::
      Asked(env, m, scale, to) ==>
          env.step(m, scale, to) == Step(m, scale, to) && env.planned(m, scale, to) == TotalSteps(m, scale, to)
  }

  lemma FirmwareLawful(sqrt: real -> real)
    ensures Lawful(Firmware(sqrt))
  {
  }

  lemma LawfulAt(env: Env, m: Drive, scale: real, to: real)
    requires Lawful(env)
    ensures env.step(m, scale, to) == Step(m, scale, to) && env.planned(m, scale, to) == TotalSteps(m, scale, to)
  {
    assert Asked(env, m, scale, to);
  }

  /** The steps made before do not matter for the steps planned. */
  lemma PlannedAlike(env: Env, m: Drive, scale: real, to: real)
    requires Lawful(env)
    ensures env.planned(m.(steps := 0), scale, to) == env.planned(m, scale, to)
  {
    LawfulAt(env, m, scale, to);
    LawfulAt(env, m.(steps := 0), scale, to);
  }

  lemma LawfulMoved(env: Env, scale: Vec<real>, drives: Vec<Drive>, to: Point)
    requires Lawful(env)
    ensures Moved(env, scale, drives, to) == FirmwareMoved(scale, drives, to)
  {
    LawfulAt(env, drives.x, scale.x, to.x);
    LawfulAt(env, drives.y, scale.y, to.y);
    LawfulAt(env, drives.z, scale.z, to.z);
    LawfulAt(env, drives.e, scale.e, to.e);
  }

  /** The drives after the segments `k` to `n` that end at `ends(k)`, ..., `ends(n)`. */
  function Segments(env: Env, scale: Vec<real>, drives: Vec<Drive>, ends: nat -> Point, k: nat, n: nat): Vec<Drive>
    requires k <= n
    decreases n - k
  {
    var next := Moved(env, scale, drives, ends(k));
    if k == n then next else Segments(env, scale, next, ends, k + 1, n)
  }

  // ---- Compensation and splitting

  /**
   Where the nozzle has to be for the logical position `p`: height adjustment first, then skew at the adjusted height.
   */
  function RealPosition(env: Env, bed: BedSettings, p: Point): Point {
    var z := p.z + env.level(bed.corners, p.x, p.y);
    Vec(p.x + env.skew(bed, bed.skewX, z), p.y + env.skew(bed, bed.skewY, z), z, p.e)
  }

  function HorizontalDistance(sqrt: real -> real, a: Point, b: Point): real {
    sqrt(Squared(a, b))
  }

  /** Squared horizontal distance. */
  function Squared(a: Point, b: Point): real {
    (b.x - a.x) * (b.x - a.x) + (b.y - a.y) * (b.y - a.y)
  }

  /** `minimumOneCeil(distance / SEGMENT_LENGTH)`. */
  function NumberOfSegments(distance: real): (n: uint32)
    ensures n >= 1
  {
    ToUint32(ValueInRange(Ceil(distance / SEGMENT_LENGTH) as real, 1.0, UINT32_MAX as real))
  }

  function SegmentValue(start: real, end: real, distance: real, k: nat, n: nat): real {
    if k != n then start + k as real * SEGMENT_LENGTH * (if distance != 0.0 then (end - start) / distance else 0.0)
    else end
  }

  /** The logical end of segment `k` of `n`. */
  function SegmentPoint(start: Point, end: Point, distance: real, k: nat, n: nat): Point {
    Vec(SegmentValue(start.x, end.x, distance, k, n), SegmentValue(start.y, end.y, distance, k, n),
        SegmentValue(start.z, end.z, distance, k, n), SegmentValue(start.e, end.e, distance, k, n))
  }

  /** The real ends of the `n` segments of a movement. */
  function SegmentEnds(env: Env, bed: BedSettings, start: Point, end: Point, distance: real, n: nat): nat -> Point {
    (k: nat) => RealPosition(env, bed, SegmentPoint(start, end, distance, k, n))
  }

  /** `splitUpMovement(true)` from `start` to `end`. */
  function SplitUp(env: Env, cfg: Settings, drives: Vec<Drive>, start: Point, end: Point): Vec<Drive> {
    var d := env.distance(start, end);
    var n := NumberOfSegments(d);
    Placed(Segments(env, Scale(cfg), Placed(drives, RealPosition(env, cfg.bed, start)),
                    SegmentEnds(env, cfg.bed, start, end, d, n), 1, n),
           end)
  }

  // ---- Bounding

  function MinX(tier: nat): real {
    if tier == 0 then -2.0 else if tier == 1 then -2.0 else 7.0
  }

  function MaxX(tier: nat): real {
    if tier == 0 then 106.0 else if tier == 1 then 106.0 else 97.0
  }

  function MinY(tier: nat): real {
    if tier == 0 then -2.0 else if tier == 1 then -9.0 else 9.0
  }

  function MaxY(tier: nat): real {
    if tier == 0 then 105.0 else if tier == 1 then 105.0 else 85.0
  }

  /** `getTierAtHeight`: 0, 1 and 2 are the low, medium and high tier. */
  function TierAt(cfg: Settings, height: real): (tier: nat)
    ensures tier <= 2
  {
    if height < 5.0 && !cfg.expandPrintableRegion then 0
    else if height + cfg.bed.externalHeight < 73.5 then 1
    else 2
  }

  /** Adjusted height of the target after clamping X and Y to the tier. */
  function PotentialZ(env: Env, cfg: Settings, target: Point, tier: nat): real {
    target.z + env.level(cfg.bed.corners, ValueInRange(target.x, MinX(tier), MaxX(tier)),
                         ValueInRange(target.y, MinY(tier), MaxY(tier)))
  }

  /** The first tier, from `tier` on, that is not below the tier of its own adjusted height. */
  function ChosenTier(env: Env, cfg: Settings, target: Point, tier: nat): (t: nat)
    requires tier <= 2
    ensures tier <= t <= 2
    ensures t >= TierAt(cfg, PotentialZ(env, cfg, target, t))
    ensures forall u :: tier <= u < t ==> u < TierAt(cfg, PotentialZ(env, cfg, target, u))
    decreases 2 - tier
  {
    if tier >= TierAt(cfg, PotentialZ(env, cfg, target, tier)) then tier else ChosenTier(env, cfg, target, tier + 1)
  }

  /** The target with X and Y limited to the chosen tier's skewed boundaries. */
  function Bounded(env: Env, cfg: Settings, target: Point): Point {
    var t := ChosenTier(env, cfg, target, 0);
    var z := PotentialZ(env, cfg, target, t);
    var sx, sy := env.skew(cfg.bed, cfg.bed.skewX, z), env.skew(cfg.bed, cfg.bed.skewY, z);
    target.(x := ValueInRange(target.x, MinX(t) - sx, MaxX(t) - sx),
            y := ValueInRange(target.y, MinY(t) - sy, MaxY(t) - sy))
  }

  // ---- A received movement

  function Millimetres(units: Units, v: real): real {
    if units == Inches then v * INCHES_TO_MILLIMETERS else v
  }

  /** The value a received command asks of a motor. */
  function Requested(st: State, parameter: Option<real>, current: real, mode: Mode): real {
    match parameter
    case None => current
    case Some(v) => Millimetres(st.units, v) + if mode == Relative then current else 0.0
  }

  /** The position a command asks for, before it is bounded. */
  function RequestedPoint(st: State, g: MoveCode): Point {
    var p := Position(st);
    Vec(Requested(st, g.motors.x, p.x, st.mode), Requested(st, g.motors.y, p.y, st.mode),
        Requested(st, g.motors.z, p.z, st.mode), Requested(st, g.motors.e, p.e, st.extruderMode))
  }

  function Target(env: Env, cfg: Settings, st: State, g: MoveCode): Point {
    Bounded(env, cfg, RequestedPoint(st, g))
  }

  function WithFeedRate(st: State, g: MoveCode): State {
    if g.f.Some? then st.(feedRate := Millimetres(st.units, g.f.value)) else st
  }

  predicate MotorTooBig(env: Env, m: Drive, scale: real, to: real) {
    to != m.value && env.planned(m, scale, to) >= 1.0 && env.planned(m, scale, to) > UINT32_MAX as real
  }

  /** The movement is refused because a motor would need more steps than its counter holds. */
  predicate TooBig(env: Env, cfg: Settings, drives: Vec<Drive>, target: Point) {
    var s := Scale(cfg);
    || MotorTooBig(env, drives.x, s.x, target.x)
    || MotorTooBig(env, drives.y, s.y, target.y)
    || MotorTooBig(env, drives.z, s.z, target.z)
    || MotorTooBig(env, drives.e, s.e, target.e)
  }

  /** Whether backlash has to be taken up on a motor whose recorded direction is `direction`. */
  predicate TakesUp(env: Env, m: Drive, scale: real, to: real, direction: bool) {
    to != m.value && env.planned(m, scale, to) >= 1.0 && direction != (to > m.value)
  }

  /**
   Steps of the backlash movement of a motor at `at`: its left-over fraction is cleared first and put back afterwards.
   */
  function BacklashSteps(env: Env, at: real, pin: bool, scale: real, distance: real): int {
    env.step(Drive(at, 0.0, pin, 0), scale, at + distance).steps
  }

  /** `compensateForBacklash` for one motor, in the direction `forward`. */
  function TakenUp(env: Env, m: Drive, scale: real, to: real, direction: bool, backlash: real): int {
    if TakesUp(env, m, scale, to, direction)
    then BacklashSteps(env, to, m.pin, scale, if to > m.value then backlash else -backlash)
    else 0
  }

  function NewDirection(env: Env, m: Drive, scale: real, to: real, direction: bool): bool {
    if TakesUp(env, m, scale, to, direction) then to > m.value else direction
  }

  /** A received movement that is not refused: backlash, segments, and the recorded directions. */
  function Accepted(env: Env, cfg: Settings, st: State, target: Point): State {
    var d, s := st.drives, Scale(cfg);
    st.(drives := SplitUp(env, cfg, d, Position(st), target),
        backlashX := st.backlashX + TakenUp(env, d.x, s.x, target.x, st.directionX, cfg.backlashX),
        backlashY := st.backlashY + TakenUp(env, d.y, s.y, target.y, st.directionY, cfg.backlashY),
        directionX := NewDirection(env, d.x, s.x, target.x, st.directionX),
        directionY := NewDirection(env, d.y, s.y, target.y, st.directionY))
  }

  /** `move(gcode)` for a received command; a refused command still sets the feed rate. */
  function Received(env: Env, cfg: Settings, st: State, g: MoveCode): State {
    var fed := WithFeedRate(st, g);
    var target := Target(env, cfg, fed, g);
    if TooBig(env, cfg, fed.drives, target) then fed else Accepted(env, cfg, fed, target)
  }

  /** A received command with too many steps for a motor is refused. */
  predicate Refused(env: Env, cfg: Settings, st: State, g: MoveCode) {
    var fed := WithFeedRate(st, g);
    TooBig(env, cfg, fed.drives, Target(env, cfg, fed, g))
  }

  /** A run of received movements with fixed settings and no emergency stop. */
  function Run(env: Env, cfg: Settings, st: State, gs: seq<MoveCode>): State {
    if gs == [] then st else Received(env, cfg, Run(env, cfg, st, gs[..|gs| - 1]), gs[|gs| - 1])
  }
}
