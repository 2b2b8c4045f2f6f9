/** The printable region: what bounding a received movement and splitting it guarantee. */
module Boundary {
  import opened Options
  import opened Arithmetic
  import opened BedSurface
  import opened Bed
  import opened Motion
  import opened Conservation

  predicate InTier(x: real, y: real, tier: nat) {
    MinX(tier) <= x <= MaxX(tier) && MinY(tier) <= y <= MaxY(tier)
  }

  /** The union of the tiers. */
  predicate InRegion(x: real, y: real) {
    -2.0 <= x <= 106.0 && -9.0 <= y <= 105.0
  }

  /** No skew is set, so it adjusts nothing. */
  ghost predicate Unskewed(env: Env, bed: BedSettings) {
    forall h: real :: env.skew(bed, bed.skewX, h) == 0.0 && env.skew(bed, bed.skewY, h) == 0.0
  }

  lemma FirmwareUnskewed(sqrt: real -> real, bed: BedSettings)
    requires NoSkew(bed)
    ensures Unskewed(Firmware(sqrt), bed)
  {
    forall h: real
      ensures Firmware(sqrt).skew(bed, bed.skewX, h) == 0.0 && Firmware(sqrt).skew(bed, bed.skewY, h) == 0.0
    {
      NoAdjustment(bed, h);
    }
  }

  /** The bed needs no height adjustment anywhere. */
  ghost predicate Flat(env: Env, bed: BedSettings) {
    forall x, y :: env.level(bed.corners, x, y) == 0.0
  }

  /** Skew per millimetre of height. */
  function SlopeX(env: Env, bed: BedSettings): real {
    env.skew(bed, bed.skewX, 1.0)
  }

  function SlopeY(env: Env, bed: BedSettings): real {
    env.skew(bed, bed.skewY, 1.0)
  }

  /** The skew adjustment is proportional to the height. */
  ghost predicate LinearSkew(env: Env, bed: BedSettings) {
    forall h: real ::
      env.skew(bed, bed.skewX, h) == SlopeX(env, bed) * h && env.skew(bed, bed.skewY, h) == SlopeY(env, bed) * h
  }

  /** At most one of the two compensations is at work, so that the skew does not change the height it depends on. */
  ghost predicate Settled(env: Env, bed: BedSettings) {
    LinearSkew(env, bed) && (Unskewed(env, bed) || Flat(env, bed))
  }

  lemma SkewProportional(bed: BedSettings, skew: real, h: real)
    ensures SkewAdjustment(bed, skew, h) == SkewAdjustment(bed, skew, 1.0) * h
  {
    var span := BED_HIGH_MAX_Z - bed.externalHeight - BED_LOW_MIN_Z;
    if span != 0.0 {
      assert h / span == 1.0 / span * h;
    }
  }

  lemma FirmwareLinearSkew(sqrt: real -> real, bed: BedSettings)
    ensures LinearSkew(Firmware(sqrt), bed)
  {
    forall h: real
      ensures Firmware(sqrt).skew(bed, bed.skewX, h) == SlopeX(Firmware(sqrt), bed) * h
      ensures Firmware(sqrt).skew(bed, bed.skewY, h) == SlopeY(Firmware(sqrt), bed) * h
    {
      SkewProportional(bed, bed.skewX, h);
      SkewProportional(bed, bed.skewY, h);
    }
  }

  lemma FirmwareFlat(sqrt: real -> real, bed: BedSettings)
    requires IsSqrt(sqrt) && bed.corners == Corners(0.0, 0.0, 0.0, 0.0)
    ensures Flat(Firmware(sqrt), bed)
  {
    forall x, y
      ensures Firmware(sqrt).level(bed.corners, x, y) == 0.0
    {
      PlanarPoint(sqrt, bed.corners, 0.0, 0.0, x, y);
    }
  }

  /** The firmware's compensations are settled when no skew is set, or when every corner is calibrated as zero. */
  lemma FirmwareSettled(sqrt: real -> real, bed: BedSettings)
    requires IsSqrt(sqrt) && (NoSkew(bed) || bed.corners == Corners(0.0, 0.0, 0.0, 0.0))
    ensures Settled(Firmware(sqrt), bed)
  {
    FirmwareLinearSkew(sqrt, bed);
    if NoSkew(bed) {
      FirmwareUnskewed(sqrt, bed);
    } else {
      FirmwareFlat(sqrt, bed);
    }
  }

  // ---- The end point of a movement

  lemma ClampShifted(v: real, low: real, high: real, shift: real)
    requires low <= high
    ensures ValueInRange(v, low - shift, high - shift) + shift == ValueInRange(v + shift, low, high)
  {
  }

  /** One axis of a bounded end: the skewed place clamped to the tier, moved by the skew of the rise. */
  function LandingAxis(v: real, low: real, high: real, slope: real, z: real, rise: real): real {
    ValueInRange(v + slope * z, low, high) + slope * rise
  }

  lemma ClampSkewed(v: real, low: real, high: real, slope: real, z: real, rise: real, before: real, after: real)
    requires low <= high && before == slope * z && after == slope * (z + rise)
    ensures ValueInRange(v, low - before, high - before) + after == LandingAxis(v, low, high, slope, z, rise)
  {
    ClampShifted(v, low, high, before);
    assert slope * (z + rise) == slope * z + slope * rise;
  }

  lemma ClampX(env: Env, bed: BedSettings, v: real, low: real, high: real, z: real, rise: real, height: real)
    requires LinearSkew(env, bed) && low <= high && height == z + rise
    ensures var before, after := env.skew(bed, bed.skewX, z), env.skew(bed, bed.skewX, height);
            ValueInRange(v, low - before, high - before) + after == LandingAxis(v, low, high, SlopeX(env, bed), z, rise)
  {
    var before, after := env.skew(bed, bed.skewX, z), env.skew(bed, bed.skewX, height);
    assert before == SlopeX(env, bed) * z && after == SlopeX(env, bed) * height;
    ClampSkewed(v, low, high, SlopeX(env, bed), z, rise, before, after);
  }

  lemma ClampY(env: Env, bed: BedSettings, v: real, low: real, high: real, z: real, rise: real, height: real)
    requires LinearSkew(env, bed) && low <= high && height == z + rise
    ensures var before, after := env.skew(bed, bed.skewY, z), env.skew(bed, bed.skewY, height);
            ValueInRange(v, low - before, high - before) + after == LandingAxis(v, low, high, SlopeY(env, bed), z, rise)
  {
    var before, after := env.skew(bed, bed.skewY, z), env.skew(bed, bed.skewY, height);
    assert before == SlopeY(env, bed) * z && after == SlopeY(env, bed) * height;
    ClampSkewed(v, low, high, SlopeY(env, bed), z, rise, before, after);
  }

  /**
   How much higher the bed is at the target clamped to the skewed boundaries of its chosen tier than at the target
   clamped to the tier itself, where the tier's height was read.
   */
  function Rise(env: Env, cfg: Settings, target: Point): real {
    var t := ChosenTier(env, cfg, target, 0);
    var z := PotentialZ(env, cfg, target, t);
    var sx, sy := env.skew(cfg.bed, cfg.bed.skewX, z), env.skew(cfg.bed, cfg.bed.skewY, z);
    env.level(cfg.bed.corners, ValueInRange(target.x, MinX(t) - sx, MaxX(t) - sx),
              ValueInRange(target.y, MinY(t) - sy, MaxY(t) - sy))
    - env.level(cfg.bed.corners, ValueInRange(target.x, MinX(t), MaxX(t)), ValueInRange(target.y, MinY(t), MaxY(t)))
  }

  /** Where the nozzle lands: at the target's skewed place clamped to the chosen tier, moved by the skew of the rise. */
  function Landing(env: Env, cfg: Settings, target: Point): Point {
    var t := ChosenTier(env, cfg, target, 0);
    var z, rise := PotentialZ(env, cfg, target, t), Rise(env, cfg, target);
    var a, b := SlopeX(env, cfg.bed), SlopeY(env, cfg.bed);
    Vec(LandingAxis(target.x, MinX(t), MaxX(t), a, z, rise), LandingAxis(target.y, MinY(t), MaxY(t), b, z, rise),
        z + rise, target.e)
  }

  lemma RisesBy(env: Env, cfg: Settings, target: Point)
    ensures RealPosition(env, cfg.bed, Bounded(env, cfg, target)).z
            == PotentialZ(env, cfg, target, ChosenTier(env, cfg, target, 0)) + Rise(env, cfg, target)
  {
  }

  lemma SkewedEnd(env: Env, cfg: Settings, target: Point, t: nat, z: real, rise: real)
    requires LinearSkew(env, cfg.bed) && t == ChosenTier(env, cfg, target, 0) && z == PotentialZ(env, cfg, target, t)
    requires RealPosition(env, cfg.bed, Bounded(env, cfg, target)).z == z + rise
    ensures var nozzle := RealPosition(env, cfg.bed, Bounded(env, cfg, target));
            && nozzle.x == LandingAxis(target.x, MinX(t), MaxX(t), SlopeX(env, cfg.bed), z, rise)
            && nozzle.y == LandingAxis(target.y, MinY(t), MaxY(t), SlopeY(env, cfg.bed), z, rise)
  {
    ClampX(env, cfg.bed, target.x, MinX(t), MaxX(t), z, rise, z + rise);
    ClampY(env, cfg.bed, target.y, MinY(t), MaxY(t), z, rise, z + rise);
  }

  /** The nozzle ends where the inputs say it lands, for all settings. */
  lemma LandsAt(env: Env, cfg: Settings, target: Point)
    requires LinearSkew(env, cfg.bed)
    ensures RealPosition(env, cfg.bed, Bounded(env, cfg, target)) == Landing(env, cfg, target)
  {
    var t := ChosenTier(env, cfg, target, 0);
    RisesBy(env, cfg, target);
    SkewedEnd(env, cfg, target, t, PotentialZ(env, cfg, target, t), Rise(env, cfg, target));
  }

  /** At most `m` away from the interval. */
  predicate Within(v: real, low: real, high: real, m: real) {
    low - m <= v <= high + m
  }

  /** How far a height difference of at most `most` can move the nozzle aside. */
  function Sway(slope: real, most: real): real {
    Abs(slope) * most
  }

  lemma SwaysWithin(v: real, low: real, high: real, slope: real, s: real, most: real)
    requires low <= v <= high && -most <= s <= most
    ensures Within(v + slope * s, low, high, Sway(slope, most))
  {
    var u, m := ProductWithin(slope, s, Abs(slope), most);
  }

  lemma LandsWithin(v: real, low: real, high: real, slope: real, z: real, rise: real, most: real)
    requires low <= high && -most <= rise <= most
    ensures Within(LandingAxis(v, low, high, slope, z, rise), low, high, Sway(slope, most))
  {
    SwaysWithin(ValueInRange(v + slope * z, low, high), low, high, slope, rise, most);
  }

  /** The nozzle of the bounded target is in the chosen tier, or aside of it by what height differences of `most` do. */
  predicate EndsNearTier(env: Env, cfg: Settings, target: Point, most: real) {
    var t := ChosenTier(env, cfg, target, 0);
    var nozzle := RealPosition(env, cfg.bed, Bounded(env, cfg, target));
    && Within(nozzle.x, MinX(t), MaxX(t), Sway(SlopeX(env, cfg.bed), most))
    && Within(nozzle.y, MinY(t), MaxY(t), Sway(SlopeY(env, cfg.bed), most))
  }

  /**
   So with both compensations the nozzle can leave the chosen tier, but by no more than the skew of the rise: for every
   bound of the rise, and so for the rise itself.
   */
  lemma BoundedInChosenTier(env: Env, cfg: Settings, target: Point, most: real)
    requires LinearSkew(env, cfg.bed) && -most <= Rise(env, cfg, target) <= most
    ensures EndsNearTier(env, cfg, target, most)
  {
    var t := ChosenTier(env, cfg, target, 0);
    var z, rise := PotentialZ(env, cfg, target, t), Rise(env, cfg, target);
    LandsAt(env, cfg, target);
    LandsWithin(target.x, MinX(t), MaxX(t), SlopeX(env, cfg.bed), z, rise, most);
    LandsWithin(target.y, MinY(t), MaxY(t), SlopeY(env, cfg.bed), z, rise, most);
  }

  /** The nozzle's position for the logical position `p` is inside the region. */
  predicate NozzleInRegion(env: Env, bed: BedSettings, p: Point) {
    InRegion(RealPosition(env, bed, p).x, RealPosition(env, bed, p).y)
  }

  /** The tier of the nozzle's own height. */
  function OwnTier(env: Env, cfg: Settings, p: Point): nat {
    TierAt(cfg, p.z + env.level(cfg.bed.corners, p.x, p.y))
  }

  /** Exactly when a bounded target ends inside the region, and inside the boundaries of its own height's tier. */
  lemma EndsInsideExactly(env: Env, cfg: Settings, target: Point)
    requires LinearSkew(env, cfg.bed)
    ensures var landing, end := Landing(env, cfg, target), Bounded(env, cfg, target);
            var nozzle := RealPosition(env, cfg.bed, end);
            && (NozzleInRegion(env, cfg.bed, end) <==> InRegion(landing.x, landing.y))
            && (InTier(nozzle.x, nozzle.y, OwnTier(env, cfg, end))
                <==> InTier(landing.x, landing.y, TierAt(cfg, landing.z)))
  {
    LandsAt(env, cfg, target);
    assert OwnTier(env, cfg, Bounded(env, cfg, target)) == TierAt(cfg, Landing(env, cfg, target).z);
  }

  lemma FirmwareEndsInsideExactly(sqrt: real -> real, cfg: Settings, target: Point)
    ensures var landing := Landing(Firmware(sqrt), cfg, target);
            NozzleInRegion(Firmware(sqrt), cfg.bed, Bounded(Firmware(sqrt), cfg, target))
            <==> InRegion(landing.x, landing.y)
  {
    FirmwareLinearSkew(sqrt, cfg.bed);
    EndsInsideExactly(Firmware(sqrt), cfg, target);
  }

  // ---- The rise

  /** With at most one compensation at work there is no rise. */
  lemma SettledRise(env: Env, cfg: Settings, target: Point)
    requires Settled(env, cfg.bed)
    ensures Rise(env, cfg, target) == 0.0
  {
    var t := ChosenTier(env, cfg, target, 0);
    var z := PotentialZ(env, cfg, target, t);
    if Unskewed(env, cfg.bed) {
      assert env.skew(cfg.bed, cfg.bed.skewX, z) == 0.0 && env.skew(cfg.bed, cfg.bed.skewY, z) == 0.0;
    }
  }

  lemma ClampMoves(v: real, low: real, high: real, shift: real)
    requires low <= high
    ensures Abs(ValueInRange(v, low - shift, high - shift) - ValueInRange(v, low, high)) <= Abs(shift)
  {
  }

  /** A rise on a plane with slopes `p` and `q` over a way of at most `mx` and `my`. */
  predicate RisesOnPlane(rise: real, p: real, q: real, dx: real, dy: real, mx: real, my: real) {
    && rise == p * dx + q * dy && -mx <= dx <= mx && -my <= dy <= my
    && -(Sway(p, mx) + Sway(q, my)) <= rise <= Sway(p, mx) + Sway(q, my)
  }

  /**
   On a planar bed the rise is the slopes times the way between the two places, so it is at most the slopes times the
   skews.
   */
  lemma PlanarRise(env: Env, cfg: Settings, target: Point, p: real, q: real)
    requires Planar(env.level, cfg.bed.corners, p, q)
    ensures var t := ChosenTier(env, cfg, target, 0);
            var z := PotentialZ(env, cfg, target, t);
            var sx, sy := env.skew(cfg.bed, cfg.bed.skewX, z), env.skew(cfg.bed, cfg.bed.skewY, z);
            var dx := ValueInRange(target.x, MinX(t) - sx, MaxX(t) - sx) - ValueInRange(target.x, MinX(t), MaxX(t));
            var dy := ValueInRange(target.y, MinY(t) - sy, MaxY(t) - sy) - ValueInRange(target.y, MinY(t), MaxY(t));
            RisesOnPlane(Rise(env, cfg, target), p, q, dx, dy, Abs(sx), Abs(sy))
  {
    var t := ChosenTier(env, cfg, target, 0);
    var z := PotentialZ(env, cfg, target, t);
    PlanarRiseAt(env, cfg.bed.corners, target, t, env.skew(cfg.bed, cfg.bed.skewX, z),
                 env.skew(cfg.bed, cfg.bed.skewY, z), p, q);
  }

  lemma PlanarRiseAt(env: Env, c: Corners, target: Point, t: nat, sx: real, sy: real, p: real, q: real)
    requires Planar(env.level, c, p, q)
    ensures var x, y := ValueInRange(target.x, MinX(t), MaxX(t)), ValueInRange(target.y, MinY(t), MaxY(t));
            var x' := ValueInRange(target.x, MinX(t) - sx, MaxX(t) - sx);
            var y' := ValueInRange(target.y, MinY(t) - sy, MaxY(t) - sy);
            RisesOnPlane(env.level(c, x', y') - env.level(c, x, y), p, q, x' - x, y' - y, Abs(sx), Abs(sy))
  {
    ClampMoves(target.x, MinX(t), MaxX(t), sx);
    ClampMoves(target.y, MinY(t), MaxY(t), sy);
    PlaneBetween(env, c, p, q, ValueInRange(target.x, MinX(t), MaxX(t)), ValueInRange(target.y, MinY(t), MaxY(t)),
                 ValueInRange(target.x, MinX(t) - sx, MaxX(t) - sx),
                 ValueInRange(target.y, MinY(t) - sy, MaxY(t) - sy), Abs(sx), Abs(sy));
  }

  lemma PlaneBetween(env: Env, c: Corners, p: real, q: real, x: real, y: real, x': real, y': real,
                     mx: real, my: real)
    requires Planar(env.level, c, p, q) && -mx <= x' - x <= mx && -my <= y' - y <= my
    ensures RisesOnPlane(env.level(c, x', y') - env.level(c, x, y), p, q, x' - x, y' - y, mx, my)
  {
    PlaneShift(p, q, x, y, x' - x, y' - y);
    assert env.level(c, x, y) == PlaneHeight(p, q, x, y) && env.level(c, x', y') == PlaneHeight(p, q, x', y');
    RisesAtMost(env.level(c, x', y') - env.level(c, x, y), p, q, x' - x, y' - y, mx, my);
  }

  lemma RisesAtMost(rise: real, p: real, q: real, dx: real, dy: real, mx: real, my: real)
    requires rise == p * dx + q * dy && -mx <= dx <= mx && -my <= dy <= my
    ensures RisesOnPlane(rise, p, q, dx, dy, mx, my)
  {
    var u, r := ProductWithin(p, dx, Abs(p), mx);
    var w, s := ProductWithin(q, dy, Abs(q), my);
  }

  /** On a planar bed the nozzle leaves the chosen tier by at most skew times slopes times skews. */
  lemma PlanarExcursion(env: Env, cfg: Settings, target: Point, p: real, q: real)
    requires LinearSkew(env, cfg.bed) && Planar(env.level, cfg.bed.corners, p, q)
    ensures var t := ChosenTier(env, cfg, target, 0);
            var z := PotentialZ(env, cfg, target, t);
            var sx, sy := env.skew(cfg.bed, cfg.bed.skewX, z), env.skew(cfg.bed, cfg.bed.skewY, z);
            EndsNearTier(env, cfg, target, Sway(p, Abs(sx)) + Sway(q, Abs(sy)))
  {
    var z := PotentialZ(env, cfg, target, ChosenTier(env, cfg, target, 0));
    var sx, sy := env.skew(cfg.bed, cfg.bed.skewX, z), env.skew(cfg.bed, cfg.bed.skewY, z);
    PlanarRise(env, cfg, target, p, q);
    BoundedInChosenTier(env, cfg, target, Sway(p, Abs(sx)) + Sway(q, Abs(sy)));
  }

  /** Without a rise, the nozzle ends in the chosen tier, at the height it was chosen for. */
  lemma NozzleInChosenTier(env: Env, cfg: Settings, target: Point)
    requires LinearSkew(env, cfg.bed) && Rise(env, cfg, target) == 0.0
    ensures var t := ChosenTier(env, cfg, target, 0);
            var nozzle := RealPosition(env, cfg.bed, Bounded(env, cfg, target));
            && InTier(nozzle.x, nozzle.y, t) && InRegion(nozzle.x, nozzle.y)
            && nozzle.z == PotentialZ(env, cfg, target, t)
  {
    LandsAt(env, cfg, target);
  }

  /**
   With both compensations the nozzle can end outside: on a bed that falls 0.02 per millimetre to the right, with a
   skew of 0.1 per millimetre of height, a movement to the right at Z 51.04 ends 0.01 mm beyond the region.
   */
  lemma SkewOnSlopeExample(env: Env, cfg: Settings)
    requires Planar(env.level, cfg.bed.corners, -0.02, 0.0) && LinearSkew(env, cfg.bed)
    requires SlopeX(env, cfg.bed) == -0.1 && SlopeY(env, cfg.bed) == 0.0
    requires cfg.expandPrintableRegion && cfg.bed.externalHeight == 0.0
    ensures RealPosition(env, cfg.bed, Bounded(env, cfg, Vec(200.0, 50.0, 51.04, 0.0))).x == 106.01
  {
    var target := Vec(200.0, 50.0, 51.04, 0.0);
    assert env.level(cfg.bed.corners, 106.0, 50.0) == PlaneHeight(-0.02, 0.0, 106.0, 50.0);
    assert PotentialZ(env, cfg, target, 0) == 50.0 && PotentialZ(env, cfg, target, 1) == 50.0;
    assert ChosenTier(env, cfg, target, 0) == 1;
    assert env.skew(cfg.bed, cfg.bed.skewX, 50.0) == -5.0 && env.skew(cfg.bed, cfg.bed.skewY, 50.0) == 0.0;
    assert Bounded(env, cfg, target) == Vec(111.0, 50.0, 51.04, 0.0);
    assert env.level(cfg.bed.corners, 111.0, 50.0) == PlaneHeight(-0.02, 0.0, 111.0, 50.0);
    assert env.skew(cfg.bed, cfg.bed.skewX, 49.9) == -4.99;
  }

  /** The same with the firmware's own functions. */
  lemma FirmwareSkewOnSlope(sqrt: real -> real, cfg: Settings)
    requires IsSqrt(sqrt) && cfg.expandPrintableRegion
    requires cfg.bed == BedSettings(Corners(-0.9, 0.9, 0.9, -0.9), 0.0, 11.2, 0.0, 0.0)
    ensures var end := Bounded(Firmware(sqrt), cfg, Vec(200.0, 50.0, 51.04, 0.0));
            RealPosition(Firmware(sqrt), cfg.bed, end).x == 106.01
  {
    PlanarCalibration(sqrt, cfg.bed.corners, -0.02, 0.0);
    FirmwareLinearSkew(sqrt, cfg.bed);
    SkewOnSlopeExample(Firmware(sqrt), cfg);
  }

  /** Without a rise, an end whose nozzle height is in the high tier is inside the high tier's boundaries. */
  lemma HighTierInside(env: Env, cfg: Settings, target: Point)
    requires LinearSkew(env, cfg.bed) && Rise(env, cfg, target) == 0.0
    ensures var nozzle := RealPosition(env, cfg.bed, Bounded(env, cfg, target));
            OwnTier(env, cfg, Bounded(env, cfg, target)) == 2 ==> 7.0 <= nozzle.x <= 97.0 && 9.0 <= nozzle.y <= 85.0
  {
    NozzleInChosenTier(env, cfg, target);
  }

  /**
   Clamped to the low tier the target would be too high for it, clamped to the medium tier it is low again, and its
   skewed Y is below the low tier.
   */
  predicate FallsThrough(env: Env, cfg: Settings, target: Point) {
    && TierAt(cfg, PotentialZ(env, cfg, target, 0)) > 0
    && TierAt(cfg, PotentialZ(env, cfg, target, 1)) == 0
    && target.y + env.skew(cfg.bed, cfg.bed.skewY, PotentialZ(env, cfg, target, 1)) < MinY(0)
  }

  /**
   Without a rise, the nozzle is inside the boundaries of its own height's tier exactly when the target does not fall
   through.
   */
  lemma OwnTierInside(env: Env, cfg: Settings, target: Point)
    requires LinearSkew(env, cfg.bed) && Rise(env, cfg, target) == 0.0
    ensures var end := Bounded(env, cfg, target);
            var nozzle := RealPosition(env, cfg.bed, end);
            InTier(nozzle.x, nozzle.y, OwnTier(env, cfg, end)) <==> !FallsThrough(env, cfg, target)
  {
    var t := ChosenTier(env, cfg, target, 0);
    var z := PotentialZ(env, cfg, target, t);
    var nozzle := RealPosition(env, cfg.bed, Bounded(env, cfg, target));
    NozzleInChosenTier(env, cfg, target);
    ClampShifted(target.y, MinY(t), MaxY(t), env.skew(cfg.bed, cfg.bed.skewY, z));
    OwnTierCases(env, cfg, target, t, z, nozzle.x, nozzle.y);
  }

  lemma OwnTierCases(env: Env, cfg: Settings, target: Point, t: nat, z: real, x: real, y: real)
    requires t == ChosenTier(env, cfg, target, 0) && z == PotentialZ(env, cfg, target, t) && InTier(x, y, t)
    requires y == ValueInRange(target.y + env.skew(cfg.bed, cfg.bed.skewY, z), MinY(t), MaxY(t))
    ensures InTier(x, y, TierAt(cfg, z)) <==> !FallsThrough(env, cfg, target)
  {
  }

  /**
   A target that falls through: on a bed that rises 0.02 per millimetre towards the back, Z 6.1 in front of the bed.
   */
  lemma FallsThroughExample(env: Env, cfg: Settings)
    requires Planar(env.level, cfg.bed.corners, 0.0, 0.02) && !cfg.expandPrintableRegion && Unskewed(env, cfg.bed)
    ensures FallsThrough(env, cfg, Vec(54.0, -9.0, 6.1, 0.0))
  {
    assert env.level(cfg.bed.corners, 54.0, -2.0) == PlaneHeight(0.0, 0.02, 54.0, -2.0);
    assert env.level(cfg.bed.corners, 54.0, -9.0) == PlaneHeight(0.0, 0.02, 54.0, -9.0);
    assert env.skew(cfg.bed, cfg.bed.skewY, PotentialZ(env, cfg, Vec(54.0, -9.0, 6.1, 0.0), 1)) == 0.0;
  }

  /** The same with the firmware's own functions, and where the nozzle then is. */
  lemma FirmwareFallsThrough(sqrt: real -> real, cfg: Settings)
    requires IsSqrt(sqrt) && !cfg.expandPrintableRegion && NoSkew(cfg.bed)
    requires cfg.bed.corners == Corners(0.9, 0.9, -0.9, -0.9)
    ensures var target := Vec(54.0, -9.0, 6.1, 0.0);
            var end := Bounded(Firmware(sqrt), cfg, target);
            var nozzle := RealPosition(Firmware(sqrt), cfg.bed, end);
            && FallsThrough(Firmware(sqrt), cfg, target)
            && !InTier(nozzle.x, nozzle.y, OwnTier(Firmware(sqrt), cfg, end))
  {
    var target := Vec(54.0, -9.0, 6.1, 0.0);
    PlanarCalibration(sqrt, cfg.bed.corners, 0.0, 0.02);
    FirmwareUnskewed(sqrt, cfg.bed);
    FallsThroughExample(Firmware(sqrt), cfg);
    FirmwareSettled(sqrt, cfg.bed);
    SettledRise(Firmware(sqrt), cfg, target);
    OwnTierInside(Firmware(sqrt), cfg, target);
  }

  /** The target's skewed place, at the height its tier was chosen for, is inside that tier. */
  predicate Reachable(env: Env, cfg: Settings, target: Point) {
    var t := ChosenTier(env, cfg, target, 0);
    var z := PotentialZ(env, cfg, target, t);
    InTier(target.x + env.skew(cfg.bed, cfg.bed.skewX, z), target.y + env.skew(cfg.bed, cfg.bed.skewY, z), t)
  }

  /** Exactly such a target is not moved, for all settings. */
  lemma StaysExactly(env: Env, cfg: Settings, target: Point)
    ensures Bounded(env, cfg, target) == target <==> Reachable(env, cfg, target)
  {
  }

  /** The nozzle is inside the low tier and the tier of its own height. */
  predicate Inside(env: Env, cfg: Settings, p: Point) {
    var nozzle := RealPosition(env, cfg.bed, p);
    InTier(nozzle.x, nozzle.y, 0) && InTier(nozzle.x, nozzle.y, OwnTier(env, cfg, p))
  }

  /** With at most one compensation at work such a target is reachable. */
  lemma InsideStays(env: Env, cfg: Settings, target: Point)
    requires Settled(env, cfg.bed) && Inside(env, cfg, target)
    ensures Reachable(env, cfg, target) && Bounded(env, cfg, target) == target
  {
    var t := ChosenTier(env, cfg, target, 0);
    var h := target.z + env.level(cfg.bed.corners, target.x, target.y);
    if Unskewed(env, cfg.bed) {
      assert env.skew(cfg.bed, cfg.bed.skewX, h) == 0.0 && env.skew(cfg.bed, cfg.bed.skewY, h) == 0.0;
    }
    assert forall u :: 0 <= u <= OwnTier(env, cfg, target) ==> PotentialZ(env, cfg, target, u) == h;
    assert t == OwnTier(env, cfg, target);
    StaysExactly(env, cfg, target);
  }

  /** An accepted movement ends exactly where the command asks if and only if that is reachable, for all settings. */
  lemma GoesWhereAsked(env: Env, cfg: Settings, st: State, g: MoveCode)
    requires Keeps(env, Owed) && !Refused(env, cfg, st, g)
    ensures Position(Received(env, cfg, st, g)) == RequestedPoint(st, g)
            <==> Reachable(env, cfg, RequestedPoint(st, g))
  {
    var target := Bounded(env, cfg, RequestedPoint(st, g));
    StaysExactly(env, cfg, RequestedPoint(st, g));
    TargetIs(env, cfg, st, g);
    AcceptedAt(env, cfg, st, g, target);
  }

  lemma TargetIs(env: Env, cfg: Settings, st: State, g: MoveCode)
    ensures Target(env, cfg, WithFeedRate(st, g), g) == Bounded(env, cfg, RequestedPoint(st, g))
  {
    assert RequestedPoint(WithFeedRate(st, g), g) == RequestedPoint(st, g);
  }

  lemma AcceptedAt(env: Env, cfg: Settings, st: State, g: MoveCode, target: Point)
    requires Keeps(env, Owed) && !Refused(env, cfg, st, g) && target == Target(env, cfg, WithFeedRate(st, g), g)
    ensures Position(Received(env, cfg, st, g)) == target
  {
    AcceptedEnds(env, cfg, WithFeedRate(st, g), target);
  }

  function Opposite(parameter: Option<real>): Option<real> {
    match parameter
    case None => None
    case Some(v) => Some(-v)
  }

  function Back(g: MoveCode): MoveCode {
    g.(motors := Vec(Opposite(g.motors.x), Opposite(g.motors.y), Opposite(g.motors.z), Opposite(g.motors.e)))
  }

  lemma ModesKept(env: Env, cfg: Settings, st: State, g: MoveCode)
    ensures var after := Received(env, cfg, st, g);
            after.units == st.units && after.mode == st.mode && after.extruderMode == st.extruderMode
  {
  }

  lemma AsksBack(st: State, there: State, g: MoveCode)
    requires there.units == st.units && there.mode == st.mode == Relative
             && there.extruderMode == st.extruderMode == Relative
    requires Position(there) == RequestedPoint(st, g)
    ensures RequestedPoint(there, Back(g)) == Position(st)
  {
  }

  /** In the relative modes a movement and its opposite end where they started. */
  lemma ThereAndBack(env: Env, cfg: Settings, st: State, g: MoveCode, there: State)
    requires Keeps(env, Owed) && st.mode == Relative && st.extruderMode == Relative
    requires there == Received(env, cfg, st, g) && !Refused(env, cfg, st, g) && !Refused(env, cfg, there, Back(g))
    requires Reachable(env, cfg, RequestedPoint(st, g)) && Reachable(env, cfg, Position(st))
    ensures Position(Received(env, cfg, there, Back(g))) == Position(st)
  {
    ModesKept(env, cfg, st, g);
    GoesWhereAsked(env, cfg, st, g);
    AsksBack(st, there, g);
    GoesWhereAsked(env, cfg, there, Back(g));
  }

  // ---- Segments

  /** How far along the movement segment `k` ends. */
  function Share(distance: real, k: nat): real
    requires distance != 0.0
  {
    k as real * SEGMENT_LENGTH / distance
  }

  lemma SegmentCount(distance: real, k: nat)
    requires distance >= 0.0 && 1 <= k < NumberOfSegments(distance)
    ensures k as real * SEGMENT_LENGTH < distance
  {
  }

  /** Segment ends are convex combinations of start and end, with a strictly increasing parameter between 0 and 1. */
  lemma SegmentConvex(start: real, end: real, distance: real, k: nat)
    requires distance >= 0.0 && 1 <= k < NumberOfSegments(distance)
    ensures distance > 0.0 && 0.0 < Share(distance, k) < 1.0 && Share(distance, k - 1) < Share(distance, k)
    ensures SegmentValue(start, end, distance, k, NumberOfSegments(distance))
            == start + Share(distance, k) * (end - start)
  {
    ShareBounds(distance, k);
    SegmentIsShare(start, end, distance, k, NumberOfSegments(distance));
  }

  lemma ShareBounds(distance: real, k: nat)
    requires distance >= 0.0 && 1 <= k < NumberOfSegments(distance)
    ensures distance > 0.0 && 0.0 < Share(distance, k) < 1.0 && Share(distance, k - 1) < Share(distance, k)
  {
    SegmentCount(distance, k);
    var reach := k as real * SEGMENT_LENGTH;
    Quotient(reach, distance, 1.0);
    Quotient(reach, distance, 0.0);
    Quotient((k - 1) as real * SEGMENT_LENGTH, distance, Share(distance, k));
    Quotient(reach, distance, Share(distance, k));
    assert Share(distance, k) > 0.0;
  }

  lemma SegmentIsShare(start: real, end: real, distance: real, k: nat, n: nat)
    requires distance > 0.0 && k < n
    ensures SegmentValue(start, end, distance, k, n) == start + Share(distance, k) * (end - start)
  {
    Reassociate(k as real * SEGMENT_LENGTH, end - start, distance);
  }

  lemma Reassociate(a: real, b: real, d: real)
    requires d > 0.0
    ensures a * (b / d) == a / d * b
  {
    Division(b, d);
    Division(a, d);
  }

  /** The number `share` of the way from `a` to `b`. */
  function Along(a: real, b: real, share: real): real {
    a + share * (b - a)
  }

  lemma ConvexInside(a: real, b: real, share: real, low: real, high: real)
    requires low <= a <= high && low <= b <= high && 0.0 <= share <= 1.0
    ensures low <= Along(a, b, share) <= high
  {
    var step := ShareStep(share, b - a);
  }

  /** A share of a distance, as a number between zero and the distance. */
  lemma ShareStep(share: real, length: real) returns (step: real)
    requires 0.0 <= share <= 1.0
    ensures step == share * length && (0.0 <= step <= length || length <= step <= 0.0)
  {
    step := share * length;
    if length >= 0.0 {
      ShareOf(share, length);
    } else {
      ShareOfNegative(share, length);
    }
  }

  lemma ShareOf(share: real, length: real)
    requires 0.0 <= share <= 1.0 && length >= 0.0
    ensures 0.0 <= share * length <= length
  {
    RealMul(share, 1.0, length);
    RealMul(0.0, share, length);
  }

  lemma ShareOfNegative(share: real, length: real)
    requires 0.0 <= share <= 1.0 && length <= 0.0
    ensures length <= share * length <= 0.0
  {
    ShareOf(share, -length);
    assert share * -length == -(share * length);
  }

  lemma SegmentValueInside(start: real, end: real, distance: real, k: nat, low: real, high: real)
    requires distance >= 0.0 && 1 <= k <= NumberOfSegments(distance)
    requires low <= start <= high && low <= end <= high
    ensures low <= SegmentValue(start, end, distance, k, NumberOfSegments(distance)) <= high
  {
    if k < NumberOfSegments(distance) {
      SegmentConvex(start, end, distance, k);
      ConvexInside(start, end, Share(distance, k), low, high);
    }
  }

  /** `p` lies on the way from `start` to `end`, `share` of the way along. */
  predicate OnTheWay(start: Point, end: Point, p: Point, share: real) {
    && p.x == Along(start.x, end.x, share)
    && p.y == Along(start.y, end.y, share)
    && p.z == Along(start.z, end.z, share)
  }

  lemma SegmentOnTheWay(start: Point, end: Point, distance: real, k: nat) returns (share: real)
    requires distance >= 0.0 && 1 <= k < NumberOfSegments(distance)
    ensures 0.0 < share < 1.0
    ensures OnTheWay(start, end, SegmentPoint(start, end, distance, k, NumberOfSegments(distance)), share)
  {
    share := NamedShare(distance, k, NumberOfSegments(distance));
  }

  /** Every axis is the same share of its way along. */
  lemma NamedShare(distance: real, k: nat, n: nat) returns (share: real)
    requires distance >= 0.0 && 1 <= k < n == NumberOfSegments(distance)
    ensures 0.0 < share < 1.0
    ensures forall a, b :: SegmentValue(a, b, distance, k, n) == Along(a, b, share)
  {
    ShareBounds(distance, k);
    share := Share(distance, k);
    forall a, b
      ensures SegmentValue(a, b, distance, k, n) == Along(a, b, share)
    {
      SegmentIsShare(a, b, distance, k, n);
    }
  }

  /** How much higher the bed is at `p` than on the straight line between the beds at `start` and `end`. */
  function Sag(env: Env, bed: BedSettings, start: Point, end: Point, p: Point, share: real): real {
    env.level(bed.corners, p.x, p.y)
    - Along(env.level(bed.corners, start.x, start.y), env.level(bed.corners, end.x, end.y), share)
  }

  /** The line between two places of the nozzle, moved by the skews `a` and `b` of a sag. */
  predicate NozzleAlong(nozzle: Point, from: Point, to: Point, share: real, a: real, b: real, sag: real) {
    nozzle.x == Along(from.x, to.x, share) + a * sag && nozzle.y == Along(from.y, to.y, share) + b * sag
  }

  /** The nozzle follows the line between its real end points, moved by the skew of the sag, for all settings. */
  lemma NozzleOnTheWay(env: Env, bed: BedSettings, start: Point, end: Point, p: Point, share: real)
    requires LinearSkew(env, bed) && OnTheWay(start, end, p, share)
    ensures var nozzle, sag := RealPosition(env, bed, p), Sag(env, bed, start, end, p, share);
            var from, to := RealPosition(env, bed, start), RealPosition(env, bed, end);
            NozzleAlong(nozzle, from, to, share, SlopeX(env, bed), SlopeY(env, bed), sag)
  {
    var low := start.z + env.level(bed.corners, start.x, start.y);
    var high := end.z + env.level(bed.corners, end.x, end.y);
    var height, sag := p.z + env.level(bed.corners, p.x, p.y), Sag(env, bed, start, end, p, share);
    AlongSums(start.z, end.z, env.level(bed.corners, start.x, start.y), env.level(bed.corners, end.x, end.y), share);
    assert height == Along(low, high, share) + sag;
    SkewedReal(env, bed, start, low);
    SkewedReal(env, bed, end, high);
    SkewedReal(env, bed, p, height);
    AlongNozzle(RealPosition(env, bed, p), RealPosition(env, bed, start), RealPosition(env, bed, end), p, start, end,
                share, SlopeX(env, bed), SlopeY(env, bed), height, low, high, sag);
  }

  /** The nozzle of `p` at the skews `a` and `b` of its height. */
  predicate Skewed(nozzle: Point, p: Point, a: real, b: real, height: real) {
    nozzle.x == p.x + a * height && nozzle.y == p.y + b * height
  }

  lemma AlongNozzle(nozzle: Point, from: Point, to: Point, p: Point, start: Point, end: Point, share: real, a: real,
                    b: real, height: real, low: real, high: real, sag: real)
    requires OnTheWay(start, end, p, share) && height == Along(low, high, share) + sag
    requires Skewed(nozzle, p, a, b, height) && Skewed(from, start, a, b, low) && Skewed(to, end, a, b, high)
    ensures NozzleAlong(nozzle, from, to, share, a, b, sag)
  {
    AlongSkewed(start.x, end.x, low, high, a, share, sag, height);
    AlongSkewed(start.y, end.y, low, high, b, share, sag, height);
  }

  lemma AlongSums(z: real, z': real, l: real, l': real, share: real)
    ensures Along(z, z', share) + Along(l, l', share) == Along(z + l, z' + l', share)
  {
  }

  lemma AlongSkewed(a: real, b: real, low: real, high: real, slope: real, share: real, sag: real, height: real)
    requires height == Along(low, high, share) + sag
    ensures Along(a, b, share) + slope * height == Along(a + slope * low, b + slope * high, share) + slope * sag
  {
    assert slope * height == slope * low + slope * (share * (high - low)) + slope * sag;
  }

  lemma SkewedReal(env: Env, bed: BedSettings, p: Point, height: real)
    requires LinearSkew(env, bed) && height == p.z + env.level(bed.corners, p.x, p.y)
    ensures Skewed(RealPosition(env, bed, p), p, SlopeX(env, bed), SlopeY(env, bed), height)
  {
  }

  lemma UnskewedReal(env: Env, bed: BedSettings, p: Point)
    requires Unskewed(env, bed)
    ensures RealPosition(env, bed, p).x == p.x && RealPosition(env, bed, p).y == p.y
  {
    var z := p.z + env.level(bed.corners, p.x, p.y);
    assert env.skew(bed, bed.skewX, z) == 0.0 && env.skew(bed, bed.skewY, z) == 0.0;
  }

  /** The nozzle's ways are straight: where there is skew, the bed does not sag. */
  ghost predicate Straight(env: Env, bed: BedSettings) {
    && LinearSkew(env, bed)
    && forall start: Point, end: Point, p: Point, share: real :: OnTheWay(start, end, p, share) ==>
         && SlopeX(env, bed) * Sag(env, bed, start, end, p, share) == 0.0
         && SlopeY(env, bed) * Sag(env, bed, start, end, p, share) == 0.0
  }

  lemma SettledStraight(env: Env, bed: BedSettings)
    requires Settled(env, bed)
    ensures Straight(env, bed)
  {
    forall start: Point, end: Point, p: Point, share: real | OnTheWay(start, end, p, share)
      ensures SlopeX(env, bed) * Sag(env, bed, start, end, p, share) == 0.0
      ensures SlopeY(env, bed) * Sag(env, bed, start, end, p, share) == 0.0
    {
      if Unskewed(env, bed) {
        assert SlopeX(env, bed) == 0.0 && SlopeY(env, bed) == 0.0;
      } else {
        assert Sag(env, bed, start, end, p, share) == 0.0;
      }
    }
  }

  /** On a planar bed they are, with any skew. */
  lemma PlanarStraight(env: Env, bed: BedSettings, a: real, b: real)
    requires LinearSkew(env, bed) && Planar(env.level, bed.corners, a, b)
    ensures Straight(env, bed)
  {
    forall start: Point, end: Point, p: Point, share: real | OnTheWay(start, end, p, share)
      ensures SlopeX(env, bed) * Sag(env, bed, start, end, p, share) == 0.0
      ensures SlopeY(env, bed) * Sag(env, bed, start, end, p, share) == 0.0
    {
      PlaneOnTheWay(a, b, start, end, p, share);
      assert Sag(env, bed, start, end, p, share) == 0.0;
    }
  }

  lemma PlaneOnTheWay(a: real, b: real, start: Point, end: Point, p: Point, share: real)
    requires OnTheWay(start, end, p, share)
    ensures var from, to := PlaneHeight(a, b, start.x, start.y), PlaneHeight(a, b, end.x, end.y);
            PlaneHeight(a, b, p.x, p.y) == Along(from, to, share)
  {
    var dx, dy := end.x - start.x, end.y - start.y;
    PlaneShift(a, b, start.x, start.y, share * dx, share * dy);
    PlaneShift(a, b, start.x, start.y, dx, dy);
    assert a * (share * dx) + b * (share * dy) == share * (a * dx + b * dy);
  }

  lemma SettledEnds(env: Env, cfg: Settings, target: Point)
    requires Settled(env, cfg.bed)
    ensures NozzleInRegion(env, cfg.bed, Bounded(env, cfg, target))
  {
    SettledRise(env, cfg, target);
    NozzleInChosenTier(env, cfg, target);
  }

  /** The real end of a received command's movement. */
  function Destination(env: Env, cfg: Settings, st: State, g: MoveCode): Point {
    Landing(env, cfg, RequestedPoint(st, g))
  }

  /** An accepted movement ends inside the region exactly when it lands there; a refused one does not move. */
  lemma ReceivedEndsInside(env: Env, cfg: Settings, st: State, g: MoveCode)
    requires LinearSkew(env, cfg.bed) && Keeps(env, Owed)
    ensures var after, landing := Position(Received(env, cfg, st, g)), Destination(env, cfg, st, g);
            if Refused(env, cfg, st, g) then after == Position(st)
            else NozzleInRegion(env, cfg.bed, after) <==> InRegion(landing.x, landing.y)
  {
    TargetIs(env, cfg, st, g);
    EndsInsideExactly(env, cfg, RequestedPoint(st, g));
    if !Refused(env, cfg, st, g) {
      AcceptedAt(env, cfg, st, g, Bounded(env, cfg, RequestedPoint(st, g)));
    }
  }

  /** Every segment of the movement `g` from the state `st` ends with the nozzle inside the region. */
  ghost predicate SegmentsInside(env: Env, cfg: Settings, st: State, g: MoveCode) {
    var start, target := Position(st), Target(env, cfg, WithFeedRate(st, g), g);
    var d := env.distance(start, target);
    var n := NumberOfSegments(d);
    var ends := SegmentEnds(env, cfg.bed, start, target, d, n);
    forall k: nat :: 1 <= k <= n ==> InRegion(ends(k).x, ends(k).y)
  }

  /** The region is kept on the way exactly when the line and the sag keep it. */
  predicate KeptOnTheWay(env: Env, bed: BedSettings, start: Point, end: Point, p: Point, share: real) {
    var from, to := RealPosition(env, bed, start), RealPosition(env, bed, end);
    var sag := Sag(env, bed, start, end, p, share);
    var x := Along(from.x, to.x, share) + SlopeX(env, bed) * sag;
    var y := Along(from.y, to.y, share) + SlopeY(env, bed) * sag;
    NozzleInRegion(env, bed, p) <==> InRegion(x, y)
  }

  lemma OnTheWayExactly(env: Env, bed: BedSettings, start: Point, end: Point, p: Point, share: real)
    requires LinearSkew(env, bed) && OnTheWay(start, end, p, share)
    ensures KeptOnTheWay(env, bed, start, end, p, share)
  {
    NozzleOnTheWay(env, bed, start, end, p, share);
  }

  /** So is every segment, for all settings. */
  lemma SegmentInsideExactly(env: Env, bed: BedSettings, start: Point, end: Point, k: nat) returns (share: real)
    requires LinearSkew(env, bed) && Euclidean(env) && 1 <= k <= NumberOfSegments(env.distance(start, end))
    ensures var d := env.distance(start, end);
            var p := SegmentPoint(start, end, d, k, NumberOfSegments(d));
            0.0 < share <= 1.0 && OnTheWay(start, end, p, share) && KeptOnTheWay(env, bed, start, end, p, share)
  {
    var d := env.distance(start, end);
    share := SegmentShare(start, end, d, k);
    OnTheWayExactly(env, bed, start, end, SegmentPoint(start, end, d, k, NumberOfSegments(d)), share);
  }

  lemma SegmentShare(start: Point, end: Point, d: real, k: nat) returns (share: real)
    requires d >= 0.0 && 1 <= k <= NumberOfSegments(d)
    ensures 0.0 < share <= 1.0
    ensures OnTheWay(start, end, SegmentPoint(start, end, d, k, NumberOfSegments(d)), share)
  {
    if k < NumberOfSegments(d) {
      share := SegmentOnTheWay(start, end, d, k);
    } else {
      share := 1.0;
      assert SegmentPoint(start, end, d, k, k) == end;
    }
  }

  lemma SegmentEndInside(env: Env, cfg: Settings, start: Point, target: Point, k: nat)
    requires Straight(env, cfg.bed) && Euclidean(env)
    requires NozzleInRegion(env, cfg.bed, start) && NozzleInRegion(env, cfg.bed, target)
    requires 1 <= k <= NumberOfSegments(env.distance(start, target))
    ensures var d := env.distance(start, target);
            var end := SegmentEnds(env, cfg.bed, start, target, d, NumberOfSegments(d))(k);
            InRegion(end.x, end.y)
  {
    var d := env.distance(start, target);
    if k < NumberOfSegments(d) {
      var share := SegmentOnTheWay(start, target, d, k);
      NozzleBetween(env, cfg.bed, start, target, SegmentPoint(start, target, d, k, NumberOfSegments(d)), share);
    }
  }

  lemma StraightWay(env: Env, bed: BedSettings, start: Point, end: Point, p: Point, share: real)
    requires Straight(env, bed) && OnTheWay(start, end, p, share)
    ensures var nozzle := RealPosition(env, bed, p);
            var from, to := RealPosition(env, bed, start), RealPosition(env, bed, end);
            nozzle.x == Along(from.x, to.x, share) && nozzle.y == Along(from.y, to.y, share)
  {
    NozzleOnTheWay(env, bed, start, end, p, share);
  }

  lemma NozzleBetween(env: Env, bed: BedSettings, start: Point, end: Point, p: Point, share: real)
    requires Straight(env, bed) && OnTheWay(start, end, p, share) && 0.0 <= share <= 1.0
    requires NozzleInRegion(env, bed, start) && NozzleInRegion(env, bed, end)
    ensures NozzleInRegion(env, bed, p)
  {
    var from, to := RealPosition(env, bed, start), RealPosition(env, bed, end);
    StraightWay(env, bed, start, end, p, share);
    ConvexInside(from.x, to.x, share, -2.0, 106.0);
    ConvexInside(from.y, to.y, share, -9.0, 105.0);
  }

  /**
   On straight ways a movement that starts inside the region stays inside with every segment exactly when it lands
   inside.
   */
  lemma MovementInsideExactly(env: Env, cfg: Settings, st: State, g: MoveCode)
    requires Straight(env, cfg.bed) && Euclidean(env) && NozzleInRegion(env, cfg.bed, Position(st))
    ensures var landing := Destination(env, cfg, st, g);
            SegmentsInside(env, cfg, st, g) <==> InRegion(landing.x, landing.y)
  {
    var start, target := Position(st), Target(env, cfg, WithFeedRate(st, g), g);
    var n := NumberOfSegments(env.distance(start, target));
    TargetIs(env, cfg, st, g);
    EndsInsideExactly(env, cfg, RequestedPoint(st, g));
    if NozzleInRegion(env, cfg.bed, target) {
      forall k: nat | 1 <= k <= n
        ensures var end := SegmentEnds(env, cfg.bed, start, target, env.distance(start, target), n)(k);
                InRegion(end.x, end.y)
      {
        SegmentEndInside(env, cfg, start, target, k);
      }
    } else {
      LastEnd(env, cfg.bed, start, target, env.distance(start, target), n);
    }
  }

  lemma LastEnd(env: Env, bed: BedSettings, start: Point, end: Point, d: real, n: nat)
    ensures SegmentEnds(env, bed, start, end, d, n)(n) == RealPosition(env, bed, end)
  {
    assert SegmentPoint(start, end, d, n, n) == end;
  }

  /** Every segment of every accepted movement of a run ends inside the region. */
  ghost predicate RunInside(env: Env, cfg: Settings, st: State, gs: seq<MoveCode>) {
    gs == [] ||
    (var before, g := Run(env, cfg, st, gs[..|gs| - 1]), gs[|gs| - 1];
     RunInside(env, cfg, st, gs[..|gs| - 1]) && (Refused(env, cfg, before, g) || SegmentsInside(env, cfg, before, g)))
  }

  /** Every accepted movement of a run lands inside the region. */
  predicate RunLands(env: Env, cfg: Settings, st: State, gs: seq<MoveCode>) {
    gs == [] ||
    (var before, g := Run(env, cfg, st, gs[..|gs| - 1]), gs[|gs| - 1];
     var landing := Destination(env, cfg, before, g);
     RunLands(env, cfg, st, gs[..|gs| - 1]) && (Refused(env, cfg, before, g) || InRegion(landing.x, landing.y)))
  }

  lemma {:induction false} RunStaysInside(env: Env, cfg: Settings, st: State, gs: seq<MoveCode>)
    requires LinearSkew(env, cfg.bed) && Keeps(env, Owed) && NozzleInRegion(env, cfg.bed, Position(st))
    requires RunLands(env, cfg, st, gs)
    ensures NozzleInRegion(env, cfg.bed, Position(Run(env, cfg, st, gs)))
    decreases |gs|
  {
    if gs != [] {
      RunStaysInside(env, cfg, st, gs[..|gs| - 1]);
      ReceivedEndsInside(env, cfg, Run(env, cfg, st, gs[..|gs| - 1]), gs[|gs| - 1]);
    }
  }

  /**
   Boundary safety, exactly: on straight ways, with any skew on a planar bed, a run that starts inside the region keeps
   every segment of every accepted movement inside if and only if every accepted movement lands inside.
   */
  lemma {:induction false} RunInsideExactly(env: Env, cfg: Settings, st: State, gs: seq<MoveCode>)
    requires Straight(env, cfg.bed) && Keeps(env, Owed) && Euclidean(env) && NozzleInRegion(env, cfg.bed, Position(st))
    ensures RunInside(env, cfg, st, gs) <==> RunLands(env, cfg, st, gs)
    decreases |gs|
  {
    if gs != [] {
      var front := gs[..|gs| - 1];
      RunInsideExactly(env, cfg, st, front);
      if RunLands(env, cfg, st, front) {
        RunStaysInside(env, cfg, st, front);
        MovementInsideExactly(env, cfg, Run(env, cfg, st, front), gs[|gs| - 1]);
      }
    }
  }

  lemma {:induction false} SettledLands(env: Env, cfg: Settings, st: State, gs: seq<MoveCode>)
    requires Settled(env, cfg.bed)
    ensures RunLands(env, cfg, st, gs)
    decreases |gs|
  {
    if gs != [] {
      SettledLands(env, cfg, st, gs[..|gs| - 1]);
      var before, g := Run(env, cfg, st, gs[..|gs| - 1]), gs[|gs| - 1];
      SettledEnds(env, cfg, RequestedPoint(before, g));
      EndsInsideExactly(env, cfg, RequestedPoint(before, g));
    }
  }

  /**
   Boundary safety: once one received movement has been accepted, every segment of every later received movement of the
   run ends with the nozzle at an X in [-2, 106] and a Y in [-9, 105], with any skew on a flat bed and without skew on
   any bed.
   */
  lemma SegmentsStayInside(env: Env, cfg: Settings, st: State, first: MoveCode, between: seq<MoveCode>, g: MoveCode)
    requires Settled(env, cfg.bed) && Keeps(env, Owed) && Euclidean(env) && !Refused(env, cfg, st, first)
    ensures SegmentsInside(env, cfg, Run(env, cfg, Received(env, cfg, st, first), between), g)
  {
    var after := Received(env, cfg, st, first);
    var before := Run(env, cfg, after, between);
    SettledStraight(env, cfg.bed);
    LandsSettled(env, cfg, st, first);
    SettledLands(env, cfg, after, between);
    RunStaysInside(env, cfg, after, between);
    SettledEnds(env, cfg, RequestedPoint(before, g));
    EndsInsideExactly(env, cfg, RequestedPoint(before, g));
    MovementInsideExactly(env, cfg, before, g);
  }

  lemma LandsSettled(env: Env, cfg: Settings, st: State, g: MoveCode)
    requires Settled(env, cfg.bed) && Keeps(env, Owed) && !Refused(env, cfg, st, g)
    ensures NozzleInRegion(env, cfg.bed, Position(Received(env, cfg, st, g)))
  {
    ReceivedEndsInside(env, cfg, st, g);
    SettledEnds(env, cfg, RequestedPoint(st, g));
    EndsInsideExactly(env, cfg, RequestedPoint(st, g));
  }

  /** The distance is the horizontal one. */
  ghost predicate Euclidean(env: Env) {
    forall a: Point, b: Point ::
      env.distance(a, b) >= 0.0 && env.distance(a, b) * env.distance(a, b) == Squared(a, b)
  }

  lemma SquaredNonNegative(a: Point, b: Point)
    ensures Squared(a, b) >= 0.0
  {
    var dx, dy := b.x - a.x, b.y - a.y;
    assert dx * dx >= 0.0;
    assert dy * dy >= 0.0;
  }

  lemma FirmwareEuclidean(sqrt: real -> real)
    requires IsSqrt(sqrt)
    ensures Euclidean(Firmware(sqrt))
  {
    forall a: Point, b: Point
      ensures Firmware(sqrt).distance(a, b) >= 0.0
      ensures Firmware(sqrt).distance(a, b) * Firmware(sqrt).distance(a, b) == Squared(a, b)
    {
      SquaredNonNegative(a, b);
      assert Firmware(sqrt).distance(a, b) == sqrt(Squared(a, b));
    }
  }

  // ---- Length of the segments

  /** The horizontal direction of a movement has length one. */
  lemma UnitDirection(dx: real, dy: real, d: real)
    requires d > 0.0 && d * d == dx * dx + dy * dy
    ensures dx / d * (dx / d) + dy / d * (dy / d) == 1.0
  {
    Quotient(dx, d, 0.0);
    Quotient(dy, d, 0.0);
    UnitScaled(dx / d, dy / d, d, dx, dy);
  }

  lemma UnitScaled(ux: real, uy: real, d: real, dx: real, dy: real)
    requires d > 0.0 && ux * d == dx && uy * d == dy && d * d == dx * dx + dy * dy
    ensures ux * ux + uy * uy == 1.0
  {
    var v := SquareOf(d);
    var p := SquareTimes(ux, d, v, dx);
    var q := SquareTimes(uy, d, v, dy);
    Cancel(p, q, v, dx * dx, dy * dy);
  }

  lemma SquareOf(d: real) returns (v: real)
    requires d > 0.0
    ensures v == d * d && v > 0.0
  {
    v := PositiveProduct(d, d);
  }

  lemma SquareTimes(u: real, d: real, v: real, dx: real) returns (p: real)
    requires v == d * d && u * d == dx
    ensures p == u * u && p * v == dx * dx
  {
    p := u * u;
    assert u * u * (d * d) == u * d * (u * d);
  }

  lemma Cancel(p: real, q: real, v: real, a: real, b: real)
    requires v > 0.0 && p * v == a && q * v == b && v == a + b
    ensures p + q == 1.0
  {
    assert (p + q - 1.0) * v == 0.0;
  }

  lemma InnerStep(start: real, end: real, d: real, k: nat, n: nat)
    requires d > 0.0 && 1 <= k < n
    ensures SegmentValue(start, end, d, k, n) - SegmentValue(start, end, d, k - 1, n)
            == SEGMENT_LENGTH * ((end - start) / d)
  {
    var u := (end - start) / d;
    assert k as real * SEGMENT_LENGTH * u == (k - 1) as real * SEGMENT_LENGTH * u + SEGMENT_LENGTH * u;
  }

  lemma LastStep(start: real, end: real, d: real, n: nat)
    requires d > 0.0 && 1 <= n
    ensures SegmentValue(start, end, d, n, n) - SegmentValue(start, end, d, n - 1, n)
            == (d - (n - 1) as real * SEGMENT_LENGTH) * ((end - start) / d)
  {
    var u := (end - start) / d;
    assert u * d == end - start;
    assert (d - (n - 1) as real * SEGMENT_LENGTH) * u == u * d - (n - 1) as real * SEGMENT_LENGTH * u;
  }

  lemma ScaledUnit(c: real, ux: real, uy: real)
    requires ux * ux + uy * uy == 1.0
    ensures c * ux * (c * ux) + c * uy * (c * uy) == c * c
  {
    assert c * ux * (c * ux) + c * uy * (c * uy) == c * c * (ux * ux + uy * uy);
  }

  lemma LastLength(d: real)
    requires 0.0 < d <= UINT32_MAX as real * SEGMENT_LENGTH
    ensures 0.0 < d - (NumberOfSegments(d) - 1) as real * SEGMENT_LENGTH <= SEGMENT_LENGTH
  {
  }

  /** Every segment but the last is exactly 2 mm long horizontally, and the last is at most 2 mm. */
  lemma SegmentLengths(env: Env, start: Point, end: Point, k: nat)
    requires Euclidean(env)
    requires env.distance(start, end) <= UINT32_MAX as real * SEGMENT_LENGTH
    requires 1 <= k <= NumberOfSegments(env.distance(start, end))
    ensures var d := env.distance(start, end);
            var n := NumberOfSegments(d);
            var length := Squared(SegmentPoint(start, end, d, k - 1, n), SegmentPoint(start, end, d, k, n));
            if k < n then length == SEGMENT_LENGTH * SEGMENT_LENGTH else length <= SEGMENT_LENGTH * SEGMENT_LENGTH
  {
    var d := env.distance(start, end);
    if d > 0.0 {
      SegmentLengthsAt(start, end, d, k);
    } else {
      NoDistance(start, end, d, k);
    }
  }

  lemma NoDistance(start: Point, end: Point, d: real, k: nat)
    requires d == 0.0 && k == 1 && (end.x - start.x) * (end.x - start.x) + (end.y - start.y) * (end.y - start.y) == 0.0
    ensures NumberOfSegments(d) == 1
    ensures Squared(SegmentPoint(start, end, d, 0, 1), SegmentPoint(start, end, d, 1, 1)) == 0.0
  {
  }

  lemma SegmentLengthsAt(start: Point, end: Point, d: real, k: nat)
    requires 0.0 < d <= UINT32_MAX as real * SEGMENT_LENGTH && 1 <= k <= NumberOfSegments(d)
    requires d * d == (end.x - start.x) * (end.x - start.x) + (end.y - start.y) * (end.y - start.y)
    ensures var n := NumberOfSegments(d);
            var length := Squared(SegmentPoint(start, end, d, k - 1, n), SegmentPoint(start, end, d, k, n));
            if k < n then length == SEGMENT_LENGTH * SEGMENT_LENGTH else length <= SEGMENT_LENGTH * SEGMENT_LENGTH
  {
    UnitDirection(end.x - start.x, end.y - start.y, d);
    if k < NumberOfSegments(d) {
      InnerLength(start, end, d, k, NumberOfSegments(d));
    } else {
      LastLength(d);
      LastSquared(start, end, d, k);
      SquareAtMost(d - (k - 1) as real * SEGMENT_LENGTH);
    }
  }

  lemma InnerLength(start: Point, end: Point, d: real, k: nat, n: nat)
    requires d > 0.0 && 1 <= k < n
    requires (end.x - start.x) / d * ((end.x - start.x) / d) + (end.y - start.y) / d * ((end.y - start.y) / d) == 1.0
    ensures Squared(SegmentPoint(start, end, d, k - 1, n), SegmentPoint(start, end, d, k, n))
            == SEGMENT_LENGTH * SEGMENT_LENGTH
  {
    InnerStep(start.x, end.x, d, k, n);
    InnerStep(start.y, end.y, d, k, n);
    SquaredFrom(SegmentPoint(start, end, d, k - 1, n), SegmentPoint(start, end, d, k, n), SEGMENT_LENGTH,
                (end.x - start.x) / d, (end.y - start.y) / d);
  }

  lemma LastSquared(start: Point, end: Point, d: real, n: nat)
    requires d > 0.0 && 1 <= n
    requires (end.x - start.x) / d * ((end.x - start.x) / d) + (end.y - start.y) / d * ((end.y - start.y) / d) == 1.0
    ensures var c := d - (n - 1) as real * SEGMENT_LENGTH;
            Squared(SegmentPoint(start, end, d, n - 1, n), SegmentPoint(start, end, d, n, n)) == c * c
  {
    LastStep(start.x, end.x, d, n);
    LastStep(start.y, end.y, d, n);
    SquaredFrom(SegmentPoint(start, end, d, n - 1, n), SegmentPoint(start, end, d, n, n),
                d - (n - 1) as real * SEGMENT_LENGTH,
                (end.x - start.x) / d, (end.y - start.y) / d);
  }

  lemma SquareAtMost(c: real)
    requires 0.0 < c <= SEGMENT_LENGTH
    ensures c * c <= SEGMENT_LENGTH * SEGMENT_LENGTH
  {
    calc {
      c * c;
    <= { RealMul(c, SEGMENT_LENGTH, c); }
      SEGMENT_LENGTH * c;
    <=
      SEGMENT_LENGTH * SEGMENT_LENGTH;
    }
  }

  lemma SquaredFrom(a: Point, b: Point, c: real, ux: real, uy: real)
    requires b.x - a.x == c * ux && b.y - a.y == c * uy && ux * ux + uy * uy == 1.0
    ensures Squared(a, b) == c * c
  {
    ScaledUnit(c, ux, uy);
  }

  /** Boundary safety of the firmware's own functions. */
  lemma FirmwareStaysInside(sqrt: real -> real, cfg: Settings, st: State, first: MoveCode, between: seq<MoveCode>,
                            g: MoveCode)
    requires IsSqrt(sqrt) && (NoSkew(cfg.bed) || cfg.bed.corners == Corners(0.0, 0.0, 0.0, 0.0))
    requires !Refused(Firmware(sqrt), cfg, st, first)
    ensures var before := Run(Firmware(sqrt), cfg, Received(Firmware(sqrt), cfg, st, first), between);
            SegmentsInside(Firmware(sqrt), cfg, before, g)
  {
    FirmwareSettled(sqrt, cfg.bed);
    FirmwareConserves(sqrt);
    FirmwareEuclidean(sqrt);
    SegmentsStayInside(Firmware(sqrt), cfg, st, first, between, g);
  }

  /** The exact form for the firmware's own functions, with any skew on any planar calibration. */
  lemma FirmwareInsideExactly(sqrt: real -> real, cfg: Settings, st: State, gs: seq<MoveCode>, a: real, b: real)
    requires IsSqrt(sqrt) && OnPlane(cfg.bed.corners, a, b) && NozzleInRegion(Firmware(sqrt), cfg.bed, Position(st))
    ensures RunInside(Firmware(sqrt), cfg, st, gs) <==> RunLands(Firmware(sqrt), cfg, st, gs)
  {
    FirmwareLinearSkew(sqrt, cfg.bed);
    PlanarCalibration(sqrt, cfg.bed.corners, a, b);
    PlanarStraight(Firmware(sqrt), cfg.bed, a, b);
    FirmwareConserves(sqrt);
    FirmwareEuclidean(sqrt);
    RunInsideExactly(Firmware(sqrt), cfg, st, gs);
  }
}
