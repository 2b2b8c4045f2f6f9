/** Skew and height compensation, and what a change of the bed settings does to the logical position (motors.cpp). */
module Bed {
  import opened BedSurface

  const BED_HIGH_MAX_Z := 112.0
  const BED_LOW_MIN_Z := 0.0

  /** One value per motor, in the order X, Y, Z, E. */
  datatype Vec<T> = Vec(x: T, y: T, z: T, e: T) {
    function At(i: nat): T
      requires i < 4
    {
      if i == 0 then x else if i == 1 then y else if i == 2 then z else e
    }
  }

  type Point = Vec<real>

  /** The height adjustment as a function of the calibration and the logical position. */
  type Levelling = (Corners, real, real) -> real

  /** The firmware's levelling. */
  function FirmwareLevelling(sqrt: real -> real): Levelling {
    (c: Corners, x: real, y: real) => HeightAdjustment(sqrt, c, x, y)
  }

  /** The cached bed settings. */
  datatype BedSettings = BedSettings(corners: Corners, heightOffset: real, skewX: real, skewY: real,
                                     externalHeight: real)

  /** `getSkewAdjustmentRequired` for the axis whose skew is `skew`. */
  function SkewAdjustment(bed: BedSettings, skew: real, height: real): real {
    var span := BED_HIGH_MAX_Z - bed.externalHeight - BED_LOW_MIN_Z;
    if span != 0.0 then height / span * -skew else 0.0
  }

  /** `updateBedChanges(true)`: the logical position after the cached settings change from `previous` to `current`. */
  function UpdatedPosition(level: Levelling, previous: BedSettings, current: BedSettings, p: Point): Point {
    var before := level(previous.corners, p.x, p.y);
    var after := level(current.corners, p.x, p.y);
    var z := p.z + (before + previous.heightOffset - after - current.heightOffset);
    Vec(p.x + (SkewAdjustment(previous, previous.skewX, p.z + before)
               - SkewAdjustment(current, current.skewX, z + after)),
        p.y + (SkewAdjustment(previous, previous.skewY, p.z + before)
               - SkewAdjustment(current, current.skewY, z + after)),
        z, p.e)
  }

  /** Height of the nozzle above the uncalibrated bed. */
  function NozzleHeight(level: Levelling, bed: BedSettings, p: Point): real {
    p.z + level(bed.corners, p.x, p.y) + bed.heightOffset
  }

  /** One change keeps height, skewed X and skewed Y, all measured at the old X and Y. */
  lemma UpdateConserves(level: Levelling, previous: BedSettings, current: BedSettings, p: Point)
    ensures var q := UpdatedPosition(level, previous, current, p);
            && q.z + level(current.corners, p.x, p.y) + current.heightOffset == NozzleHeight(level, previous, p)
            && q.x + SkewAdjustment(current, current.skewX, q.z + level(current.corners, p.x, p.y))
               == p.x + SkewAdjustment(previous, previous.skewX, p.z + level(previous.corners, p.x, p.y))
            && q.y + SkewAdjustment(current, current.skewY, q.z + level(current.corners, p.x, p.y))
               == p.y + SkewAdjustment(previous, previous.skewY, p.z + level(previous.corners, p.x, p.y))
  {
  }

  /** How far one axis, whose skews before and after are given, is moved by a change of the settings. */
  function SkewShift(level: Levelling, previous: BedSettings, current: BedSettings, p: Point, before: real,
                     after: real): real {
    var height := p.z + level(previous.corners, p.x, p.y);
    SkewAdjustment(previous, before, height)
    - SkewAdjustment(current, after, height + previous.heightOffset - current.heightOffset)
  }

  /**
   The nozzle's height changes by exactly the difference of the new bed between the old place and the place the skews
   move it to; so it is kept exactly when the new bed is equally high at both.
   */
  lemma NozzleHeightKept(level: Levelling, previous: BedSettings, current: BedSettings, p: Point)
    ensures var dx := SkewShift(level, previous, current, p, previous.skewX, current.skewX);
            var dy := SkewShift(level, previous, current, p, previous.skewY, current.skewY);
            var gained := level(current.corners, p.x + dx, p.y + dy) - level(current.corners, p.x, p.y);
            var q := UpdatedPosition(level, previous, current, p);
            && q.x == p.x + dx && q.y == p.y + dy
            && NozzleHeight(level, current, q) == NozzleHeight(level, previous, p) + gained
            && (NozzleHeight(level, current, q) == NozzleHeight(level, previous, p) <==> gained == 0.0)
  {
    UpdateConserves(level, previous, current, p);
    var height := p.z + level(previous.corners, p.x, p.y);
    var q := UpdatedPosition(level, previous, current, p);
    assert q.z + level(current.corners, p.x, p.y) == height + previous.heightOffset - current.heightOffset;
  }

  predicate NoSkew(bed: BedSettings) {
    bed.skewX == 0.0 && bed.skewY == 0.0
  }

  /** The logical position after a sequence of setting changes, starting from the settings `bed`. */
  function UpdatedBy(level: Levelling, bed: BedSettings, changes: seq<BedSettings>, p: Point): Point
    decreases |changes|
  {
    if changes == [] then p
    else UpdatedBy(level, changes[0], changes[1..], UpdatedPosition(level, bed, changes[0], p))
  }

  function FinalBed(bed: BedSettings, changes: seq<BedSettings>): BedSettings {
    if changes == [] then bed else changes[|changes| - 1]
  }

  lemma NoSkewStep(level: Levelling, previous: BedSettings, current: BedSettings, p: Point)
    requires NoSkew(previous) && NoSkew(current)
    ensures var q := UpdatedPosition(level, previous, current, p);
            && q.x == p.x && q.y == p.y && q.e == p.e
            && NozzleHeight(level, current, q) == NozzleHeight(level, previous, p)
  {
    NoAdjustment(previous, p.z + level(previous.corners, p.x, p.y));
    NoAdjustment(current, UpdatedPosition(level, previous, current, p).z + level(current.corners, p.x, p.y));
    UpdateConserves(level, previous, current, p);
  }

  lemma NoAdjustment(bed: BedSettings, height: real)
    requires NoSkew(bed)
    ensures SkewAdjustment(bed, bed.skewX, height) == 0.0 && SkewAdjustment(bed, bed.skewY, height) == 0.0
  {
  }

  /**
   Without skew, any sequence of setting changes leaves X, Y and the nozzle height where they are, and a sequence that
   ends with the original settings gives the original Z back.
   */
  lemma {:induction false} ChangesConserve(level: Levelling, bed: BedSettings, changes: seq<BedSettings>, p: Point)
    requires NoSkew(bed) && forall c :: c in changes ==> NoSkew(c)
    ensures var q := UpdatedBy(level, bed, changes, p);
            && q.x == p.x && q.y == p.y && q.e == p.e
            && NozzleHeight(level, FinalBed(bed, changes), q) == NozzleHeight(level, bed, p)
            && (FinalBed(bed, changes) == bed ==> q == p)
    decreases |changes|
  {
    if changes != [] {
      NoSkewStep(level, bed, changes[0], p);
      ChangesConserve(level, changes[0], changes[1..], UpdatedPosition(level, bed, changes[0], p));
    }
  }

  /** The bed is the plane through the centre with slopes `a` and `b`. */
  ghost predicate Planar(level: Levelling, c: Corners, a: real, b: real) {
    forall x, y :: level(c, x, y) == PlaneHeight(a, b, x, y)
  }

  function PlaneHeight(a: real, b: real, x: real, y: real): real {
    a * (x - BED_CENTER_X) + b * (y - BED_CENTER_Y)
  }

  lemma PlanarPoint(sqrt: real -> real, c: Corners, a: real, b: real, x: real, y: real)
    requires IsSqrt(sqrt) && OnPlane(c, a, b)
    ensures FirmwareLevelling(sqrt)(c, x, y) == PlaneHeight(a, b, x, y)
  {
    PlanarPlanes(c, a, b, x, y);
    OnePlane(sqrt, c, x, y, PlaneHeight(a, b, x, y));
  }

  /** The firmware follows a planar calibration, so the next lemma applies to it. */
  lemma PlanarCalibration(sqrt: real -> real, c: Corners, a: real, b: real)
    requires IsSqrt(sqrt) && OnPlane(c, a, b)
    ensures Planar(FirmwareLevelling(sqrt), c, a, b)
  {
    forall x, y
      ensures FirmwareLevelling(sqrt)(c, x, y) == PlaneHeight(a, b, x, y)
    {
      PlanarPoint(sqrt, c, a, b, x, y);
    }
  }

  /**
   On a planar bed with slopes `a` and `b`, any change of the settings moves the nozzle up by exactly the slopes times
   the two shifts, and keeps its height exactly when these cancel.
   */
  lemma NozzleHeightOnPlane(level: Levelling, previous: BedSettings, current: BedSettings, p: Point, a: real, b: real)
    requires Planar(level, current.corners, a, b)
    ensures var dx := SkewShift(level, previous, current, p, previous.skewX, current.skewX);
            var dy := SkewShift(level, previous, current, p, previous.skewY, current.skewY);
            var q := UpdatedPosition(level, previous, current, p);
            && NozzleHeight(level, current, q) == NozzleHeight(level, previous, p) + (a * dx + b * dy)
            && (NozzleHeight(level, current, q) == NozzleHeight(level, previous, p) <==> a * dx + b * dy == 0.0)
  {
    var dx := SkewShift(level, previous, current, p, previous.skewX, current.skewX);
    var dy := SkewShift(level, previous, current, p, previous.skewY, current.skewY);
    NozzleHeightKept(level, previous, current, p);
    PlaneShift(a, b, p.x, p.y, dx, dy);
    assert level(current.corners, p.x + dx, p.y + dy) == PlaneHeight(a, b, p.x + dx, p.y + dy);
    assert level(current.corners, p.x, p.y) == PlaneHeight(a, b, p.x, p.y);
  }

  lemma PlaneShift(a: real, b: real, x: real, y: real, dx: real, dy: real)
    ensures PlaneHeight(a, b, x + dx, y + dy) == PlaneHeight(a, b, x, y) + (a * dx + b * dy)
  {
  }

  /**
   So with skew the nozzle height is not conserved: on a planar bed, switching a skew on at height `height` moves the
   nozzle, unless the slopes and skews cancel.
   */
  lemma SkewOnSlopedBed(level: Levelling, previous: BedSettings, skewX: real, skewY: real, p: Point, a: real, b: real)
    requires Planar(level, previous.corners, a, b) && NoSkew(previous) && previous.externalHeight != BED_HIGH_MAX_Z
    ensures var current := previous.(skewX := skewX, skewY := skewY);
            var height := p.z + level(previous.corners, p.x, p.y);
            NozzleHeight(level, current, UpdatedPosition(level, previous, current, p))
            == NozzleHeight(level, previous, p)
               + height / (BED_HIGH_MAX_Z - previous.externalHeight) * (a * skewX + b * skewY)
  {
    var current := previous.(skewX := skewX, skewY := skewY);
    var share := (p.z + level(previous.corners, p.x, p.y)) / (BED_HIGH_MAX_Z - previous.externalHeight);
    NoAdjustment(previous, p.z + level(previous.corners, p.x, p.y));
    NozzleHeightOnPlane(level, previous, current, p, a, b);
    assert SkewShift(level, previous, current, p, previous.skewX, skewX) == share * skewX;
    assert SkewShift(level, previous, current, p, previous.skewY, skewY) == share * skewY;
    Factored(a, b, share, skewX, skewY);
  }

  lemma Factored(a: real, b: real, share: real, skewX: real, skewY: real)
    ensures a * (share * skewX) + b * (share * skewY) == share * (a * skewX + b * skewY)
  {
  }
}
