/**
 How far the nozzle can leave the printable region when levelling and skew are both at work: at every segment of every
 movement of a run, for all settings.
 */
module Excursions {
  import opened Arithmetic
  import opened BedSurface
  import opened Bed
  import opened Motion
  import opened Conservation
  import opened Boundary
  import opened StepCounts

  /** Inside the region widened by `m` on either side, in each direction. */
  predicate NearRegion(x: real, y: real, mx: real, my: real) {
    Within(x, -2.0, 106.0, mx) && Within(y, -9.0, 105.0, my)
  }

  predicate NozzleNear(env: Env, bed: BedSettings, p: Point, mx: real, my: real) {
    NearRegion(RealPosition(env, bed, p).x, RealPosition(env, bed, p).y, mx, my)
  }

  /** The largest height adjustment in the box. */
  function Tallest(gain: Gain, box: Box): real {
    gain.level(box.x + box.y)
  }

  /** The largest rise of a target that is bounded to the box. */
  function LargestRise(gain: Gain, box: Box): real {
    gain.level(115.0) + Tallest(gain, box)
  }

  lemma RiseWithin(env: Env, cfg: Settings, gain: Gain, box: Box, target: Point)
    requires Limits(env, cfg.bed, gain) && box.Has(Bounded(env, cfg, target))
    ensures -LargestRise(gain, box) <= Rise(env, cfg, target) <= LargestRise(gain, box)
  {
    var t, end := ChosenTier(env, cfg, target, 0), Bounded(env, cfg, target);
    TierReach(target, t);
    BoxReaches(box, end);
  }

  lemma BoxReaches(box: Box, p: Point)
    requires box.Has(p)
    ensures Reaches(p.x, p.y, box.x + box.y)
  {
  }

  /** A place where the nozzle is aside of the region by no more than height differences of `most` can move it. */
  predicate Strays(env: Env, bed: BedSettings, p: Point, most: real) {
    NozzleNear(env, bed, p, Sway(SlopeX(env, bed), most), Sway(SlopeY(env, bed), most))
  }

  // ---- Ends

  /** Every end in the box strays by at most `rise`. */
  ghost predicate EndsStray(env: Env, cfg: Settings, box: Box, rise: real) {
    forall target: Point :: Near(target.z, 0.0, box.z) ==> Strays(env, cfg.bed, Bounded(env, cfg, target), rise)
  }

  lemma EndsStrayInBox(env: Env, cfg: Settings, gain: Gain, box: Box)
    requires LinearSkew(env, cfg.bed) && Limits(env, cfg.bed, gain) && Bounds(env, cfg, box)
    ensures EndsStray(env, cfg, box, LargestRise(gain, box))
  {
    forall target: Point | Near(target.z, 0.0, box.z)
      ensures Strays(env, cfg.bed, Bounded(env, cfg, target), LargestRise(gain, box))
    {
      EndStrays(env, cfg, gain, box, target);
    }
  }

  lemma EndStrays(env: Env, cfg: Settings, gain: Gain, box: Box, target: Point)
    requires LinearSkew(env, cfg.bed) && Limits(env, cfg.bed, gain) && box.Has(Bounded(env, cfg, target))
    ensures Strays(env, cfg.bed, Bounded(env, cfg, target), LargestRise(gain, box))
  {
    RiseWithin(env, cfg, gain, box, target);
    BoundedInChosenTier(env, cfg, target, LargestRise(gain, box));
  }

  // ---- Segments

  /** The bed's height differs by at most `tall` in the box. */
  ghost predicate AtMostTall(env: Env, bed: BedSettings, box: Box, tall: real) {
    forall p: Point :: box.Has(p) ==> -tall <= env.level(bed.corners, p.x, p.y) <= tall
  }

  lemma TallInBox(env: Env, bed: BedSettings, gain: Gain, box: Box)
    requires Limits(env, bed, gain)
    ensures AtMostTall(env, bed, box, Tallest(gain, box))
  {
    forall p: Point | box.Has(p)
      ensures -Tallest(gain, box) <= env.level(bed.corners, p.x, p.y) <= Tallest(gain, box)
    {
      BoxReaches(box, p);
    }
  }

  lemma SagWithin(env: Env, bed: BedSettings, box: Box, tall: real, start: Point, end: Point, p: Point, share: real)
    requires AtMostTall(env, bed, box, tall) && box.Has(start) && box.Has(end) && box.Has(p) && 0.0 <= share <= 1.0
    ensures -2.0 * tall <= Sag(env, bed, start, end, p, share) <= 2.0 * tall
  {
    ConvexInside(env.level(bed.corners, start.x, start.y), env.level(bed.corners, end.x, end.y), share, -tall, tall);
  }

  lemma AlongStrays(nozzle: Point, from: Point, to: Point, share: real, a: real, b: real, s: real, rise: real,
                    sag: real)
    requires NozzleAlong(nozzle, from, to, share, a, b, s) && 0.0 <= share <= 1.0 && -sag <= s <= sag
    requires NearRegion(from.x, from.y, Sway(a, rise), Sway(b, rise))
    requires NearRegion(to.x, to.y, Sway(a, rise), Sway(b, rise))
    ensures NearRegion(nozzle.x, nozzle.y, Sway(a, rise + sag), Sway(b, rise + sag))
  {
    AxisStrays(from.x, to.x, share, a, s, -2.0, 106.0, rise, sag);
    AxisStrays(from.y, to.y, share, b, s, -9.0, 105.0, rise, sag);
  }

  lemma AxisStrays(from: real, to: real, share: real, slope: real, s: real, low: real, high: real, rise: real,
                   sag: real)
    requires 0.0 <= share <= 1.0 && -sag <= s <= sag
    requires Within(from, low, high, Sway(slope, rise)) && Within(to, low, high, Sway(slope, rise))
    ensures Within(Along(from, to, share) + slope * s, low, high, Sway(slope, rise + sag))
  {
    var m := Sway(slope, rise);
    ConvexInside(from, to, share, low - m, high + m);
    SwaysWithin(Along(from, to, share), low - m, high + m, slope, s, sag);
    SwaysAdd(slope, rise, sag);
  }

  lemma SwaysAdd(slope: real, a: real, b: real)
    ensures Sway(slope, a + b) == Sway(slope, a) + Sway(slope, b)
  {
  }

  lemma PointStrays(env: Env, bed: BedSettings, box: Box, tall: real, start: Point, end: Point, p: Point, share: real,
                    rise: real)
    requires LinearSkew(env, bed) && AtMostTall(env, bed, box, tall) && box.Has(start) && box.Has(end) && box.Has(p)
    requires OnTheWay(start, end, p, share) && 0.0 <= share <= 1.0
    requires Strays(env, bed, start, rise) && Strays(env, bed, end, rise)
    ensures Strays(env, bed, p, rise + 2.0 * tall)
  {
    SagWithin(env, bed, box, tall, start, end, p, share);
    NozzleOnTheWay(env, bed, start, end, p, share);
    AlongStrays(RealPosition(env, bed, p), RealPosition(env, bed, start), RealPosition(env, bed, end), share,
                SlopeX(env, bed), SlopeY(env, bed), Sag(env, bed, start, end, p, share), rise, 2.0 * tall);
  }

  lemma SegmentStrays(env: Env, bed: BedSettings, box: Box, tall: real, start: Point, end: Point, d: real, k: nat,
                      rise: real)
    requires LinearSkew(env, bed) && AtMostTall(env, bed, box, tall) && box.Has(start) && box.Has(end)
    requires d >= 0.0 && 1 <= k <= NumberOfSegments(d) && Strays(env, bed, start, rise) && Strays(env, bed, end, rise)
    ensures Strays(env, bed, SegmentPoint(start, end, d, k, NumberOfSegments(d)), rise + 2.0 * tall)
  {
    var share := SegmentShare(start, end, d, k);
    SegmentInBox(box, start, end, d, k);
    PointStrays(env, bed, box, tall, start, end, SegmentPoint(start, end, d, k, NumberOfSegments(d)), share, rise);
  }

  // ---- Runs

  /** The number of segments of the movement `g` from the state `st`. */
  function Segments(env: Env, cfg: Settings, st: State, g: MoveCode): nat {
    NumberOfSegments(env.distance(Position(st), Target(env, cfg, WithFeedRate(st, g), g)))
  }

  /** Where the `k`-th of them ends. */
  function SegmentEnd(env: Env, cfg: Settings, st: State, g: MoveCode, k: nat): Point {
    var start, target := Position(st), Target(env, cfg, WithFeedRate(st, g), g);
    SegmentPoint(start, target, env.distance(start, target), k, Segments(env, cfg, st, g))
  }

  lemma TargetStrays(env: Env, cfg: Settings, st: State, g: MoveCode, box: Box, rise: real) returns (target: Point)
    requires EndsStray(env, cfg, box, rise) && Bounds(env, cfg, box) && Near(RequestedPoint(st, g).z, 0.0, box.z)
    ensures target == Target(env, cfg, WithFeedRate(st, g), g) && box.Has(target)
    ensures Strays(env, cfg.bed, target, rise)
  {
    target := TargetInBox(env, cfg, st, g, box);
    TargetIs(env, cfg, st, g);
  }

  lemma AcceptedStrays(env: Env, cfg: Settings, st: State, g: MoveCode, box: Box, rise: real)
    requires EndsStray(env, cfg, box, rise) && Bounds(env, cfg, box) && Near(RequestedPoint(st, g).z, 0.0, box.z)
    requires Keeps(env, Owed) && !Refused(env, cfg, st, g)
    ensures Strays(env, cfg.bed, Position(Received(env, cfg, st, g)), rise)
  {
    var target := TargetStrays(env, cfg, st, g, box, rise);
    AcceptedAt(env, cfg, st, g, target);
  }

  lemma RefusedStays(env: Env, cfg: Settings, st: State, g: MoveCode)
    requires Refused(env, cfg, st, g)
    ensures Position(Received(env, cfg, st, g)) == Position(st)
  {
  }

  lemma {:induction false} RunStrays(env: Env, cfg: Settings, st: State, gs: seq<MoveCode>, box: Box, rise: real)
    requires EndsStray(env, cfg, box, rise) && Bounds(env, cfg, box) && Keeps(env, Owed)
    requires box.Has(Position(st)) && StaysLow(env, cfg, st, gs, box.z) && Strays(env, cfg.bed, Position(st), rise)
    ensures Strays(env, cfg.bed, Position(Run(env, cfg, st, gs)), rise)
    decreases |gs|
  {
    if gs != [] {
      var front := gs[..|gs| - 1];
      var before, g := Run(env, cfg, st, front), gs[|gs| - 1];
      RunStrays(env, cfg, st, front, box, rise);
      if Refused(env, cfg, before, g) {
        RefusedStays(env, cfg, before, g);
      } else {
        AcceptedStrays(env, cfg, before, g, box, rise);
      }
    }
  }

  lemma MovementStrays(env: Env, cfg: Settings, st: State, g: MoveCode, box: Box, rise: real, tall: real, k: nat)
    requires LinearSkew(env, cfg.bed) && AtMostTall(env, cfg.bed, box, tall) && NonNegative(env)
    requires EndsStray(env, cfg, box, rise) && Bounds(env, cfg, box) && Near(RequestedPoint(st, g).z, 0.0, box.z)
    requires box.Has(Position(st)) && Strays(env, cfg.bed, Position(st), rise) && 1 <= k <= Segments(env, cfg, st, g)
    ensures Strays(env, cfg.bed, SegmentEnd(env, cfg, st, g, k), rise + 2.0 * tall)
  {
    var target := TargetStrays(env, cfg, st, g, box, rise);
    SegmentStrays(env, cfg.bed, box, tall, Position(st), target, env.distance(Position(st), target), k, rise);
  }

  lemma LastMovementStrays(env: Env, cfg: Settings, st: State, gs: seq<MoveCode>, g: MoveCode, box: Box, rise: real,
                           tall: real, k: nat)
    requires LinearSkew(env, cfg.bed) && AtMostTall(env, cfg.bed, box, tall) && NonNegative(env) && Keeps(env, Owed)
    requires EndsStray(env, cfg, box, rise) && Bounds(env, cfg, box) && StaysLow(env, cfg, st, gs + [g], box.z)
    requires box.Has(Position(st)) && Strays(env, cfg.bed, Position(st), rise)
    requires 1 <= k <= Segments(env, cfg, Run(env, cfg, st, gs), g)
    ensures Strays(env, cfg.bed, SegmentEnd(env, cfg, Run(env, cfg, st, gs), g, k), rise + 2.0 * tall)
  {
    assert (gs + [g])[..|gs|] == gs;
    RunInBox(env, cfg, st, gs, box);
    RunStrays(env, cfg, st, gs, box, rise);
    MovementStrays(env, cfg, Run(env, cfg, st, gs), g, box, rise, tall, k);
  }

  lemma BoxStrays(env: Env, cfg: Settings, st: State, top: real, gain: Gain, box: Box, rise: real, tall: real)
    requires LinearSkew(env, cfg.bed) && Limits(env, cfg.bed, gain) && box == RunBox(gain, st, top)
    requires Near(Position(st).z, 0.0, top) && rise == LargestRise(gain, box) && tall == Tallest(gain, box)
    ensures EndsStray(env, cfg, box, rise) && AtMostTall(env, cfg.bed, box, tall) && Bounds(env, cfg, box)
    ensures box.z == top && box.Has(Position(st))
  {
    StartInBox(gain, st, top);
    LimitsBound(env, cfg, gain, box);
    EndsStrayInBox(env, cfg, gain, box);
    TallInBox(env, cfg.bed, gain, box);
  }

  /**
   How far a run can leave the region: from a start that is near it, every segment of every later movement of a run up
   to the height `top` ends with the nozzle aside by no more than the skew of the largest height differences of the bed
   in the run's box.
   */
  lemma RunSegmentsStray(env: Env, cfg: Settings, st: State, gs: seq<MoveCode>, g: MoveCode, top: real, gain: Gain,
                         box: Box, rise: real, tall: real, k: nat)
    requires LinearSkew(env, cfg.bed) && Limits(env, cfg.bed, gain) && Keeps(env, Owed) && NonNegative(env)
    requires StaysLow(env, cfg, st, gs + [g], top) && box == RunBox(gain, st, top)
    requires rise == LargestRise(gain, box) && tall == Tallest(gain, box)
    requires Strays(env, cfg.bed, Position(st), rise) && 1 <= k <= Segments(env, cfg, Run(env, cfg, st, gs), g)
    ensures Strays(env, cfg.bed, SegmentEnd(env, cfg, Run(env, cfg, st, gs), g, k), rise + 2.0 * tall)
  {
    StartsLow(env, cfg, st, gs + [g], top);
    BoxStrays(env, cfg, st, top, gain, box, rise, tall);
    LastMovementStrays(env, cfg, st, gs, g, box, rise, tall, k);
  }

  /** The same of the firmware, for all settings. */
  lemma FirmwareStrays(sqrt: real -> real, cfg: Settings, st: State, gs: seq<MoveCode>, g: MoveCode, top: real,
                       gain: Gain, box: Box, rise: real, tall: real, k: nat)
    requires IsSqrt(sqrt) && StaysLow(Firmware(sqrt), cfg, st, gs + [g], top)
    requires gain == FirmwareGain(cfg.bed) && box == RunBox(gain, st, top)
    requires rise == LargestRise(gain, box) && tall == Tallest(gain, box)
    requires Strays(Firmware(sqrt), cfg.bed, Position(st), rise)
    requires 1 <= k <= Segments(Firmware(sqrt), cfg, Run(Firmware(sqrt), cfg, st, gs), g)
    ensures Strays(Firmware(sqrt), cfg.bed, SegmentEnd(Firmware(sqrt), cfg, Run(Firmware(sqrt), cfg, st, gs), g, k),
                   rise + 2.0 * tall)
  {
    FirmwareLinearSkew(sqrt, cfg.bed);
    FirmwareLimits(sqrt, cfg.bed);
    FirmwareConserves(sqrt);
    FirmwareNonNegative(sqrt);
    RunSegmentsStray(Firmware(sqrt), cfg, st, gs, g, top, gain, box, rise, tall, k);
  }

  lemma NoSway(sqrt: real -> real, bed: BedSettings, box: Box)
    requires NoSkew(bed) || bed.corners == Corners(0.0, 0.0, 0.0, 0.0)
    ensures var most := LargestRise(FirmwareGain(bed), box) + 2.0 * Tallest(FirmwareGain(bed), box);
            Sway(SlopeX(Firmware(sqrt), bed), most) == 0.0 && Sway(SlopeY(Firmware(sqrt), bed), most) == 0.0
  {
    if NoSkew(bed) {
      NoAdjustment(bed, 1.0);
    } else {
      assert Largest(bed.corners) == 0.0;
      assert Tallest(FirmwareGain(bed), box) == 0.0 && LargestRise(FirmwareGain(bed), box) == 0.0;
    }
  }
}
