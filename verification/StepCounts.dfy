/**
 When every segment of every movement of a run fits the 32-bit step counters, so that issued steps follow the distance:
 on the extruder always, on X and Y without skew always, and on every motor when settings and commands leave room.
 */
module StepCounts {
  import opened Options
  import opened Arithmetic
  import opened BedSurface
  import opened Bed
  import opened Motion
  import opened Conservation
  import opened Boundary

  /** `b` is on the way from `a` to `c`. */
  predicate Between(a: real, b: real, c: real) {
    a <= b <= c || a >= b >= c
  }

  // ---- From the firmware's own test of the whole movement

  /** The steps still asked for up to the end of the movement fit the counter. */
  predicate Fits(m: Drive, scale: real, last: real) {
    Fraction(m) && TotalSteps(m, scale, last) <= UINT32_MAX as real
  }

  /** A part of the way asks for no more than the whole way, and what it issues is no longer asked for afterwards. */
  lemma PartFits(m: Drive, scale: real, v: real, last: real)
    requires scale >= 0.0 && Fits(m, scale, last) && Between(m.value, v, last)
    ensures TotalSteps(m, scale, v) <= UINT32_MAX as real
    ensures Fits(Step(m, scale, v), scale, last)
  {
    if v == m.value {
      NoWay(m, scale);
    } else {
      PartAsks(m, scale, v, last);
      StepKeepsFraction(m, scale, v);
      RestAsks(m, scale, v, last, Step(m, scale, v));
    }
  }

  lemma NoWay(m: Drive, scale: real)
    requires Fraction(m)
    ensures TotalSteps(m, scale, m.value) < 1.0
  {
  }

  lemma PartAsks(m: Drive, scale: real, v: real, last: real)
    requires scale >= 0.0 && Between(m.value, v, last) && v != m.value
    ensures TotalSteps(m, scale, v) <= TotalSteps(m, scale, last)
  {
    PartOfWay(m.value, v, last, scale);
  }

  lemma RestAsks(m: Drive, scale: real, v: real, last: real, m': Drive)
    requires scale >= 0.0 && Between(m.value, v, last) && v != m.value && Fraction(m')
    requires m'.value == v && m'.pin == (v > m.value) && m'.remaining <= TotalSteps(m, scale, v)
    ensures TotalSteps(m', scale, last) < 1.0 || TotalSteps(m', scale, last) <= TotalSteps(m, scale, last)
  {
    if v == last {
      NoWay(m', scale);
    } else {
      PartOfWay(m.value, v, last, scale);
    }
  }

  lemma PartOfWay(a: real, b: real, c: real, scale: real)
    requires scale >= 0.0 && Between(a, b, c)
    ensures 0.0 <= Abs(b - a) * scale <= Abs(c - a) * scale
    ensures Abs(c - b) * scale == Abs(c - a) * scale - Abs(b - a) * scale
  {
    RealMul(0.0, Abs(b - a), scale);
    RealMul(Abs(b - a), Abs(c - a), scale);
    assert Abs(c - b) == Abs(c - a) - Abs(b - a);
  }

  /** The ends of the segments from `k` on lead motor `i` monotonically to the last one. */
  ghost predicate Leads(ends: nat -> Point, k: nat, n: nat, i: nat)
    requires i < 4
  {
    forall j: nat :: k < j <= n ==> Between(ends(j - 1).At(i), ends(j).At(i), ends(n).At(i))
  }

  lemma {:induction false} LeadingSegmentsFit(env: Env, scale: Vec<real>, drives: Vec<Drive>, ends: nat -> Point,
                                              k: nat, n: nat, i: nat)
    requires k <= n && i < 4 && Lawful(env) && scale.At(i) >= 0.0
    requires Fits(drives.At(i), scale.At(i), ends(n).At(i))
    requires Between(drives.At(i).value, ends(k).At(i), ends(n).At(i)) && Leads(ends, k, n, i)
    ensures SegmentsFit(env, scale, drives, ends, k, n, i)
    decreases n - k
  {
    LawfulAt(env, drives.At(i), scale.At(i), ends(k).At(i));
    PartFits(drives.At(i), scale.At(i), ends(k).At(i), ends(n).At(i));
    if k < n {
      MovedAt(env, scale, drives, ends(k), i);
      StepConserves(drives.At(i), scale.At(i), ends(k).At(i));
      LeadingSegmentsFit(env, scale, Moved(env, scale, drives, ends(k)), ends, k + 1, n, i);
    }
  }

  /** The share of the way at which segment `j` of `n` ends, the same on every axis. */
  function ShareReached(distance: real, j: nat, n: nat): real {
    if j == n then 1.0 else if distance == 0.0 then 0.0 else Share(distance, j)
  }

  lemma SegmentAtShare(distance: real, j: nat, n: nat)
    requires distance >= 0.0 && j <= n == NumberOfSegments(distance)
    ensures 0.0 <= ShareReached(distance, j, n) <= 1.0
    ensures forall a, b :: SegmentValue(a, b, distance, j, n) == a + ShareReached(distance, j, n) * (b - a)
  {
    if 0 < j < n {
      ShareBounds(distance, j);
    }
    forall a, b
      ensures SegmentValue(a, b, distance, j, n) == a + ShareReached(distance, j, n) * (b - a)
    {
      if j < n && distance > 0.0 {
        SegmentIsShare(a, b, distance, j, n);
      }
    }
  }

  lemma SharesRise(distance: real, j: nat, n: nat)
    requires distance >= 0.0 && 0 < j <= n == NumberOfSegments(distance)
    ensures ShareReached(distance, j - 1, n) <= ShareReached(distance, j, n)
  {
    if j < n {
      ShareBounds(distance, j);
    } else if j > 1 {
      ShareBounds(distance, j - 1);
    }
  }

  lemma ConvexBetween(a: real, b: real, s: real, t: real)
    requires 0.0 <= s <= t <= 1.0
    ensures Between(a + s * (b - a), a + t * (b - a), b)
  {
    if b >= a {
      RealMul(s, t, b - a);
      RealMul(t, 1.0, b - a);
    } else {
      RealMul(s, t, a - b);
      RealMul(t, 1.0, a - b);
      assert s * (b - a) == -(s * (a - b)) && t * (b - a) == -(t * (a - b));
    }
  }

  lemma SharesAt(distance: real, i: nat, j: nat, n: nat) returns (s: real, t: real)
    requires distance >= 0.0 && i + 1 == j <= n == NumberOfSegments(distance)
    ensures 0.0 <= s <= t <= 1.0
    ensures forall a, b :: SegmentValue(a, b, distance, i, n) == a + s * (b - a)
    ensures forall a, b :: SegmentValue(a, b, distance, j, n) == a + t * (b - a)
  {
    SegmentAtShare(distance, i, n);
    SegmentAtShare(distance, j, n);
    SharesRise(distance, j, n);
    s, t := ShareReached(distance, i, n), ShareReached(distance, j, n);
  }

  /** Segment ends follow each other towards the end of the movement. */
  lemma SegmentsLead(start: real, end: real, distance: real, j: nat)
    requires distance >= 0.0 && 0 < j <= NumberOfSegments(distance)
    ensures var n := NumberOfSegments(distance);
            Between(SegmentValue(start, end, distance, j - 1, n), SegmentValue(start, end, distance, j, n), end)
  {
    var s, t := SharesAt(distance, j - 1, j, NumberOfSegments(distance));
    ConvexBetween(start, end, s, t);
  }

  lemma StartValue(start: real, end: real, distance: real, n: nat)
    requires 0 < n
    ensures SegmentValue(start, end, distance, 0, n) == start
  {
  }

  /** Neither compensation moves motor `i`. */
  ghost predicate Direct(env: Env, bed: BedSettings, i: nat)
    requires i < 4
  {
    forall p: Point :: RealPosition(env, bed, p).At(i) == p.At(i)
  }

  lemma ExtruderDirect(env: Env, bed: BedSettings)
    ensures Direct(env, bed, 3)
  {
  }

  lemma UnskewedDirect(env: Env, bed: BedSettings, i: nat)
    requires i < 2 && Unskewed(env, bed)
    ensures Direct(env, bed, i)
  {
    forall p: Point
      ensures RealPosition(env, bed, p).At(i) == p.At(i)
    {
      UnskewedReal(env, bed, p);
    }
  }

  ghost predicate NonNegative(env: Env) {
    forall a: Point, b: Point :: env.distance(a, b) >= 0.0
  }

  lemma SegmentPointAt(start: Point, end: Point, distance: real, k: nat, n: nat, i: nat)
    requires i < 4
    ensures SegmentPoint(start, end, distance, k, n).At(i) == SegmentValue(start.At(i), end.At(i), distance, k, n)
  {
  }

  lemma PositionAt(st: State, i: nat)
    requires i < 4
    ensures Position(st).At(i) == st.drives.At(i).value
  {
  }

  lemma DirectEnd(env: Env, bed: BedSettings, start: Point, end: Point, d: real, k: nat, n: nat, i: nat)
    requires i < 4 && Direct(env, bed, i)
    ensures SegmentEnds(env, bed, start, end, d, n)(k).At(i) == SegmentValue(start.At(i), end.At(i), d, k, n)
  {
    SegmentPointAt(start, end, d, k, n, i);
  }

  lemma DirectLeads(env: Env, bed: BedSettings, start: Point, end: Point, i: nat, ends: nat -> Point, n: nat)
    requires i < 4 && Direct(env, bed, i) && NonNegative(env)
    requires n == NumberOfSegments(env.distance(start, end))
    requires ends == SegmentEnds(env, bed, start, end, env.distance(start, end), n)
    ensures Leads(ends, 1, n, i) && Between(start.At(i), ends(1).At(i), ends(n).At(i)) && ends(n).At(i) == end.At(i)
  {
    var d := env.distance(start, end);
    var values := (k: nat) => SegmentValue(start.At(i), end.At(i), d, k, n);
    forall k: nat
      ensures ends(k).At(i) == values(k)
    {
      DirectEnd(env, bed, start, end, d, k, n, i);
    }
    forall j: nat | 0 < j <= n
      ensures Between(values(j - 1), values(j), end.At(i))
    {
      SegmentsLead(start.At(i), end.At(i), d, j);
    }
    StartValue(start.At(i), end.At(i), d, n);
    ValuesLead(ends, values, start.At(i), end.At(i), n, i);
  }

  lemma ValuesLead(ends: nat -> Point, values: nat -> real, start: real, end: real, n: nat, i: nat)
    requires i < 4 && 0 < n && forall k: nat :: ends(k).At(i) == values(k)
    requires forall j: nat :: 0 < j <= n ==> Between(values(j - 1), values(j), end)
    requires values(0) == start && values(n) == end
    ensures Leads(ends, 1, n, i) && Between(start, ends(1).At(i), ends(n).At(i)) && ends(n).At(i) == end
  {
    assert Between(values(1 - 1), values(1), end);
  }

  lemma AcceptedFits(env: Env, cfg: Settings, drives: Vec<Drive>, target: Point, i: nat)
    requires i < 4 && Lawful(env) && Fraction(drives.At(i)) && !TooBig(env, cfg, drives, target)
    ensures Fits(drives.At(i), Scale(cfg).At(i), target.At(i))
  {
    var m, s, v := drives.At(i), Scale(cfg).At(i), target.At(i);
    assert !MotorTooBig(env, m, s, v);
    LawfulAt(env, m, s, v);
    if v == m.value {
      NoWay(m, s);
    }
  }

  /** The firmware tests only the whole movement; on a motor that is not compensated that covers every segment. */
  lemma DirectFits(env: Env, cfg: Settings, st: State, g: MoveCode, i: nat)
    requires i < 4 && Lawful(env) && NonNegative(env) && Direct(env, cfg.bed, i)
    requires Scale(cfg).At(i) >= 0.0 && Fraction(st.drives.At(i))
    ensures MovementFits(env, cfg, st, g, i)
  {
    if !Refused(env, cfg, st, g) {
      var start, target := Position(st), Target(env, cfg, WithFeedRate(st, g), g);
      var n := NumberOfSegments(env.distance(start, target));
      var ends := SegmentEnds(env, cfg.bed, start, target, env.distance(start, target), n);
      var first := Placed(st.drives, RealPosition(env, cfg.bed, start));
      PositionAt(st, i);
      PlacedAt(st.drives, RealPosition(env, cfg.bed, start), i);
      assert first.At(i) == st.drives.At(i);
      AcceptedFits(env, cfg, st.drives, target, i);
      DirectLeads(env, cfg.bed, start, target, i, ends, n);
      LeadingSegmentsFit(env, Scale(cfg), first, ends, 1, n, i);
    }
  }

  lemma {:induction false} DirectRunFits(env: Env, cfg: Settings, st: State, gs: seq<MoveCode>, i: nat)
    requires i < 4 && Lawful(env) && KeepsFraction(env) && NonNegative(env) && Direct(env, cfg.bed, i)
    requires Scale(cfg).At(i) >= 0.0 && Fraction(st.drives.At(i))
    ensures RunFits(env, cfg, st, gs, i)
    decreases |gs|
  {
    if gs != [] {
      var before := gs[..|gs| - 1];
      DirectRunFits(env, cfg, st, before, i);
      RunKeepsFraction(env, cfg, st, before, i);
      DirectFits(env, cfg, Run(env, cfg, st, before), gs[|gs| - 1], i);
    }
  }

  /** Step conservation on a motor that is not compensated, over every run and for all settings and commands. */
  lemma DirectStepsMatch(env: Env, cfg: Settings, st: State, gs: seq<MoveCode>, i: nat)
    requires i < 4 && Lawful(env) && Faithful(env) && NonNegative(env) && Direct(env, cfg.bed, i)
    requires Scale(cfg).At(i) >= 0.0 && st.drives.At(i).remaining == 0.0
    ensures Matches(env, cfg, st, Run(env, cfg, st, gs), i)
  {
    DirectRunFits(env, cfg, st, gs, i);
    StepsMatchDistance(env, cfg, st, gs, i);
  }

  // ---- From room around the settings and commands

  predicate Near(v: real, center: real, half: real) {
    center - half <= v <= center + half
  }

  /** Half widths of a box around the bed's centre, from `-z` to `z`. */
  datatype Box = Box(x: real, y: real, z: real) {
    predicate Has(p: Point) {
      Near(p.x, BED_CENTER_X, x) && Near(p.y, BED_CENTER_Y, y) && Near(p.z, 0.0, z)
    }

    function Half(i: nat): real
      requires i < 3
    {
      if i == 0 then x else if i == 1 then y else z
    }
  }

  function BoxCenter(i: nat): real
    requires i < 3
  {
    if i == 0 then BED_CENTER_X else if i == 1 then BED_CENTER_Y else 0.0
  }

  lemma BoxAt(box: Box, p: Point, i: nat)
    requires i < 3 && box.Has(p)
    ensures Near(p.At(i), BoxCenter(i), box.Half(i))
  {
  }

  /** In the box, the compensations move motor `i` by at most `drift`. */
  ghost predicate Drifts(env: Env, bed: BedSettings, box: Box, i: nat, drift: real)
    requires i < 4
  {
    forall p: Point :: box.Has(p) ==> Near(RealPosition(env, bed, p).At(i), p.At(i), drift)
  }

  /** Every target of such a height is bounded to a point of the box. */
  ghost predicate Bounds(env: Env, cfg: Settings, box: Box) {
    forall target: Point :: Near(target.z, 0.0, box.z) ==> box.Has(Bounded(env, cfg, target))
  }

  /** A way of `half` to either side of a point fits the step counter of motor `i`. */
  predicate Room(scale: Vec<real>, i: nat, half: real)
    requires i < 4
  {
    2.0 * half * scale.At(i) <= UINT32_MAX as real
  }

  lemma NearFits(m: Drive, scale: real, v: real, center: real, half: real)
    requires scale >= 0.0 && Fraction(m) && Near(m.value, center, half) && Near(v, center, half)
    requires 2.0 * half * scale <= UINT32_MAX as real
    ensures TotalSteps(m, scale, v) < 4294967296.0
  {
    var way := Abs(v - m.value);
    var most := ProductAtMost(way, scale, 2.0 * half, scale, way * scale);
  }

  lemma {:induction false} NearSegmentsFit(env: Env, scale: Vec<real>, drives: Vec<Drive>, ends: nat -> Point, k: nat,
                                           n: nat, i: nat, center: real, half: real)
    requires k <= n && i < 4 && Lawful(env) && KeepsFraction(env) && scale.At(i) >= 0.0 && Fraction(drives.At(i))
    requires Room(scale, i, half) && Near(drives.At(i).value, center, half)
    requires forall j: nat :: k <= j <= n ==> Near(ends(j).At(i), center, half)
    ensures SegmentsFit(env, scale, drives, ends, k, n, i)
    decreases n - k
  {
    LawfulAt(env, drives.At(i), scale.At(i), ends(k).At(i));
    NearFits(drives.At(i), scale.At(i), ends(k).At(i), center, half);
    if k < n {
      MovedAt(env, scale, drives, ends(k), i);
      StepConserves(drives.At(i), scale.At(i), ends(k).At(i));
      KeepsFractionAt(env, drives.At(i), scale.At(i), ends(k).At(i));
      NearSegmentsFit(env, scale, Moved(env, scale, drives, ends(k)), ends, k + 1, n, i, center, half);
    }
  }

  lemma SegmentInBox(box: Box, start: Point, end: Point, distance: real, k: nat)
    requires distance >= 0.0 && 1 <= k <= NumberOfSegments(distance) && box.Has(start) && box.Has(end)
    ensures box.Has(SegmentPoint(start, end, distance, k, NumberOfSegments(distance)))
  {
    SegmentValueInside(start.x, end.x, distance, k, BED_CENTER_X - box.x, BED_CENTER_X + box.x);
    SegmentValueInside(start.y, end.y, distance, k, BED_CENTER_Y - box.y, BED_CENTER_Y + box.y);
    SegmentValueInside(start.z, end.z, distance, k, -box.z, box.z);
  }

  lemma DriftNear(env: Env, bed: BedSettings, box: Box, i: nat, drift: real, p: Point)
    requires i < 3 && Drifts(env, bed, box, i, drift) && box.Has(p)
    ensures Near(RealPosition(env, bed, p).At(i), BoxCenter(i), box.Half(i) + drift)
  {
    BoxAt(box, p, i);
  }

  lemma EndNear(env: Env, bed: BedSettings, start: Point, end: Point, d: real, j: nat, i: nat, box: Box, drift: real)
    requires i < 3 && Drifts(env, bed, box, i, drift) && box.Has(start) && box.Has(end)
    requires d >= 0.0 && 1 <= j <= NumberOfSegments(d)
    ensures Near(SegmentEnds(env, bed, start, end, d, NumberOfSegments(d))(j).At(i), BoxCenter(i), box.Half(i) + drift)
  {
    SegmentInBox(box, start, end, d, j);
    DriftNear(env, bed, box, i, drift, SegmentPoint(start, end, d, j, NumberOfSegments(d)));
  }

  lemma EndsNear(env: Env, bed: BedSettings, start: Point, end: Point, d: real, n: nat, i: nat, box: Box, drift: real)
    requires i < 3 && Drifts(env, bed, box, i, drift) && box.Has(start) && box.Has(end)
    requires d >= 0.0 && n == NumberOfSegments(d)
    ensures forall j: nat :: 1 <= j <= n ==>
              Near(SegmentEnds(env, bed, start, end, d, n)(j).At(i), BoxCenter(i), box.Half(i) + drift)
  {
    forall j: nat | 1 <= j <= n
      ensures Near(SegmentEnds(env, bed, start, end, d, n)(j).At(i), BoxCenter(i), box.Half(i) + drift)
    {
      EndNear(env, bed, start, end, d, j, i, box, drift);
    }
  }

  lemma StartNear(env: Env, bed: BedSettings, drives: Vec<Drive>, start: Point, i: nat, box: Box, drift: real)
    requires i < 3 && Drifts(env, bed, box, i, drift) && box.Has(start)
    ensures var m := Placed(drives, RealPosition(env, bed, start)).At(i);
            m.remaining == drives.At(i).remaining && Near(m.value, BoxCenter(i), box.Half(i) + drift)
  {
    DriftNear(env, bed, box, i, drift, start);
    PlacedAt(drives, RealPosition(env, bed, start), i);
  }

  lemma BoxFits(env: Env, cfg: Settings, drives: Vec<Drive>, start: Point, end: Point, i: nat, box: Box,
                drift: real, half: real)
    requires i < 3 && Lawful(env) && KeepsFraction(env) && NonNegative(env)
    requires Drifts(env, cfg.bed, box, i, drift) && half == box.Half(i) + drift
    requires Scale(cfg).At(i) >= 0.0 && Fraction(drives.At(i)) && box.Has(start) && box.Has(end)
    requires Room(Scale(cfg), i, half)
    ensures SplitFits(env, cfg, drives, start, end, i)
  {
    var d := env.distance(start, end);
    EndsNear(env, cfg.bed, start, end, d, NumberOfSegments(d), i, box, drift);
    StartNear(env, cfg.bed, drives, start, i, box, drift);
    NearSplitFits(env, cfg, drives, start, end, i, BoxCenter(i), half);
  }

  lemma NearSplitFits(env: Env, cfg: Settings, drives: Vec<Drive>, start: Point, end: Point, i: nat, center: real,
                      half: real)
    requires i < 4 && Lawful(env) && KeepsFraction(env) && Scale(cfg).At(i) >= 0.0
    requires Room(Scale(cfg), i, half)
    requires var m := Placed(drives, RealPosition(env, cfg.bed, start)).At(i);
             Fraction(m) && Near(m.value, center, half)
    requires var d := env.distance(start, end);
             forall j: nat :: 1 <= j <= NumberOfSegments(d) ==>
               Near(SegmentEnds(env, cfg.bed, start, end, d, NumberOfSegments(d))(j).At(i), center, half)
    ensures SplitFits(env, cfg, drives, start, end, i)
  {
    var d := env.distance(start, end);
    var n := NumberOfSegments(d);
    NearSegmentsFit(env, Scale(cfg), Placed(drives, RealPosition(env, cfg.bed, start)),
                    SegmentEnds(env, cfg.bed, start, end, d, n), 1, n, i, center, half);
  }

  /** Neither the start nor any command of the run asks for a logical Z further than `top` from zero. */
  predicate StaysLow(env: Env, cfg: Settings, st: State, gs: seq<MoveCode>, top: real) {
    if gs == [] then Near(Position(st).z, 0.0, top)
    else
      var front := gs[..|gs| - 1];
      StaysLow(env, cfg, st, front, top) && Near(RequestedPoint(Run(env, cfg, st, front), gs[|gs| - 1]).z, 0.0, top)
  }

  /** Every state of a run lies in the box. */
  lemma {:induction false} RunInBox(env: Env, cfg: Settings, st: State, gs: seq<MoveCode>, box: Box)
    requires Keeps(env, Owed) && Bounds(env, cfg, box) && box.Has(Position(st)) && StaysLow(env, cfg, st, gs, box.z)
    ensures box.Has(Position(Run(env, cfg, st, gs)))
    decreases |gs|
  {
    if gs != [] {
      RunInBox(env, cfg, st, gs[..|gs| - 1], box);
      ReceivedInBox(env, cfg, Run(env, cfg, st, gs[..|gs| - 1]), gs[|gs| - 1], box);
    }
  }

  lemma BoundsAt(env: Env, cfg: Settings, box: Box, p: Point, end: Point)
    requires Bounds(env, cfg, box) && Near(p.z, 0.0, box.z) && end == Bounded(env, cfg, p)
    ensures box.Has(end)
  {
  }

  lemma BoundedZ(env: Env, cfg: Settings, p: Point)
    ensures Bounded(env, cfg, p).z == p.z
  {
  }

  lemma TargetInBox(env: Env, cfg: Settings, st: State, g: MoveCode, box: Box) returns (target: Point)
    requires Bounds(env, cfg, box) && Near(RequestedPoint(st, g).z, 0.0, box.z)
    ensures target == Target(env, cfg, WithFeedRate(st, g), g)
    ensures box.Has(target) && target.z == RequestedPoint(st, g).z
  {
    var asked := RequestedPoint(st, g);
    TargetIs(env, cfg, st, g);
    BoundedZ(env, cfg, asked);
    target := Target(env, cfg, WithFeedRate(st, g), g);
    BoundsAt(env, cfg, box, asked, target);
  }

  lemma ReceivedEnds(env: Env, cfg: Settings, st: State, g: MoveCode, target: Point)
    requires Keeps(env, Owed) && target == Target(env, cfg, WithFeedRate(st, g), g)
    ensures var after := Position(Received(env, cfg, st, g));
            after == Position(st) || after == target
  {
    AcceptedEnds(env, cfg, WithFeedRate(st, g), target);
  }

  lemma ReceivedInBox(env: Env, cfg: Settings, st: State, g: MoveCode, box: Box)
    requires Keeps(env, Owed) && Bounds(env, cfg, box) && Near(RequestedPoint(st, g).z, 0.0, box.z)
    requires box.Has(Position(st))
    ensures var after := Position(Received(env, cfg, st, g));
            box.Has(after)
  {
    var target := TargetInBox(env, cfg, st, g, box);
    ReceivedEnds(env, cfg, st, g, target);
  }

  lemma {:induction false} BoxRunFits(env: Env, cfg: Settings, st: State, gs: seq<MoveCode>, i: nat, box: Box,
                                      drift: real, half: real)
    requires i < 3 && Lawful(env) && Faithful(env) && NonNegative(env) && Scale(cfg).At(i) >= 0.0
    requires Drifts(env, cfg.bed, box, i, drift) && half == box.Half(i) + drift && Bounds(env, cfg, box)
    requires Room(Scale(cfg), i, half)
    requires Fraction(st.drives.At(i)) && box.Has(Position(st)) && StaysLow(env, cfg, st, gs, box.z)
    ensures RunFits(env, cfg, st, gs, i)
    decreases |gs|
  {
    if gs != [] {
      var before, g := gs[..|gs| - 1], gs[|gs| - 1];
      BoxRunFits(env, cfg, st, before, i, box, drift, half);
      RunKeepsFraction(env, cfg, st, before, i);
      RunInBox(env, cfg, st, before, box);
      var now := Run(env, cfg, st, before);
      var target := TargetInBox(env, cfg, now, g, box);
      BoxFits(env, cfg, now.drives, Position(now), target, i, box, drift, half);
    }
  }

  /** Step conservation on a compensated motor, over every run whose commands stay in a box with room around it. */
  lemma BoxStepsMatch(env: Env, cfg: Settings, st: State, gs: seq<MoveCode>, i: nat, box: Box, drift: real,
                      half: real)
    requires i < 3 && Lawful(env) && Faithful(env) && NonNegative(env) && Scale(cfg).At(i) >= 0.0
    requires Drifts(env, cfg.bed, box, i, drift) && half == box.Half(i) + drift && Bounds(env, cfg, box)
    requires Room(Scale(cfg), i, half)
    requires st.drives.At(i).remaining == 0.0 && box.Has(Position(st)) && StaysLow(env, cfg, st, gs, box.z)
    ensures Matches(env, cfg, st, Run(env, cfg, st, gs), i)
  {
    BoxRunFits(env, cfg, st, gs, i, box, drift, half);
    StepsMatchDistance(env, cfg, st, gs, i);
  }

  // ---- The firmware's settings

  /** The largest calibrated height of a corner. */
  function Largest(c: Corners): real {
    Max(Max(Abs(c.backRight), Abs(c.backLeft)), Max(Abs(c.frontLeft), Abs(c.frontRight)))
  }

  /** The largest adjustment of a point whose horizontal distances from the centre add up to at most `reach`. */
  function LevelBound(c: Corners, reach: real): real {
    Largest(c) * reach / 45.0
  }

  predicate CornersWithin(c: Corners, most: real) {
    && Near(c.backRight, 0.0, most) && Near(c.backLeft, 0.0, most)
    && Near(c.frontLeft, 0.0, most) && Near(c.frontRight, 0.0, most)
  }

  lemma LargestIs(c: Corners)
    ensures CornersWithin(c, Largest(c))
  {
  }

  lemma ArmsWithin(a: real, r: real, b: real, f: real, most: real, reach: real, bound: real)
    requires Near(a, 0.0, most) && Near(b, 0.0, most) && Near(r, 0.0, reach) && Near(f, 0.0, reach)
    requires bound == most * reach / 45.0
    ensures Near((a * r + b * f) / 90.0, 0.0, bound) && Near((a * r - b * f) / 90.0, 0.0, bound)
  {
    var p, q := ProductWithin(a, r, most, reach);
    var p', q' := ProductWithin(b, f, most, reach);
  }

  lemma BackWithin(c: Corners, x: real, y: real, reach: real, most: real, bound: real)
    requires Near(Rising(x, y), 0.0, reach) && Near(Falling(x, y), 0.0, reach)
    requires CornersWithin(c, most) && bound == most * reach / 45.0
    ensures Near(ZAt(x, y, c.BackPlane()), 0.0, bound)
  {
    BackPlaneForm(c, x, y);
    ArmsWithin(c.backRight, Rising(x, y), c.backLeft, Falling(x, y), most, reach, bound);
  }

  lemma LeftWithin(c: Corners, x: real, y: real, reach: real, most: real, bound: real)
    requires Near(Rising(x, y), 0.0, reach) && Near(Falling(x, y), 0.0, reach)
    requires CornersWithin(c, most) && bound == most * reach / 45.0
    ensures Near(ZAt(x, y, c.LeftPlane()), 0.0, bound)
  {
    LeftPlaneForm(c, x, y);
    ArmsWithin(-c.frontLeft, Rising(x, y), c.backLeft, Falling(x, y), most, reach, bound);
  }

  lemma RightWithin(c: Corners, x: real, y: real, reach: real, most: real, bound: real)
    requires Near(Rising(x, y), 0.0, reach) && Near(Falling(x, y), 0.0, reach)
    requires CornersWithin(c, most) && bound == most * reach / 45.0
    ensures Near(ZAt(x, y, c.RightPlane()), 0.0, bound)
  {
    RightPlaneForm(c, x, y);
    ArmsWithin(c.backRight, Rising(x, y), c.frontRight, Falling(x, y), most, reach, bound);
  }

  lemma FrontWithin(c: Corners, x: real, y: real, reach: real, most: real, bound: real)
    requires Near(Rising(x, y), 0.0, reach) && Near(Falling(x, y), 0.0, reach)
    requires CornersWithin(c, most) && bound == most * reach / 45.0
    ensures Near(ZAt(x, y, c.FrontPlane()), 0.0, bound)
  {
    FrontPlaneForm(c, x, y);
    ArmsWithin(-c.frontLeft, Rising(x, y), c.frontRight, Falling(x, y), most, reach, bound);
  }

  predicate PlanesWithin(c: Corners, x: real, y: real, bound: real) {
    && Near(ZAt(x, y, c.BackPlane()), 0.0, bound) && Near(ZAt(x, y, c.LeftPlane()), 0.0, bound)
    && Near(ZAt(x, y, c.RightPlane()), 0.0, bound) && Near(ZAt(x, y, c.FrontPlane()), 0.0, bound)
  }

  lemma AllWithin(c: Corners, x: real, y: real, reach: real, most: real, bound: real)
    requires Near(Rising(x, y), 0.0, reach) && Near(Falling(x, y), 0.0, reach)
    requires CornersWithin(c, most) && bound == most * reach / 45.0
    ensures PlanesWithin(c, x, y, bound)
  {
    BackWithin(c, x, y, reach, most, bound);
    LeftWithin(c, x, y, reach, most, bound);
    RightWithin(c, x, y, reach, most, bound);
    FrontWithin(c, x, y, reach, most, bound);
  }

  lemma AdjustmentWithin(sqrt: real -> real, c: Corners, x: real, y: real, bound: real)
    requires PlanesWithin(c, x, y, bound)
    ensures Near(HeightAdjustment(sqrt, c, x, y), 0.0, bound)
  {
  }

  lemma DiagonalsNear(x: real, y: real, reach: real)
    requires Abs(x - BED_CENTER_X) + Abs(y - BED_CENTER_Y) <= reach
    ensures Near(Rising(x, y), 0.0, reach) && Near(Falling(x, y), 0.0, reach)
  {
  }

  lemma CornersBound(c: Corners, reach: real) returns (most: real)
    ensures CornersWithin(c, most) && LevelBound(c, reach) == most * reach / 45.0
  {
    LargestIs(c);
    most := Largest(c);
  }

  /** The height adjustment grows at most with the distance from the centre. */
  lemma LevelWithin(sqrt: real -> real, c: Corners, x: real, y: real, reach: real, bound: real)
    requires Abs(x - BED_CENTER_X) + Abs(y - BED_CENTER_Y) <= reach && bound == LevelBound(c, reach)
    ensures Near(HeightAdjustment(sqrt, c, x, y), 0.0, bound)
  {
    DiagonalsNear(x, y, reach);
    var most := CornersBound(c, reach);
    AllWithin(c, x, y, reach, most, bound);
    AdjustmentWithin(sqrt, c, x, y, bound);
  }

  function SkewRate(bed: BedSettings, skew: real): real {
    Abs(SkewAdjustment(bed, skew, 1.0))
  }

  lemma SkewWithin(bed: BedSettings, skew: real, height: real, highest: real)
    requires Near(height, 0.0, highest)
    ensures Near(SkewAdjustment(bed, skew, height), 0.0, highest * SkewRate(bed, skew))
  {
    SkewProportional(bed, skew, height);
    var p, q := ProductWithin(SkewAdjustment(bed, skew, 1.0), height, SkewRate(bed, skew), highest);
  }

  /**
   How large the compensations can be: the height adjustment as a function of the distance from the centre, the skews
   as functions of the height.
   */
  datatype Gain = Gain(level: real -> real, skewX: real -> real, skewY: real -> real)

  function FirmwareGain(bed: BedSettings): Gain {
    Gain(reach => LevelBound(bed.corners, reach),
         highest => highest * SkewRate(bed, bed.skewX), highest => highest * SkewRate(bed, bed.skewY))
  }

  predicate Reaches(x: real, y: real, reach: real) {
    Abs(x - BED_CENTER_X) + Abs(y - BED_CENTER_Y) <= reach
  }

  ghost predicate Limits(env: Env, bed: BedSettings, gain: Gain) {
    && (forall x, y, reach :: Reaches(x, y, reach) ==> Near(env.level(bed.corners, x, y), 0.0, gain.level(reach)))
    && (forall h, highest :: Near(h, 0.0, highest) ==> Near(env.skew(bed, bed.skewX, h), 0.0, gain.skewX(highest)))
    && (forall h, highest :: Near(h, 0.0, highest) ==> Near(env.skew(bed, bed.skewY, h), 0.0, gain.skewY(highest)))
  }

  lemma FirmwareLimits(sqrt: real -> real, bed: BedSettings)
    ensures Limits(Firmware(sqrt), bed, FirmwareGain(bed))
  {
    forall x, y, reach | Reaches(x, y, reach)
      ensures Near(Firmware(sqrt).level(bed.corners, x, y), 0.0, FirmwareGain(bed).level(reach))
    {
      LevelWithin(sqrt, bed.corners, x, y, reach, LevelBound(bed.corners, reach));
    }
    forall h, highest | Near(h, 0.0, highest)
      ensures Near(Firmware(sqrt).skew(bed, bed.skewX, h), 0.0, FirmwareGain(bed).skewX(highest))
      ensures Near(Firmware(sqrt).skew(bed, bed.skewY, h), 0.0, FirmwareGain(bed).skewY(highest))
    {
      SkewWithin(bed, bed.skewX, h, highest);
      SkewWithin(bed, bed.skewY, h, highest);
    }
  }

  /** How far the compensations can move a motor in the box. */
  function Drift(gain: Gain, box: Box, i: nat): real
    requires i < 3
  {
    var level := gain.level(box.x + box.y);
    if i == 0 then gain.skewX(box.z + level) else if i == 1 then gain.skewY(box.z + level) else level
  }

  lemma DriftAt(env: Env, bed: BedSettings, gain: Gain, box: Box, i: nat, p: Point)
    requires i < 3 && Limits(env, bed, gain) && box.Has(p)
    ensures Near(RealPosition(env, bed, p).At(i), p.At(i), Drift(gain, box, i))
  {
    var level, most := env.level(bed.corners, p.x, p.y), gain.level(box.x + box.y);
    assert Reaches(p.x, p.y, box.x + box.y);
    assert Near(p.z + level, 0.0, box.z + most);
  }

  lemma LimitsDrift(env: Env, bed: BedSettings, gain: Gain, box: Box, i: nat)
    requires i < 3 && Limits(env, bed, gain)
    ensures Drifts(env, bed, box, i, Drift(gain, box, i))
  {
    forall p: Point | box.Has(p)
      ensures Near(RealPosition(env, bed, p).At(i), p.At(i), Drift(gain, box, i))
    {
      DriftAt(env, bed, gain, box, i, p);
    }
  }

  /** The printable region with its skew up to the height `top`, and the start. */
  function RunBox(gain: Gain, st: State, top: real): Box {
    var tallest := top + gain.level(115.0);
    Box(Max(Abs(Position(st).x - BED_CENTER_X), 56.0 + gain.skewX(tallest)),
        Max(Abs(Position(st).y - BED_CENTER_Y), 59.0 + gain.skewY(tallest)), top)
  }

  lemma TierReach(target: Point, tier: nat)
    ensures Reaches(ValueInRange(target.x, MinX(tier), MaxX(tier)), ValueInRange(target.y, MinY(tier), MaxY(tier)),
                    115.0)
  {
  }

  lemma RangeNear(v: real, low: real, high: real, shift: real, center: real, half: real, most: real)
    requires Near(shift, 0.0, most) && low <= high && Near(low, center, half) && Near(high, center, half)
    ensures Near(ValueInRange(v, low - shift, high - shift), center, half + most)
  {
  }

  lemma BoundedNear(env: Env, cfg: Settings, target: Point, dx: real, dy: real, box: Box)
    requires var z := PotentialZ(env, cfg, target, ChosenTier(env, cfg, target, 0));
             && Near(env.skew(cfg.bed, cfg.bed.skewX, z), 0.0, dx)
             && Near(env.skew(cfg.bed, cfg.bed.skewY, z), 0.0, dy)
    requires Near(target.z, 0.0, box.z) && 56.0 + dx <= box.x && 59.0 + dy <= box.y
    ensures box.Has(Bounded(env, cfg, target))
  {
    var t := ChosenTier(env, cfg, target, 0);
    var z := PotentialZ(env, cfg, target, t);
    RangeNear(target.x, MinX(t), MaxX(t), env.skew(cfg.bed, cfg.bed.skewX, z), BED_CENTER_X, 56.0, dx);
    RangeNear(target.y, MinY(t), MaxY(t), env.skew(cfg.bed, cfg.bed.skewY, z), BED_CENTER_Y, 59.0, dy);
  }

  lemma BoundsTarget(env: Env, cfg: Settings, gain: Gain, box: Box, target: Point)
    requires Limits(env, cfg.bed, gain) && Near(target.z, 0.0, box.z)
    requires 56.0 + gain.skewX(box.z + gain.level(115.0)) <= box.x
             && 59.0 + gain.skewY(box.z + gain.level(115.0)) <= box.y
    ensures box.Has(Bounded(env, cfg, target))
  {
    var t := ChosenTier(env, cfg, target, 0);
    var tallest := box.z + gain.level(115.0);
    TierReach(target, t);
    assert Near(PotentialZ(env, cfg, target, t), 0.0, tallest);
    BoundedNear(env, cfg, target, gain.skewX(tallest), gain.skewY(tallest), box);
  }

  lemma LimitsBound(env: Env, cfg: Settings, gain: Gain, box: Box)
    requires Limits(env, cfg.bed, gain)
    requires 56.0 + gain.skewX(box.z + gain.level(115.0)) <= box.x
             && 59.0 + gain.skewY(box.z + gain.level(115.0)) <= box.y
    ensures Bounds(env, cfg, box)
  {
    forall target: Point | Near(target.z, 0.0, box.z)
      ensures box.Has(Bounded(env, cfg, target))
    {
      BoundsTarget(env, cfg, gain, box, target);
    }
  }

  lemma {:induction false} StartsLow(env: Env, cfg: Settings, st: State, gs: seq<MoveCode>, top: real)
    requires StaysLow(env, cfg, st, gs, top)
    ensures Near(Position(st).z, 0.0, top)
    decreases |gs|
  {
    if gs != [] {
      StartsLow(env, cfg, st, gs[..|gs| - 1], top);
    }
  }

  lemma StartInBox(gain: Gain, st: State, top: real)
    requires Near(Position(st).z, 0.0, top)
    ensures RunBox(gain, st, top).Has(Position(st))
  {
  }

  /** Half the way motor `i` can have to cover: half the box and what the compensations add. */
  function HalfWay(gain: Gain, st: State, top: real, i: nat): real
    requires i < 3
  {
    var box := RunBox(gain, st, top);
    box.Half(i) + Drift(gain, box, i)
  }

  /** The whole way fits the step counter of motor `i`. */
  predicate HasRoom(gain: Gain, cfg: Settings, st: State, top: real, i: nat) {
    i < 3 && Room(Scale(cfg), i, HalfWay(gain, st, top, i))
  }

  lemma RoomInBox(gain: Gain, cfg: Settings, st: State, top: real, i: nat)
    returns (box: Box, drift: real, half: real)
    requires HasRoom(gain, cfg, st, top, i) && Near(Position(st).z, 0.0, top)
    ensures box.Has(Position(st)) && box.z == top && drift == Drift(gain, box, i)
    ensures half == box.Half(i) + drift
    ensures 56.0 + gain.skewX(box.z + gain.level(115.0)) <= box.x
            && 59.0 + gain.skewY(box.z + gain.level(115.0)) <= box.y
    ensures Room(Scale(cfg), i, half)
  {
    StartInBox(gain, st, top);
    box, half := RunBox(gain, st, top), HalfWay(gain, st, top, i);
    drift := Drift(gain, box, i);
  }

  /** Step conservation on a compensated motor, over every run whose settings and heights leave room. */
  lemma RoomyStepsMatch(env: Env, cfg: Settings, st: State, gs: seq<MoveCode>, i: nat, gain: Gain, top: real)
    requires i < 3 && Lawful(env) && Faithful(env) && NonNegative(env) && Limits(env, cfg.bed, gain)
    requires Scale(cfg).At(i) >= 0.0 && st.drives.At(i).remaining == 0.0
    requires HasRoom(gain, cfg, st, top, i) && StaysLow(env, cfg, st, gs, top)
    ensures Matches(env, cfg, st, Run(env, cfg, st, gs), i)
  {
    StartsLow(env, cfg, st, gs, top);
    var box, drift, half := RoomInBox(gain, cfg, st, top, i);
    LimitsDrift(env, cfg.bed, gain, box, i);
    LimitsBound(env, cfg, gain, box);
    BoxStepsMatch(env, cfg, st, gs, i, box, drift, half);
  }

  // ---- Heights from the commands alone

  /** How far from zero the commands can bring the logical Z, whichever of them are refused. */
  function HighestZ(st: State, gs: seq<MoveCode>): real {
    if gs == [] then Abs(Position(st).z)
    else
      var highest := HighestZ(st, gs[..|gs| - 1]);
      match gs[|gs| - 1].motors.z
      case None => highest
      case Some(v) =>
        var asked := Abs(Millimetres(st.units, v));
        if st.mode == Relative then highest + asked else Max(highest, asked)
  }

  lemma ReceivedZ(env: Env, cfg: Settings, st: State, g: MoveCode)
    requires Keeps(env, Owed)
    ensures var after := Received(env, cfg, st, g);
            && Position(after).z == (if Refused(env, cfg, st, g) then Position(st).z else RequestedPoint(st, g).z)
            && after.units == st.units && after.mode == st.mode
  {
    ModesKept(env, cfg, st, g);
    TargetIs(env, cfg, st, g);
    BoundedZ(env, cfg, RequestedPoint(st, g));
    if !Refused(env, cfg, st, g) {
      AcceptedAt(env, cfg, st, g, Target(env, cfg, WithFeedRate(st, g), g));
    }
  }

  lemma RequestedZ(st: State, before: State, gs: seq<MoveCode>, top: real)
    requires gs != [] && before.units == st.units && before.mode == st.mode && HighestZ(st, gs) <= top
    requires Near(Position(before).z, 0.0, HighestZ(st, gs[..|gs| - 1]))
    ensures Near(RequestedPoint(before, gs[|gs| - 1]).z, 0.0, HighestZ(st, gs))
    ensures HighestZ(st, gs[..|gs| - 1]) <= HighestZ(st, gs)
  {
  }

  /** Every run stays as low as its commands are. */
  lemma {:induction false} LowCommands(env: Env, cfg: Settings, st: State, gs: seq<MoveCode>, top: real)
    requires Keeps(env, Owed) && HighestZ(st, gs) <= top
    ensures StaysLow(env, cfg, st, gs, top)
    ensures var after := Run(env, cfg, st, gs);
            Near(Position(after).z, 0.0, HighestZ(st, gs)) && after.units == st.units && after.mode == st.mode
    decreases |gs|
  {
    if gs != [] {
      var front := gs[..|gs| - 1];
      LowCommands(env, cfg, st, front, HighestZ(st, front));
      RequestedZ(st, Run(env, cfg, st, front), gs, top);
      LowCommands(env, cfg, st, front, top);
      ReceivedZ(env, cfg, Run(env, cfg, st, front), gs[|gs| - 1]);
    }
  }

  /** The logical Z after commands none of which is refused. */
  function AskedZ(st: State, gs: seq<MoveCode>): real {
    if gs == [] then Position(st).z else Requested(st, gs[|gs| - 1].motors.z, AskedZ(st, gs[..|gs| - 1]), st.mode)
  }

  /** Every one of these heights is at most `top` from zero. */
  predicate AsksLow(st: State, gs: seq<MoveCode>, top: real) {
    Near(AskedZ(st, gs), 0.0, top) && (gs != [] ==> AsksLow(st, gs[..|gs| - 1], top))
  }

  predicate NoneRefused(env: Env, cfg: Settings, st: State, gs: seq<MoveCode>) {
    gs == [] || (NoneRefused(env, cfg, st, gs[..|gs| - 1])
                 && !Refused(env, cfg, Run(env, cfg, st, gs[..|gs| - 1]), gs[|gs| - 1]))
  }

  /** A run without refusals stays exactly as low as the heights it goes through, however many they are. */
  lemma {:induction false} LowHeights(env: Env, cfg: Settings, st: State, gs: seq<MoveCode>, top: real)
    requires Keeps(env, Owed) && NoneRefused(env, cfg, st, gs)
    ensures StaysLow(env, cfg, st, gs, top) <==> AsksLow(st, gs, top)
    ensures var after := Run(env, cfg, st, gs);
            Position(after).z == AskedZ(st, gs) && after.units == st.units && after.mode == st.mode
    decreases |gs|
  {
    if gs != [] {
      var front, g := gs[..|gs| - 1], gs[|gs| - 1];
      var before := Run(env, cfg, st, front);
      LowHeights(env, cfg, st, front, top);
      ReceivedZ(env, cfg, before, g);
      assert RequestedPoint(before, g).z == AskedZ(st, gs);
    }
  }

  // ---- The firmware

  lemma FirmwareNonNegative(sqrt: real -> real)
    requires IsSqrt(sqrt)
    ensures NonNegative(Firmware(sqrt))
  {
    forall a: Point, b: Point
      ensures Firmware(sqrt).distance(a, b) >= 0.0
    {
      SquaredNonNegative(a, b);
    }
  }

  lemma FirmwareDirect(sqrt: real -> real, bed: BedSettings, i: nat)
    requires i == 3 || (i < 2 && NoSkew(bed))
    ensures Direct(Firmware(sqrt), bed, i)
  {
    if i == 3 {
      ExtruderDirect(Firmware(sqrt), bed);
    } else {
      FirmwareUnskewed(sqrt, bed);
      UnskewedDirect(Firmware(sqrt), bed, i);
    }
  }

  /**
   Step conservation of the firmware: after any run of received movements that starts without a left-over fraction, the
   steps issued on a motor differ from the distance its real position covered by less than one step, however many
   movements and segments there were and however many were refused. On the extruder this holds of every run; on X and
   Y of every run without skew; on a compensated motor of every run that stays at heights for which there is room.
   */
  lemma FirmwareStepsMatchDistance(sqrt: real -> real, cfg: Settings, st: State, gs: seq<MoveCode>, i: nat, top: real)
    requires IsSqrt(sqrt) && i < 4 && Scale(cfg).At(i) >= 0.0 && st.drives.At(i).remaining == 0.0
    requires || i == 3
             || (i < 2 && NoSkew(cfg.bed))
             || (HasRoom(FirmwareGain(cfg.bed), cfg, st, top, i) && StaysLow(Firmware(sqrt), cfg, st, gs, top))
    ensures Matches(Firmware(sqrt), cfg, st, Run(Firmware(sqrt), cfg, st, gs), i)
  {
    FirmwareLawful(sqrt);
    FirmwareFaithful(sqrt);
    FirmwareNonNegative(sqrt);
    if i == 3 || (i < 2 && NoSkew(cfg.bed)) {
      FirmwareDirect(sqrt, cfg.bed, i);
      DirectStepsMatch(Firmware(sqrt), cfg, st, gs, i);
    } else {
      FirmwareLimits(sqrt, cfg.bed);
      RoomyStepsMatch(Firmware(sqrt), cfg, st, gs, i, FirmwareGain(cfg.bed), top);
    }
  }

  // ---- Without room

  /** One microstep per eighth of a millimetre on every motor, and a bed that rises 0.1 per millimetre to the right. */
  const STEEP_BED := Settings(Vec(1.0, 1.0, 1.0, 1.0), 0.0, 0.0, 0.0, Vec(1.0, 1.0, 1.0, 1.0), 1.0, false,
                              BedSettings(Corners(4.5, -4.5, -4.5, 4.5), 0.0, 0.0, 0.0, 0.0))

  const AT_CENTER := State(Vec(Drive(54.0, 0.0, true, 0), Drive(50.0, 0.0, true, 0), Drive(0.0, 0.0, true, 0),
                               Drive(0.0, 0.0, true, 0)), 0.0, true, true, Absolute, Absolute, Millimeters, 0, 0)

  /** Two millimetres to the right, and up by as many microsteps as the counter holds. */
  const FAR_UP := MoveCode(Vec(Some(56.0), None, Some(536870911.875), None), None)

  const FAR_END: Point := Vec(56.0, 50.0, 536870911.875, 0.0)

  lemma FarTarget(env: Env)
    requires Planar(env.level, STEEP_BED.bed.corners, 0.1, 0.0) && Unskewed(env, STEEP_BED.bed)
    ensures Target(env, STEEP_BED, WithFeedRate(AT_CENTER, FAR_UP), FAR_UP) == FAR_END
  {
    assert RequestedPoint(WithFeedRate(AT_CENTER, FAR_UP), FAR_UP) == FAR_END;
    assert env.level(STEEP_BED.bed.corners, 56.0, 50.0) == PlaneHeight(0.1, 0.0, 56.0, 50.0);
    assert RealPosition(env, STEEP_BED.bed, FAR_END).z == 536870912.075;
    assert env.skew(STEEP_BED.bed, 0.0, 536870912.075) == 0.0;
    assert Inside(env, STEEP_BED, FAR_END);
    InsideStays(env, STEEP_BED, FAR_END);
  }

  lemma FarAccepted(env: Env)
    requires Lawful(env)
    ensures !TooBig(env, STEEP_BED, AT_CENTER.drives, FAR_END)
  {
    var d, s := AT_CENTER.drives, Scale(STEEP_BED);
    LawfulAt(env, d.x, s.x, FAR_END.x);
    LawfulAt(env, d.y, s.y, FAR_END.y);
    LawfulAt(env, d.z, s.z, FAR_END.z);
    LawfulAt(env, d.e, s.e, FAR_END.e);
  }

  lemma OneSegment(env: Env, cfg: Settings, drives: Vec<Drive>, start: Point, end: Point)
    requires env.distance(start, end) == 2.0
    ensures SplitUp(env, cfg, drives, start, end)
            == Placed(Moved(env, Scale(cfg), Placed(drives, RealPosition(env, cfg.bed, start)),
                            RealPosition(env, cfg.bed, end)), end)
  {
    assert NumberOfSegments(2.0) == 1;
  }

  lemma FarSteps(env: Env)
    requires Lawful(env) && Planar(env.level, STEEP_BED.bed.corners, 0.1, 0.0)
    requires env.distance(Position(AT_CENTER), FAR_END) == 2.0
    ensures var z := SplitUp(env, STEEP_BED, AT_CENTER.drives, Position(AT_CENTER), FAR_END).z;
            z.steps == UINT32_MAX && z.remaining == 1.6
  {
    var from, to := RealPosition(env, STEEP_BED.bed, Position(AT_CENTER)), RealPosition(env, STEEP_BED.bed, FAR_END);
    assert env.level(STEEP_BED.bed.corners, 54.0, 50.0) == PlaneHeight(0.1, 0.0, 54.0, 50.0);
    assert env.level(STEEP_BED.bed.corners, 56.0, 50.0) == PlaneHeight(0.1, 0.0, 56.0, 50.0);
    assert from.z == 0.0 && to.z == 536870912.075;
    OneSegment(env, STEEP_BED, AT_CENTER.drives, Position(AT_CENTER), FAR_END);
    LawfulAt(env, Drive(0.0, 0.0, true, 0), 8.0, to.z);
  }

  /**
   An accepted movement after which Z is behind by more than a step: the firmware's test passes the whole movement, the
   height adjustment adds 1.6 microsteps to its one segment, the step counter stops at its maximum, and the excess
   stays in the left-over fraction.
   */
  lemma FallsBehind(env: Env)
    requires Lawful(env) && Planar(env.level, STEEP_BED.bed.corners, 0.1, 0.0) && Unskewed(env, STEEP_BED.bed)
    requires env.distance(Position(AT_CENTER), FAR_END) == 2.0
    ensures !Refused(env, STEEP_BED, AT_CENTER, FAR_UP)
    ensures !Matches(env, STEEP_BED, AT_CENTER, Received(env, STEEP_BED, AT_CENTER, FAR_UP), 2)
    ensures Received(env, STEEP_BED, AT_CENTER, FAR_UP).drives.z.remaining == 1.6
  {
    FarTarget(env);
    FarAccepted(env);
    FarSteps(env);
    FarMisses(env, Received(env, STEEP_BED, AT_CENTER, FAR_UP));
  }

  lemma FarMisses(env: Env, after: State)
    requires Planar(env.level, STEEP_BED.bed.corners, 0.1, 0.0)
    requires Position(after) == FAR_END && after.drives.z.steps == UINT32_MAX
    ensures !Matches(env, STEEP_BED, AT_CENTER, after, 2)
  {
    assert env.level(STEEP_BED.bed.corners, 54.0, 50.0) == PlaneHeight(0.1, 0.0, 54.0, 50.0);
    assert env.level(STEEP_BED.bed.corners, 56.0, 50.0) == PlaneHeight(0.1, 0.0, 56.0, 50.0);
  }

  /** The same with the firmware's own functions. */
  lemma FirmwareFallsBehind(sqrt: real -> real)
    requires IsSqrt(sqrt)
    ensures !Refused(Firmware(sqrt), STEEP_BED, AT_CENTER, FAR_UP)
    ensures !Matches(Firmware(sqrt), STEEP_BED, AT_CENTER, Received(Firmware(sqrt), STEEP_BED, AT_CENTER, FAR_UP), 2)
    ensures Received(Firmware(sqrt), STEEP_BED, AT_CENTER, FAR_UP).drives.z.remaining == 1.6
  {
    FirmwareLawful(sqrt);
    PlanarCalibration(sqrt, STEEP_BED.bed.corners, 0.1, 0.0);
    FirmwareUnskewed(sqrt, STEEP_BED.bed);
    FarDistance(sqrt);
    FallsBehind(Firmware(sqrt));
  }

  lemma FarDistance(sqrt: real -> real)
    requires IsSqrt(sqrt)
    ensures Firmware(sqrt).distance(Position(AT_CENTER), FAR_END) == 2.0
  {
    assert Firmware(sqrt).distance(Position(AT_CENTER), FAR_END) == sqrt(Squared(Position(AT_CENTER), FAR_END))
           == sqrt(4.0);
    SqrtIs(sqrt, 4.0, 2.0);
  }
}
