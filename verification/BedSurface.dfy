/**
 Bed levelling (motors.cpp): four planes through the bed centre and two neighbouring corners each, and the choice of a
 plane for a point. Floats are reals; `sqrt` is a parameter that satisfies `IsSqrt`.
 */
module BedSurface {
  import opened Arithmetic

  const BED_CENTER_X := 54.0
  const BED_CENTER_Y := 50.0
  const CALIBRATION_DISTANCE := 45.0

  ghost predicate IsSqrt(sqrt: real -> real) {
    forall r: real :: r >= 0.0 ==> sqrt(r) >= 0.0 && sqrt(r) * sqrt(r) == r
  }

  datatype Vector = Vector(x: real, y: real, z: real, e: real) {
    function Plus(v: Vector): Vector {
      Vector(x + v.x, y + v.y, z + v.z, e + v.e)
    }

    function Minus(v: Vector): Vector {
      Vector(x - v.x, y - v.y, z - v.z, e - v.e)
    }

    function Times(k: real): Vector {
      Vector(x * k, y * k, z * k, e * k)
    }

    function LengthSquared(): real {
      x * x + y * y + z * z + e * e
    }

    /** `normalize`; a vector of length zero, for which the division has no meaning, stays as it is. */
    function Normalized(sqrt: real -> real): Vector {
      var length := sqrt(LengthSquared());
      if length == 0.0 then this else Vector(x / length, y / length, z / length, e / length)
    }
  }

  /** Calibrated heights of the four corners: orientation plus offset. */
  datatype Corners = Corners(backRight: real, backLeft: real, frontLeft: real, frontRight: real) {
    function BackRight(): Vector {
      Vector(BED_CENTER_X + CALIBRATION_DISTANCE, BED_CENTER_Y + CALIBRATION_DISTANCE, backRight, 0.0)
    }

    function BackLeft(): Vector {
      Vector(BED_CENTER_X - CALIBRATION_DISTANCE, BED_CENTER_Y + CALIBRATION_DISTANCE, backLeft, 0.0)
    }

    function FrontLeft(): Vector {
      Vector(BED_CENTER_X - CALIBRATION_DISTANCE, BED_CENTER_Y - CALIBRATION_DISTANCE, frontLeft, 0.0)
    }

    function FrontRight(): Vector {
      Vector(BED_CENTER_X + CALIBRATION_DISTANCE, BED_CENTER_Y - CALIBRATION_DISTANCE, frontRight, 0.0)
    }

    function BackPlane(): Vector {
      PlaneEquation(BackLeft(), BackRight(), Center())
    }

    function LeftPlane(): Vector {
      PlaneEquation(BackLeft(), FrontLeft(), Center())
    }

    function RightPlane(): Vector {
      PlaneEquation(BackRight(), FrontRight(), Center())
    }

    function FrontPlane(): Vector {
      PlaneEquation(FrontLeft(), FrontRight(), Center())
    }
  }

  function Center(): Vector {
    Vector(BED_CENTER_X, BED_CENTER_Y, 0.0, 0.0)
  }

  function PlaneNormal(v1: Vector, v2: Vector, v3: Vector): Vector {
    var a := v2.Minus(v1);
    var b := v3.Minus(v1);
    Vector(a.y * b.z - b.y * a.z, a.z * b.x - b.z * a.x, a.x * b.y - b.x * a.y, 0.0)
  }

  function PlaneEquation(v1: Vector, v2: Vector, v3: Vector): Vector {
    var n := PlaneNormal(v1, v2, v3);
    Vector(n.x, n.y, n.z, -(n.x * v1.x + n.y * v1.y + n.z * v1.z))
  }

  function ZAt(x: real, y: real, plane: Vector): real {
    if plane.z != 0.0 then (plane.x * x + plane.y * y + plane.e) / -plane.z else 0.0
  }

  function Sign(p1: Vector, p2: Vector, p3: Vector): real {
    (p1.x - p3.x) * (p2.y - p3.y) - (p2.x - p3.x) * (p1.y - p3.y)
  }

  /** The direction in which `isPointInTriangle` moves the corner `v` of the triangle `v`, `a`, `b`. */
  function Outward(v: Vector, a: Vector, b: Vector): Vector {
    v.Minus(a).Plus(v).Minus(b)
  }

  /** The triangle's corner moved 0.01 outwards. */
  function Expanded(sqrt: real -> real, v: Vector, a: Vector, b: Vector): Vector {
    v.Plus(Outward(v, a, b).Normalized(sqrt).Times(0.01))
  }

  predicate IsPointInTriangle(sqrt: real -> real, pt: Vector, v1: Vector, v2: Vector, v3: Vector) {
    var w1 := Expanded(sqrt, v1, v2, v3);
    var w2 := Expanded(sqrt, v2, v1, v3);
    var w3 := Expanded(sqrt, v3, v1, v2);
    var flag1 := Sign(pt, w1, w2) < 0.0;
    var flag2 := Sign(pt, w2, w3) < 0.0;
    var flag3 := Sign(pt, w3, w1) < 0.0;
    flag1 == flag2 && flag2 == flag3
  }

  lemma SqrtAtLeast(sqrt: real -> real, r: real, low: real)
    requires IsSqrt(sqrt) && low >= 0.0 && r >= low * low
    ensures sqrt(r) >= low
  {
    if sqrt(r) < low {
      SquareMonotone(sqrt(r), low);
    }
  }

  lemma SquareMonotone(a: real, b: real)
    requires 0.0 <= a < b
    ensures a * a < b * b
  {
    var d := b - a;
    assert b * b == a * a + 2.0 * (a * d) + d * d;
  }

  /** `top` is the centre of the bed and `a`, `b` are two neighbouring corners. */
  predicate IsWedge(top: Vector, a: Vector, b: Vector) {
    && top == Center()
    && a.e == 0.0 && b.e == 0.0
    && (a.x - top.x == CALIBRATION_DISTANCE || a.x - top.x == -CALIBRATION_DISTANCE)
    && (a.y - top.y == CALIBRATION_DISTANCE || a.y - top.y == -CALIBRATION_DISTANCE)
    && ((b.x == a.x && b.y - top.y == -(a.y - top.y)) || (b.y == a.y && b.x - top.x == -(a.x - top.x)))
  }

  lemma WedgeLengths(sqrt: real -> real, top: Vector, a: Vector, b: Vector)
    requires IsSqrt(sqrt) && IsWedge(top, a, b)
    ensures sqrt(Outward(top, a, b).LengthSquared()) >= 90.0
    ensures sqrt(Outward(a, top, b).LengthSquared()) >= 142.0
    ensures sqrt(Outward(b, top, a).LengthSquared()) >= 142.0
  {
    var o1, o2, o3 := Outward(top, a, b), Outward(a, top, b), Outward(b, top, a);
    assert o1.z * o1.z >= 0.0 && o2.z * o2.z >= 0.0 && o3.z * o3.z >= 0.0;
    SqrtAtLeast(sqrt, o1.LengthSquared(), 90.0);
    SqrtAtLeast(sqrt, o2.LengthSquared(), 142.0);
    SqrtAtLeast(sqrt, o3.LengthSquared(), 142.0);
  }

  predicate InWedge(sqrt: real -> real, x: real, y: real, a: Vector, b: Vector) {
    IsPointInTriangle(sqrt, Vector(x, y, 0.0, 0.0), Center(), a, b)
  }

  /** `getHeightAdjustmentRequired`. */
  function HeightAdjustment(sqrt: real -> real, c: Corners, x: real, y: real): real {
    if x <= c.FrontLeft().x && y >= c.BackRight().y then
      (ZAt(x, y, c.BackPlane()) + ZAt(x, y, c.LeftPlane())) / 2.0
    else if x <= c.FrontLeft().x && y <= c.FrontLeft().y then
      (ZAt(x, y, c.FrontPlane()) + ZAt(x, y, c.LeftPlane())) / 2.0
    else if x >= c.FrontRight().x && y <= c.FrontLeft().y then
      (ZAt(x, y, c.FrontPlane()) + ZAt(x, y, c.RightPlane())) / 2.0
    else if x >= c.FrontRight().x && y >= c.BackRight().y then
      (ZAt(x, y, c.BackPlane()) + ZAt(x, y, c.RightPlane())) / 2.0
    else if x <= c.FrontLeft().x then
      ZAt(x, y, c.LeftPlane())
    else if x >= c.FrontRight().x then
      ZAt(x, y, c.RightPlane())
    else if y >= c.BackRight().y then
      ZAt(x, y, c.BackPlane())
    else if y <= c.FrontLeft().y then
      ZAt(x, y, c.FrontPlane())
    else if InWedge(sqrt, x, y, c.FrontLeft(), c.BackLeft()) then
      ZAt(x, y, c.LeftPlane())
    else if InWedge(sqrt, x, y, c.FrontRight(), c.BackRight()) then
      ZAt(x, y, c.RightPlane())
    else if InWedge(sqrt, x, y, c.BackLeft(), c.BackRight()) then
      ZAt(x, y, c.BackPlane())
    else
      ZAt(x, y, c.FrontPlane())
  }

  // ---- Closed forms of the planes along the two diagonals of the bed

  /** Position along the diagonal from the front left to the back right corner; the corners are at -90 and 90. */
  function Rising(x: real, y: real): real {
    (x - BED_CENTER_X) + (y - BED_CENTER_Y)
  }

  /** Position along the diagonal from the back left to the front right corner; the corners are at -90 and 90. */
  function Falling(x: real, y: real): real {
    (x - BED_CENTER_X) - (y - BED_CENTER_Y)
  }

  lemma BackPlaneForm(c: Corners, x: real, y: real)
    ensures ZAt(x, y, c.BackPlane()) == (c.backRight * Rising(x, y) - c.backLeft * Falling(x, y)) / 90.0
  {
    var plane := c.BackPlane();
    assert plane.x == 45.0 * (c.backRight - c.backLeft);
    assert plane.y == 45.0 * (c.backRight + c.backLeft);
    assert plane.z == -4050.0;
    assert plane.e == -(plane.x * 9.0 + plane.y * 95.0 - 4050.0 * c.backLeft);
  }

  lemma LeftPlaneForm(c: Corners, x: real, y: real)
    ensures ZAt(x, y, c.LeftPlane()) == (-c.frontLeft * Rising(x, y) - c.backLeft * Falling(x, y)) / 90.0
  {
    var plane := c.LeftPlane();
    assert plane.x == 45.0 * (c.backLeft + c.frontLeft);
    assert plane.y == 45.0 * (c.frontLeft - c.backLeft);
    assert plane.z == 4050.0;
    assert plane.e == -(plane.x * 9.0 + plane.y * 95.0 + 4050.0 * c.backLeft);
  }

  lemma RightPlaneForm(c: Corners, x: real, y: real)
    ensures ZAt(x, y, c.RightPlane()) == (c.backRight * Rising(x, y) + c.frontRight * Falling(x, y)) / 90.0
  {
    var plane := c.RightPlane();
    assert plane.x == 45.0 * (c.backRight + c.frontRight);
    assert plane.y == 45.0 * (c.backRight - c.frontRight);
    assert plane.z == -4050.0;
    assert plane.e == -(plane.x * 99.0 + plane.y * 95.0 - 4050.0 * c.backRight);
  }

  lemma FrontPlaneForm(c: Corners, x: real, y: real)
    ensures ZAt(x, y, c.FrontPlane()) == (-c.frontLeft * Rising(x, y) + c.frontRight * Falling(x, y)) / 90.0
  {
    var plane := c.FrontPlane();
    assert plane.x == -45.0 * (c.frontRight - c.frontLeft);
    assert plane.y == 45.0 * (c.frontRight + c.frontLeft);
    assert plane.z == 4050.0;
    assert plane.e == -(plane.x * 9.0 + plane.y * 5.0 + 4050.0 * c.frontLeft);
  }

  lemma PlaneForms(c: Corners, x: real, y: real)
    ensures ZAt(x, y, c.BackPlane()) == (c.backRight * Rising(x, y) - c.backLeft * Falling(x, y)) / 90.0
    ensures ZAt(x, y, c.LeftPlane()) == (-c.frontLeft * Rising(x, y) - c.backLeft * Falling(x, y)) / 90.0
    ensures ZAt(x, y, c.RightPlane()) == (c.backRight * Rising(x, y) + c.frontRight * Falling(x, y)) / 90.0
    ensures ZAt(x, y, c.FrontPlane()) == (-c.frontLeft * Rising(x, y) + c.frontRight * Falling(x, y)) / 90.0
  {
    BackPlaneForm(c, x, y);
    LeftPlaneForm(c, x, y);
    RightPlaneForm(c, x, y);
    FrontPlaneForm(c, x, y);
  }

  // ---- The expanded triangles

  /** How far beyond its triangle, measured along a diagonal, a point can be and still be taken for part of it. */
  const OVERSHOOT := 0.0101

  /**
   Edge from the moved centre to a moved corner, for a point `s` away from the centre towards the side and `t` along it.
   */
  function Edge(s: real, t: real, p: real, q: real): real {
    (45.0 + 135.0 * q) * (s + p) - (45.0 + 45.0 * q + p) * t
  }

  /** Edge between the two moved corners. */
  function SideEdge(s: real, t: real, q: real, r: real): real {
    (45.0 + 45.0 * r - s) * (90.0 + 135.0 * (q + r)) - 45.0 * (q - r) * (t - 45.0 - 135.0 * r)
  }

  predicate Moves(p: real, q: real, r: real) {
    0.0 < p <= 0.01 && 0.0 < q <= 0.00008 && 0.0 < r <= 0.00008
  }

  lemma EdgeInside(s: real, t: real, p: real, q: real)
    requires 0.0 < p <= 0.01 && 0.0 < q <= 0.00008
    requires 0.0 <= s <= 45.0 && t <= s
    ensures Edge(s, t, p, q) > 0.0
  {
    var qd, pd, qp, sq, sp := q * (s - t), p * (s - t), q * p, s * q, s * p;
    assert Edge(s, t, p, q) == 45.0 * (s - t) + 45.0 * qd + pd + 90.0 * sq - sp + 45.0 * p + 135.0 * qp;
    assert qd >= 0.0 && pd >= 0.0 && qp > 0.0 && sq >= 0.0;
    RealMul(s, 45.0, p);
  }

  lemma SideEdgeInside(s: real, t: real, q: real, r: real)
    requires 0.0 < q <= 0.00008 && 0.0 < r <= 0.00008
    requires s <= 45.0 && -45.0 <= t <= 45.0
    ensures SideEdge(s, t, q, r) > 0.0
  {
    var g := 45.0 - s;
    var gq, gr, qr, tq, tr := g * q, g * r, q * r, t * q, t * r;
    SideEdgeExpanded(s, t, q, r);
    assert gq >= 0.0;
    assert gr >= 0.0;
    assert qr > 0.0;
    assert tq <= 45.0 * q by { RealMul(t, 45.0, q); }
    assert tr >= -45.0 * r by { RealMul(-45.0, t, r); }
    SideEdgeSum(g, q, r, gq, gr, qr, tq, tr);
  }

  lemma SideEdgeExpanded(s: real, t: real, q: real, r: real)
    ensures SideEdge(s, t, q, r)
            == 90.0 * (45.0 - s) + 135.0 * ((45.0 - s) * q) + 135.0 * ((45.0 - s) * r) + 2025.0 * r + 12150.0 * (q * r)
               - 45.0 * (t * q) + 2025.0 * q + 45.0 * (t * r)
  {
  }

  lemma SideEdgeSum(g: real, q: real, r: real, gq: real, gr: real, qr: real, tq: real, tr: real)
    requires g >= 0.0 && gq >= 0.0 && gr >= 0.0 && qr > 0.0 && tq <= 45.0 * q && tr >= -45.0 * r
    ensures 90.0 * g + 135.0 * gq + 135.0 * gr + 2025.0 * r + 12150.0 * qr - 45.0 * tq + 2025.0 * q + 45.0 * tr > 0.0
  {
  }

  /** The three edges cannot all have the wrong sign: their sum is twice the triangle's area. */
  lemma EdgesSum(s: real, t: real, p: real, q: real, r: real)
    requires Moves(p, q, r)
    ensures Edge(s, -t, p, q) + SideEdge(s, t, q, r) + Edge(s, t, p, r) > 0.0
  {
    var qp, rp, qr := q * p, r * p, q * r;
    assert Edge(s, -t, p, q) + SideEdge(s, t, q, r) + Edge(s, t, p, r)
        == 90.0 * p + 4050.0 + 8100.0 * r + 8100.0 * q + 135.0 * qp + 135.0 * rp + 12150.0 * qr;
    assert qp > 0.0 && rp > 0.0 && qr > 0.0;
  }

  /** A point on the right side of a moved edge is at most `OVERSHOOT` beyond the true edge. */
  lemma EdgeOvershoot(s: real, t: real, p: real, q: real)
    requires 0.0 < p <= 0.01 && 0.0 < q <= 0.00008
    requires -45.0 <= s <= 45.0 && t >= 0.0 && t >= s
    requires Edge(s, t, p, q) >= 0.0
    ensures t - s <= OVERSHOOT
  {
    var w := t - s;
    EdgeExpanded(s, t, p, q, w);
    OvershootProducts(s, w, p, q);
    OvershootSum(s, p, w, q * p, q * s, q * w, p * s, p * w, Edge(s, t, p, q));
  }

  lemma EdgeExpanded(s: real, t: real, p: real, q: real, w: real)
    requires t == s + w
    ensures Edge(s, t, p, q)
            == -45.0 * w + 45.0 * p + 135.0 * (q * p) + 90.0 * (q * s) - 45.0 * (q * w) - (p * s + p * w)
  {
  }

  lemma OvershootProducts(s: real, w: real, p: real, q: real)
    requires 0.0 < p <= 0.01 && 0.0 < q <= 0.00008 && s <= 45.0 && w >= 0.0 && s + w >= 0.0
    ensures q * w >= 0.0 && p * w >= 0.0 && q * p <= 0.0000008
    ensures s >= 0.0 ==> q * s <= 0.00008 * s && 45.0 * p - p * s <= 0.01 * (45.0 - s)
    ensures s < 0.0 ==> q * s <= 0.0 && p * s + p * w >= 0.0
  {
    RealMul(q, 0.00008, p);
    if s >= 0.0 {
      RealMul(q, 0.00008, s);
      RealMul(p, 0.01, 45.0 - s);
    } else {
      RealMul(0.0, s + w, p);
    }
  }

  lemma OvershootSum(s: real, p: real, w: real, qp: real, qs: real, qw: real, ps: real, pw: real, edge: real)
    requires edge >= 0.0 && edge == -45.0 * w + 45.0 * p + 135.0 * qp + 90.0 * qs - 45.0 * qw - (ps + pw)
    requires qw >= 0.0 && pw >= 0.0 && qp <= 0.0000008 && p <= 0.01
    requires s >= 0.0 ==> qs <= 0.00008 * s && 45.0 * p - ps <= 0.01 * (45.0 - s)
    requires s < 0.0 ==> qs <= 0.0 && ps + pw >= 0.0
    ensures w <= OVERSHOOT
  {
  }

  /** What `IsPointInTriangle` decides for a point `s` towards the side and `t` along it, both from the bed centre. */
  predicate Classified(inside: bool, s: real, t: real) {
    && (-s <= t <= s ==> inside)
    && (inside ==> t - s <= OVERSHOOT && -t - s <= OVERSHOOT)
  }

  predicate OnBed(s: real, t: real) {
    -45.0 <= s <= 45.0 && -45.0 <= t <= 45.0
  }

  lemma EdgesClassify(s: real, t: real, p: real, q: real, r: real)
    requires Moves(p, q, r) && OnBed(s, t)
    ensures -s <= t <= s ==> Edge(s, -t, p, q) > 0.0 && SideEdge(s, t, q, r) > 0.0 && Edge(s, t, p, r) > 0.0
    ensures Edge(s, -t, p, q) >= 0.0 && Edge(s, t, p, r) >= 0.0 ==> t - s <= OVERSHOOT && -t - s <= OVERSHOOT
  {
    if -s <= t <= s {
      EdgeInside(s, -t, p, q);
      EdgeInside(s, t, p, r);
      SideEdgeInside(s, t, q, r);
    }
    if Edge(s, -t, p, q) >= 0.0 && Edge(s, t, p, r) >= 0.0 {
      if t >= 0.0 && t >= s {
        EdgeOvershoot(s, t, p, r);
      }
      if t <= 0.0 && -t >= s {
        EdgeOvershoot(s, -t, p, q);
      }
      if t >= 0.0 && -t - s > 0.0 {
        EdgeOvershoot(s, t, p, r);
      }
      if t <= 0.0 && t - s > 0.0 {
        EdgeOvershoot(s, -t, p, q);
      }
    }
  }

  /** A corner moved outwards, with the reciprocal of the direction's length named. */
  lemma ExpandedForm(sqrt: real -> real, v: Vector, a: Vector, b: Vector, low: real) returns (inverse: real)
    requires IsSqrt(sqrt) && low > 0.0 && sqrt(Outward(v, a, b).LengthSquared()) >= low
    ensures 0.0 < inverse && inverse * low <= 1.0
    ensures Expanded(sqrt, v, a, b).x == v.x + 0.01 * (Outward(v, a, b).x * inverse)
    ensures Expanded(sqrt, v, a, b).y == v.y + 0.01 * (Outward(v, a, b).y * inverse)
  {
    var length := sqrt(Outward(v, a, b).LengthSquared());
    inverse := 1.0 / length;
    Reciprocal(length, low);
    Division(Outward(v, a, b).x, length);
    Division(Outward(v, a, b).y, length);
  }

  lemma Division(a: real, b: real)
    requires b > 0.0
    ensures a / b == a * (1.0 / b)
  {
  }

  lemma Reciprocal(length: real, low: real)
    requires 0.0 < low <= length
    ensures 0.0 < 1.0 / length && 1.0 / length * low <= 1.0
  {
    var inverse := 1.0 / length;
    assert inverse * length == 1.0;
    Quotient(1.0, length, 0.0);
    assert inverse > 0.0;
    RealMul(low, length, inverse);
  }

  lemma LeftSigns(s: real, t: real, p: real, q: real, r: real, pt: Vector, w1: Vector, w2: Vector, w3: Vector)
    requires pt.x == 54.0 - s && pt.y == 50.0 + t
    requires w1.x == 54.0 + p && w1.y == 50.0
    requires w2.x == 9.0 - 45.0 * q && w2.y == 5.0 - 135.0 * q
    requires w3.x == 9.0 - 45.0 * r && w3.y == 95.0 + 135.0 * r
    ensures Sign(pt, w1, w2) == -Edge(s, -t, p, q)
    ensures Sign(pt, w2, w3) == -SideEdge(s, t, q, r)
    ensures Sign(pt, w3, w1) == -Edge(s, t, p, r)
  {
  }

  lemma RightSigns(s: real, t: real, p: real, q: real, r: real, pt: Vector, w1: Vector, w2: Vector, w3: Vector)
    requires pt.x == 54.0 + s && pt.y == 50.0 + t
    requires w1.x == 54.0 - p && w1.y == 50.0
    requires w2.x == 99.0 + 45.0 * q && w2.y == 5.0 - 135.0 * q
    requires w3.x == 99.0 + 45.0 * r && w3.y == 95.0 + 135.0 * r
    ensures Sign(pt, w1, w2) == Edge(s, -t, p, q)
    ensures Sign(pt, w2, w3) == SideEdge(s, t, q, r)
    ensures Sign(pt, w3, w1) == Edge(s, t, p, r)
  {
  }

  lemma BackSigns(s: real, t: real, p: real, q: real, r: real, pt: Vector, w1: Vector, w2: Vector, w3: Vector)
    requires pt.x == 54.0 + t && pt.y == 50.0 + s
    requires w1.x == 54.0 && w1.y == 50.0 - p
    requires w2.x == 9.0 - 135.0 * q && w2.y == 95.0 + 45.0 * q
    requires w3.x == 99.0 + 135.0 * r && w3.y == 95.0 + 45.0 * r
    ensures Sign(pt, w1, w2) == -Edge(s, -t, p, q)
    ensures Sign(pt, w2, w3) == -SideEdge(s, t, q, r)
    ensures Sign(pt, w3, w1) == -Edge(s, t, p, r)
  {
  }

  lemma LeftClassified(sqrt: real -> real, c: Corners, x: real, y: real)
    requires IsSqrt(sqrt) && OnBed(x - 54.0, y - 50.0)
    ensures Classified(InWedge(sqrt, x, y, c.FrontLeft(), c.BackLeft()), 54.0 - x, y - 50.0)
  {
    var a, b := c.FrontLeft(), c.BackLeft();
    WedgeLengths(sqrt, Center(), a, b);
    var i1 := ExpandedForm(sqrt, Center(), a, b, 90.0);
    var i2 := ExpandedForm(sqrt, a, Center(), b, 142.0);
    var i3 := ExpandedForm(sqrt, b, Center(), a, 142.0);
    var p, q, r := 0.9 * i1, 0.01 * i2, 0.01 * i3;
    var s, t := 54.0 - x, y - 50.0;
    LeftSigns(s, t, p, q, r, Vector(x, y, 0.0, 0.0), Expanded(sqrt, Center(), a, b), Expanded(sqrt, a, Center(), b),
              Expanded(sqrt, b, Center(), a));
    EdgesClassify(s, t, p, q, r);
    EdgesSum(s, t, p, q, r);
  }

  lemma RightClassified(sqrt: real -> real, c: Corners, x: real, y: real)
    requires IsSqrt(sqrt) && OnBed(x - 54.0, y - 50.0)
    ensures Classified(InWedge(sqrt, x, y, c.FrontRight(), c.BackRight()), x - 54.0, y - 50.0)
  {
    var a, b := c.FrontRight(), c.BackRight();
    WedgeLengths(sqrt, Center(), a, b);
    var i1 := ExpandedForm(sqrt, Center(), a, b, 90.0);
    var i2 := ExpandedForm(sqrt, a, Center(), b, 142.0);
    var i3 := ExpandedForm(sqrt, b, Center(), a, 142.0);
    var p, q, r := 0.9 * i1, 0.01 * i2, 0.01 * i3;
    var s, t := x - 54.0, y - 50.0;
    RightSigns(s, t, p, q, r, Vector(x, y, 0.0, 0.0), Expanded(sqrt, Center(), a, b), Expanded(sqrt, a, Center(), b),
               Expanded(sqrt, b, Center(), a));
    EdgesClassify(s, t, p, q, r);
    EdgesSum(s, t, p, q, r);
  }

  lemma BackClassified(sqrt: real -> real, c: Corners, x: real, y: real)
    requires IsSqrt(sqrt) && OnBed(x - 54.0, y - 50.0)
    ensures Classified(InWedge(sqrt, x, y, c.BackLeft(), c.BackRight()), y - 50.0, x - 54.0)
  {
    var a, b := c.BackLeft(), c.BackRight();
    WedgeLengths(sqrt, Center(), a, b);
    var i1 := ExpandedForm(sqrt, Center(), a, b, 90.0);
    var i2 := ExpandedForm(sqrt, a, Center(), b, 142.0);
    var i3 := ExpandedForm(sqrt, b, Center(), a, 142.0);
    var p, q, r := 0.9 * i1, 0.01 * i2, 0.01 * i3;
    var s, t := y - 50.0, x - 54.0;
    BackSigns(s, t, p, q, r, Vector(x, y, 0.0, 0.0), Expanded(sqrt, Center(), a, b), Expanded(sqrt, a, Center(), b),
              Expanded(sqrt, b, Center(), a));
    EdgesClassify(s, t, p, q, r);
    EdgesSum(s, t, p, q, r);
  }

  // ---- What the adjustment means

  /** Height along one diagonal: a straight line from the centre to the corner on either side. */
  function Arm(d: real, ahead: real, behind: real): real {
    if d >= 0.0 then ahead * d / 90.0 else behind * -d / 90.0
  }

  /** The calibrated surface: the sum of the two diagonals. It needs neither planes nor triangles. */
  function Surface(c: Corners, x: real, y: real): real {
    Arm(Rising(x, y), c.backRight, c.frontLeft) + Arm(Falling(x, y), c.frontRight, c.backLeft)
  }

  /** Whether the point lies beyond a corner in both directions, where two planes are averaged. */
  predicate BeyondCorner(x: real, y: real) {
    Abs(x - BED_CENTER_X) >= CALIBRATION_DISTANCE && Abs(y - BED_CENTER_Y) >= CALIBRATION_DISTANCE
  }

  lemma ScaledWarp(warp: real, d: real)
    requires 0.0 <= d <= OVERSHOOT
    ensures Abs(-(warp * d) / 90.0) <= Abs(warp) * OVERSHOOT / 90.0
  {
    var p, q := WarpTimes(warp, d);
    Ninetieth(p, q);
  }

  lemma WarpTimes(warp: real, d: real) returns (p: real, q: real)
    requires 0.0 <= d <= OVERSHOOT
    ensures p == warp * d && q == Abs(warp) * OVERSHOOT && -q <= p <= q
  {
    p, q := ProductWithin(warp, d, Abs(warp), OVERSHOOT);
  }

  lemma Ninetieth(p: real, q: real)
    requires -q <= p <= q
    ensures Abs(-p / 90.0) <= q / 90.0
  {
  }

  /** The last four branches of `HeightAdjustment`. */
  lemma InteriorBranches(sqrt: real -> real, c: Corners, x: real, y: real, left: bool, right: bool, back: bool)
    requires IsSqrt(sqrt) && 9.0 < x < 99.0 && 5.0 < y < 95.0
    requires left == InWedge(sqrt, x, y, c.FrontLeft(), c.BackLeft())
    requires right == InWedge(sqrt, x, y, c.FrontRight(), c.BackRight())
    requires back == InWedge(sqrt, x, y, c.BackLeft(), c.BackRight())
    ensures HeightAdjustment(sqrt, c, x, y)
            == if left then ZAt(x, y, c.LeftPlane()) else if right then ZAt(x, y, c.RightPlane())
               else if back then ZAt(x, y, c.BackPlane()) else ZAt(x, y, c.FrontPlane())
  {
  }

  // ---- The exact error

  /** A diagonal's share of the adjustment, when the line ahead of the centre is used with weight `w`. */
  function Weighted(d: real, ahead: real, behind: real, w: real): real {
    w * (ahead * d / 90.0) + (1.0 - w) * (behind * -d / 90.0)
  }

  /** The weights `getHeightAdjustmentRequired` gives to the back right and the front right corner. */
  function Weights(sqrt: real -> real, c: Corners, x: real, y: real): (real, real) {
    if x <= 9.0 && y >= 95.0 then (0.5, 0.0)
    else if x <= 9.0 && y <= 5.0 then (0.0, 0.5)
    else if x >= 99.0 && y <= 5.0 then (0.5, 1.0)
    else if x >= 99.0 && y >= 95.0 then (1.0, 0.5)
    else if x <= 9.0 then (0.0, 0.0)
    else if x >= 99.0 then (1.0, 1.0)
    else if y >= 95.0 then (1.0, 0.0)
    else if y <= 5.0 then (0.0, 1.0)
    else if InWedge(sqrt, x, y, c.FrontLeft(), c.BackLeft()) then (0.0, 0.0)
    else if InWedge(sqrt, x, y, c.FrontRight(), c.BackRight()) then (1.0, 1.0)
    else if InWedge(sqrt, x, y, c.BackLeft(), c.BackRight()) then (1.0, 0.0)
    else (0.0, 1.0)
  }

  /** The weight given to the wrong side of a diagonal. */
  function Misplaced(d: real, w: real): real {
    if d >= 0.0 then 1.0 - w else w
  }

  /** What the wrong side of a diagonal takes off the height. */
  function WrongSide(d: real, ahead: real, behind: real, w: real): real {
    Misplaced(d, w) * ((ahead + behind) * Abs(d)) / 90.0
  }

  /** The height that belongs to a pair of weights. */
  function Mix(c: Corners, x: real, y: real, w: (real, real)): real {
    Weighted(Rising(x, y), c.backRight, c.frontLeft, w.0) + Weighted(Falling(x, y), c.frontRight, c.backLeft, w.1)
  }

  lemma MixedPlanes(c: Corners, x: real, y: real)
    ensures ZAt(x, y, c.BackPlane()) == Mix(c, x, y, (1.0, 0.0))
    ensures ZAt(x, y, c.LeftPlane()) == Mix(c, x, y, (0.0, 0.0))
    ensures ZAt(x, y, c.RightPlane()) == Mix(c, x, y, (1.0, 1.0))
    ensures ZAt(x, y, c.FrontPlane()) == Mix(c, x, y, (0.0, 1.0))
  {
    PlaneForms(c, x, y);
  }

  lemma MixedAverages(c: Corners, x: real, y: real)
    ensures (Mix(c, x, y, (1.0, 0.0)) + Mix(c, x, y, (0.0, 0.0))) / 2.0 == Mix(c, x, y, (0.5, 0.0))
    ensures (Mix(c, x, y, (0.0, 1.0)) + Mix(c, x, y, (0.0, 0.0))) / 2.0 == Mix(c, x, y, (0.0, 0.5))
    ensures (Mix(c, x, y, (0.0, 1.0)) + Mix(c, x, y, (1.0, 1.0))) / 2.0 == Mix(c, x, y, (0.5, 1.0))
    ensures (Mix(c, x, y, (1.0, 0.0)) + Mix(c, x, y, (1.0, 1.0))) / 2.0 == Mix(c, x, y, (1.0, 0.5))
  {
  }

  lemma OuterWeights(sqrt: real -> real, c: Corners, x: real, y: real)
    requires !(9.0 < x < 99.0 && 5.0 < y < 95.0)
    ensures HeightAdjustment(sqrt, c, x, y) == Mix(c, x, y, Weights(sqrt, c, x, y))
  {
    MixedPlanes(c, x, y);
    MixedAverages(c, x, y);
  }

  lemma InnerWeights(sqrt: real -> real, c: Corners, x: real, y: real, left: bool, right: bool, back: bool)
    requires IsSqrt(sqrt) && 9.0 < x < 99.0 && 5.0 < y < 95.0
    requires left == InWedge(sqrt, x, y, c.FrontLeft(), c.BackLeft())
    requires right == InWedge(sqrt, x, y, c.FrontRight(), c.BackRight())
    requires back == InWedge(sqrt, x, y, c.BackLeft(), c.BackRight())
    ensures HeightAdjustment(sqrt, c, x, y) == Mix(c, x, y, Weights(sqrt, c, x, y))
  {
    InteriorBranches(sqrt, c, x, y, left, right, back);
    MixedPlanes(c, x, y);
  }

  lemma WeightedPlanes(sqrt: real -> real, c: Corners, x: real, y: real)
    requires IsSqrt(sqrt)
    ensures HeightAdjustment(sqrt, c, x, y) == Mix(c, x, y, Weights(sqrt, c, x, y))
  {
    if 9.0 < x < 99.0 && 5.0 < y < 95.0 {
      InnerWeights(sqrt, c, x, y, InWedge(sqrt, x, y, c.FrontLeft(), c.BackLeft()),
                   InWedge(sqrt, x, y, c.FrontRight(), c.BackRight()),
                   InWedge(sqrt, x, y, c.BackLeft(), c.BackRight()));
    } else {
      OuterWeights(sqrt, c, x, y);
    }
  }

  lemma WeightedError(d: real, ahead: real, behind: real, w: real)
    ensures Weighted(d, ahead, behind, w) == Arm(d, ahead, behind) - WrongSide(d, ahead, behind, w)
  {
  }

  /**
   The exact error of the adjustment, at every point and for all calibration values: it is the calibrated surface less
   what the wrongly chosen sides take off, so it is the surface exactly when those cancel.
   */
  lemma HeightError(sqrt: real -> real, c: Corners, x: real, y: real)
    requires IsSqrt(sqrt)
    ensures var w := Weights(sqrt, c, x, y);
            var error := WrongSide(Rising(x, y), c.backRight, c.frontLeft, w.0)
                         + WrongSide(Falling(x, y), c.frontRight, c.backLeft, w.1);
            && HeightAdjustment(sqrt, c, x, y) == Surface(c, x, y) - error
            && (HeightAdjustment(sqrt, c, x, y) == Surface(c, x, y) <==> error == 0.0)
  {
    var w := Weights(sqrt, c, x, y);
    WeightedPlanes(sqrt, c, x, y);
    WeightedError(Rising(x, y), c.backRight, c.frontLeft, w.0);
    WeightedError(Falling(x, y), c.frontRight, c.backLeft, w.1);
  }

  // ---- How small it is

  /** A side is right, or the point is within `OVERSHOOT` of the diagonal. */
  predicate NearlyRight(d: real, w: real) {
    (w == 0.0 || w == 1.0) && (Misplaced(d, w) == 0.0 || Abs(d) <= OVERSHOOT)
  }

  lemma TriangleWeights(x: real, y: real, left: bool, right: bool, back: bool, w: (real, real))
    requires Classified(left, 54.0 - x, y - 50.0) && Classified(right, x - 54.0, y - 50.0)
             && Classified(back, y - 50.0, x - 54.0)
    requires w == if left then (0.0, 0.0) else if right then (1.0, 1.0) else if back then (1.0, 0.0) else (0.0, 1.0)
    ensures NearlyRight(Rising(x, y), w.0) && NearlyRight(Falling(x, y), w.1)
  {
  }

  lemma ChosenTriangle(sqrt: real -> real, c: Corners, x: real, y: real)
    requires IsSqrt(sqrt) && 9.0 < x < 99.0 && 5.0 < y < 95.0
    ensures var w := Weights(sqrt, c, x, y);
            NearlyRight(Rising(x, y), w.0) && NearlyRight(Falling(x, y), w.1)
  {
    var left := InWedge(sqrt, x, y, c.FrontLeft(), c.BackLeft());
    var right := InWedge(sqrt, x, y, c.FrontRight(), c.BackRight());
    var back := InWedge(sqrt, x, y, c.BackLeft(), c.BackRight());
    LeftClassified(sqrt, c, x, y);
    RightClassified(sqrt, c, x, y);
    BackClassified(sqrt, c, x, y);
    TriangleWeights(x, y, left, right, back, Weights(sqrt, c, x, y));
  }

  /**
   The triangle test moves every corner 0.01 outwards; still, at a point that is not beyond a corner, the side chosen
   for each diagonal is right unless the point is within `OVERSHOOT` of that diagonal.
   */
  lemma ChosenSides(sqrt: real -> real, c: Corners, x: real, y: real)
    requires IsSqrt(sqrt) && !BeyondCorner(x, y)
    ensures var w := Weights(sqrt, c, x, y);
            NearlyRight(Rising(x, y), w.0) && NearlyRight(Falling(x, y), w.1)
  {
    if 9.0 < x < 99.0 && 5.0 < y < 95.0 {
      ChosenTriangle(sqrt, c, x, y);
    }
  }

  lemma WrongSideSmall(d: real, ahead: real, behind: real, w: real)
    requires NearlyRight(d, w)
    ensures Abs(WrongSide(d, ahead, behind, w)) <= Abs(ahead + behind) * OVERSHOOT / 90.0
    ensures Abs(d) > OVERSHOOT ==> WrongSide(d, ahead, behind, w) == 0.0
  {
    if Misplaced(d, w) == 0.0 {
      ScaledWarp(ahead + behind, 0.0);
    } else {
      ScaledWarp(ahead + behind, Abs(d));
    }
  }

  /**
   Accuracy of the adjustment: it is the calibrated surface exactly at every point more than `OVERSHOOT` away from both
   diagonals, and within `OVERSHOOT` / 90 of the bed's warp at every other point that is not beyond a corner, for all
   calibration values.
   */
  lemma HeightAccuracy(sqrt: real -> real, c: Corners, x: real, y: real)
    requires IsSqrt(sqrt) && !BeyondCorner(x, y)
    ensures Abs(HeightAdjustment(sqrt, c, x, y) - Surface(c, x, y))
            <= (Abs(c.backRight + c.frontLeft) + Abs(c.frontRight + c.backLeft)) * OVERSHOOT / 90.0
    ensures Abs(Rising(x, y)) > OVERSHOOT && Abs(Falling(x, y)) > OVERSHOOT ==>
              HeightAdjustment(sqrt, c, x, y) == Surface(c, x, y)
  {
    var w := Weights(sqrt, c, x, y);
    ChosenSides(sqrt, c, x, y);
    HeightError(sqrt, c, x, y);
    WrongSideSmall(Rising(x, y), c.backRight, c.frontLeft, w.0);
    WrongSideSmall(Falling(x, y), c.frontRight, c.backLeft, w.1);
  }

  // ---- A point where it is not zero

  lemma SqrtIs(sqrt: real -> real, r: real, root: real)
    requires IsSqrt(sqrt) && root >= 0.0 && r == root * root
    ensures sqrt(r) == root
  {
    SqrtAtLeast(sqrt, r, root);
    if sqrt(r) > root {
      SquareMonotone(root, sqrt(r));
    }
  }

  /** A point less than 0.01 to the right of the centre is taken for part of the left triangle. */
  lemma TakenForLeft(sqrt: real -> real, c: Corners, d: real)
    requires IsSqrt(sqrt) && c.frontLeft + c.backLeft == 0.0 && 0.0 < d < 0.01
    ensures InWedge(sqrt, BED_CENTER_X + d, BED_CENTER_Y, c.FrontLeft(), c.BackLeft())
  {
    var a, b := c.FrontLeft(), c.BackLeft();
    MovedCentre(sqrt, c);
    var q, r := MovedLeft(sqrt, c);
    LeftOfMoved(d, q, r, Vector(54.0 + d, 50.0, 0.0, 0.0), Expanded(sqrt, Center(), a, b),
                Expanded(sqrt, a, Center(), b), Expanded(sqrt, b, Center(), a));
  }

  lemma MovedLeft(sqrt: real -> real, c: Corners) returns (q: real, r: real)
    requires IsSqrt(sqrt)
    ensures 0.0 < q <= 0.00008 && 0.0 < r <= 0.00008
    ensures var front := Expanded(sqrt, c.FrontLeft(), Center(), c.BackLeft());
            front.x == 9.0 - 45.0 * q && front.y == 5.0 - 135.0 * q
    ensures var back := Expanded(sqrt, c.BackLeft(), Center(), c.FrontLeft());
            back.x == 9.0 - 45.0 * r && back.y == 95.0 + 135.0 * r
  {
    var a, b := c.FrontLeft(), c.BackLeft();
    WedgeLengths(sqrt, Center(), a, b);
    var i2 := ExpandedForm(sqrt, a, Center(), b, 142.0);
    var i3 := ExpandedForm(sqrt, b, Center(), a, 142.0);
    q, r := 0.01 * i2, 0.01 * i3;
  }

  lemma MovedCentre(sqrt: real -> real, c: Corners)
    requires IsSqrt(sqrt) && c.frontLeft + c.backLeft == 0.0
    ensures var top := Expanded(sqrt, Center(), c.FrontLeft(), c.BackLeft());
            top.x == 54.01 && top.y == 50.0
  {
    var o := Outward(Center(), c.FrontLeft(), c.BackLeft());
    assert o == Vector(90.0, 0.0, 0.0, 0.0);
    assert o.LengthSquared() == 8100.0;
    SqrtIs(sqrt, 8100.0, 90.0);
  }

  lemma LeftOfMoved(d: real, q: real, r: real, pt: Vector, w1: Vector, w2: Vector, w3: Vector)
    requires 0.0 < d < 0.01 && 0.0 < q <= 0.00008 && 0.0 < r <= 0.00008
    requires pt.x == 54.0 + d && pt.y == 50.0 && w1.x == 54.01 && w1.y == 50.0
    requires w2.x == 9.0 - 45.0 * q && w2.y == 5.0 - 135.0 * q
    requires w3.x == 9.0 - 45.0 * r && w3.y == 95.0 + 135.0 * r
    ensures Sign(pt, w1, w2) < 0.0 && Sign(pt, w2, w3) < 0.0 && Sign(pt, w3, w1) < 0.0
  {
    LeftSigns(-d, 0.0, 0.01, q, r, pt, w1, w2, w3);
    SideEdgeInside(-d, 0.0, q, r);
    EdgeNearCentre(d, q);
    EdgeNearCentre(d, r);
  }

  lemma EdgeNearCentre(d: real, q: real)
    requires 0.0 < d < 0.01 && q > 0.0
    ensures Edge(-d, 0.0, 0.01, q) > 0.0
  {
    RealMul(0.0, 0.01 - d, q);
  }

  /**
   A point where the adjustment is not the calibrated height: a bed whose right corners are high, just right of the
   centre.
   */
  lemma WrongTriangle(sqrt: real -> real)
    requires IsSqrt(sqrt)
    ensures HeightAdjustment(sqrt, Corners(1.0, 0.0, 0.0, 1.0), 54.001, 50.0) == 0.0
    ensures Surface(Corners(1.0, 0.0, 0.0, 1.0), 54.001, 50.0) == 0.002 / 90.0
  {
    var c := Corners(1.0, 0.0, 0.0, 1.0);
    TakenForLeft(sqrt, c, 0.001);
    HeightError(sqrt, c, 54.001, 50.0);
  }

  /** The adjustment is the calibrated height at each corner and zero at the centre. */
  lemma CornersAndCenter(sqrt: real -> real, c: Corners)
    requires IsSqrt(sqrt)
    ensures HeightAdjustment(sqrt, c, c.BackRight().x, c.BackRight().y) == c.backRight
    ensures HeightAdjustment(sqrt, c, c.BackLeft().x, c.BackLeft().y) == c.backLeft
    ensures HeightAdjustment(sqrt, c, c.FrontLeft().x, c.FrontLeft().y) == c.frontLeft
    ensures HeightAdjustment(sqrt, c, c.FrontRight().x, c.FrontRight().y) == c.frontRight
    ensures HeightAdjustment(sqrt, c, BED_CENTER_X, BED_CENTER_Y) == 0.0
  {
    HeightAtCorner(sqrt, c, c.BackRight());
    HeightAtCorner(sqrt, c, c.BackLeft());
    HeightAtCorner(sqrt, c, c.FrontLeft());
    HeightAtCorner(sqrt, c, c.FrontRight());
    HeightAtCentre(sqrt, c, BED_CENTER_X, BED_CENTER_Y);
  }

  lemma HeightAtCorner(sqrt: real -> real, c: Corners, v: Vector)
    requires IsSqrt(sqrt) && (v == c.BackRight() || v == c.BackLeft() || v == c.FrontLeft() || v == c.FrontRight())
    ensures HeightAdjustment(sqrt, c, v.x, v.y) == v.z
  {
    OuterWeights(sqrt, c, v.x, v.y);
    MixAtCorner(c, v, Weights(sqrt, c, v.x, v.y));
  }

  lemma MixAtCorner(c: Corners, v: Vector, w: (real, real))
    requires || (v == c.BackRight() && w == (1.0, 0.5)) || (v == c.BackLeft() && w == (0.5, 0.0))
             || (v == c.FrontLeft() && w == (0.0, 0.5)) || (v == c.FrontRight() && w == (0.5, 1.0))
    ensures Mix(c, v.x, v.y, w) == v.z
  {
  }

  lemma HeightAtCentre(sqrt: real -> real, c: Corners, x: real, y: real)
    requires IsSqrt(sqrt) && Rising(x, y) == 0.0 && Falling(x, y) == 0.0
    ensures HeightAdjustment(sqrt, c, x, y) == 0.0
  {
    HeightError(sqrt, c, x, y);
  }

  /** Neighbouring planes agree along the diagonal they share, so the surface has no step there. */
  lemma PlanesMeetOnDiagonals(c: Corners, x: real, y: real)
    ensures Rising(x, y) == 0.0 ==> ZAt(x, y, c.BackPlane()) == ZAt(x, y, c.LeftPlane())
    ensures Rising(x, y) == 0.0 ==> ZAt(x, y, c.FrontPlane()) == ZAt(x, y, c.RightPlane())
    ensures Falling(x, y) == 0.0 ==> ZAt(x, y, c.BackPlane()) == ZAt(x, y, c.RightPlane())
    ensures Falling(x, y) == 0.0 ==> ZAt(x, y, c.FrontPlane()) == ZAt(x, y, c.LeftPlane())
  {
    PlaneForms(c, x, y);
  }

  /** The corners lie on the plane through the centre with slopes `a` and `b`. */
  predicate OnPlane(c: Corners, a: real, b: real) {
    && c.backRight == a * 45.0 + b * 45.0
    && c.backLeft == -a * 45.0 + b * 45.0
    && c.frontLeft == -a * 45.0 - b * 45.0
    && c.frontRight == a * 45.0 - b * 45.0
  }

  /** A bed that is a plane is followed exactly at every point, whichever region or triangle is chosen. */
  lemma PlanarBed(sqrt: real -> real, c: Corners, a: real, b: real, x: real, y: real)
    requires IsSqrt(sqrt) && OnPlane(c, a, b)
    ensures HeightAdjustment(sqrt, c, x, y) == a * (x - BED_CENTER_X) + b * (y - BED_CENTER_Y)
  {
    var height := a * (x - BED_CENTER_X) + b * (y - BED_CENTER_Y);
    PlanarPlanes(c, a, b, x, y);
    OnePlane(sqrt, c, x, y, height);
  }

  lemma PlanarPlanes(c: Corners, a: real, b: real, x: real, y: real)
    requires OnPlane(c, a, b)
    ensures var height := a * (x - BED_CENTER_X) + b * (y - BED_CENTER_Y);
            && ZAt(x, y, c.BackPlane()) == height && ZAt(x, y, c.LeftPlane()) == height
            && ZAt(x, y, c.RightPlane()) == height && ZAt(x, y, c.FrontPlane()) == height
  {
    PlaneForms(c, x, y);
    var right := (c.backRight * Rising(x, y) + c.frontRight * Falling(x, y)) / 90.0;
    assert right == a * (x - BED_CENTER_X) + b * (y - BED_CENTER_Y);
    assert -c.frontLeft == c.backRight && -c.backLeft == c.frontRight;
  }

  /** When the four planes agree at a point, every branch of the adjustment gives their value. */
  lemma OnePlane(sqrt: real -> real, c: Corners, x: real, y: real, height: real)
    requires IsSqrt(sqrt)
    requires ZAt(x, y, c.BackPlane()) == height && ZAt(x, y, c.LeftPlane()) == height
    requires ZAt(x, y, c.RightPlane()) == height && ZAt(x, y, c.FrontPlane()) == height
    ensures HeightAdjustment(sqrt, c, x, y) == height
  {
  }
}
