/** Axis-aligned box and sphere colliders (collision.py). Every operation is
    a single expression over its arguments, so the colliders are values and
    the operations are functions. `math.sqrt` is replaced by comparisons of
    squared distances (Geometry.SqrtLess). */
module Collision {
  import opened Geometry

  datatype Axis = X | Y | Z

  function Coord(p: Vec3, a: Axis): real
  {
    match a
    case X => p.x
    case Y => p.y
    case Z => p.z
  }

  /** `BoxCollider.boundary`: the pair (minimum corner, maximum corner). */
  datatype BoxCollider = BoxCollider(lo: Vec3, hi: Vec3)

  datatype SphereCollider = SphereCollider(center: Vec3, radius: real)

  /** The argument of `BoxCollider.__init__`: a ready-made corner pair, or a
      list of points to fit the box around. */
  datatype Boundary = Corners(lo: Vec3, hi: Vec3) | Points(points: seq<Vec3>)

  /** The box is non-empty on every axis. */
  predicate WellFormed(b: BoxCollider)
  {
    b.lo.x <= b.hi.x && b.lo.y <= b.hi.y && b.lo.z <= b.hi.z
  }

  /** p lies in the closed box. */
  predicate InBox(p: Vec3, b: BoxCollider)
  {
    && b.lo.x <= p.x <= b.hi.x
    && b.lo.y <= p.y <= b.hi.y
    && b.lo.z <= p.z <= b.hi.z
  }

  /** `min(points, key=...)` on one axis: the smallest coordinate, which is
      the coordinate of some point. */
  function MinCoord(points: seq<Vec3>, a: Axis): (m: real)
    requires |points| > 0
    ensures forall i :: 0 <= i < |points| ==> m <= Coord(points[i], a)
    ensures exists i :: 0 <= i < |points| && Coord(points[i], a) == m
  {
    if |points| == 1 then Coord(points[0], a)
    else
      var rest := MinCoord(points[1..], a);
      assert forall i :: 1 <= i < |points| ==> points[1..][i - 1] == points[i];
      if Coord(points[0], a) <= rest then Coord(points[0], a) else rest
  }

  /** `max(points, key=...)` on one axis. */
  function MaxCoord(points: seq<Vec3>, a: Axis): (m: real)
    requires |points| > 0
    ensures forall i :: 0 <= i < |points| ==> Coord(points[i], a) <= m
    ensures exists i :: 0 <= i < |points| && Coord(points[i], a) == m
  {
    if |points| == 1 then Coord(points[0], a)
    else
      var rest := MaxCoord(points[1..], a);
      assert forall i :: 1 <= i < |points| ==> points[1..][i - 1] == points[i];
      if Coord(points[0], a) >= rest then Coord(points[0], a) else rest
  }

  /** Every point lies in b. */
  predicate Encloses(b: BoxCollider, points: seq<Vec3>)
  {
    forall i :: 0 <= i < |points| ==> InBox(points[i], b)
  }

  /** Each bound of b, on axis a, is the coordinate of one of the points. */
  predicate AttainedOn(b: BoxCollider, points: seq<Vec3>, a: Axis)
  {
    && (exists i :: 0 <= i < |points| && Coord(points[i], a) == Coord(b.lo, a))
    && (exists i :: 0 <= i < |points| && Coord(points[i], a) == Coord(b.hi, a))
  }

  /** Every bound of b is the coordinate of one of the points. */
  predicate Attained(b: BoxCollider, points: seq<Vec3>)
  {
    AttainedOn(b, points, X) && AttainedOn(b, points, Y) && AttainedOn(b, points, Z)
  }

  /** The min/max reduction of a non-empty list, axis by axis. */
  function FitBox(points: seq<Vec3>): (b: BoxCollider)
    requires |points| > 0
    ensures WellFormed(b) && Encloses(b, points) && Attained(b, points)
  {
    var b := BoxCollider(
      Vec3(MinCoord(points, X), MinCoord(points, Y), MinCoord(points, Z)),
      Vec3(MaxCoord(points, X), MaxCoord(points, Y), MaxCoord(points, Z)));
    assert Coord(b.lo, X) == MinCoord(points, X) && Coord(b.hi, X) == MaxCoord(points, X);
    assert Coord(b.lo, Y) == MinCoord(points, Y) && Coord(b.hi, Y) == MaxCoord(points, Y);
    assert Coord(b.lo, Z) == MinCoord(points, Z) && Coord(b.hi, Z) == MaxCoord(points, Z);
    assert forall i :: 0 <= i < |points| ==>
      Coord(b.lo, X) <= Coord(points[i], X) <= Coord(b.hi, X) &&
      Coord(b.lo, Y) <= Coord(points[i], Y) <= Coord(b.hi, Y) &&
      Coord(b.lo, Z) <= Coord(points[i], Z) <= Coord(b.hi, Z);
    b
  }

  /** `BoxCollider.__init__`. A corner pair is stored as given; a list is
      reduced axis by axis with min and max, and an empty list makes `min`
      raise. */
  function NewBoxCollider(boundary: Boundary): (r: Outcome<BoxCollider>)
    ensures boundary.Corners? ==> r == Ok(BoxCollider(boundary.lo, boundary.hi))
    ensures boundary.Points? ==> (r.Error? <==> |boundary.points| == 0)
    ensures r.Error? ==> r.failure == EmptySequence
    ensures boundary.Points? && r.Ok? ==>
      WellFormed(r.value) && Encloses(r.value, boundary.points) && Attained(r.value, boundary.points)
  {
    match boundary
    case Corners(lo, hi) => Ok(BoxCollider(lo, hi))
    case Points(points) => if |points| == 0 then Error(EmptySequence) else Ok(FitBox(points))
  }

  /** The bounds of b on axis a lie within those of any box that holds every
      point, when b's bounds are attained by points. */
  lemma AttainedIsSmallestOn(b: BoxCollider, points: seq<Vec3>, other: BoxCollider, a: Axis)
    requires Encloses(other, points) && AttainedOn(b, points, a)
    ensures Coord(other.lo, a) <= Coord(b.lo, a) && Coord(b.hi, a) <= Coord(other.hi, a)
  {
    var i :| 0 <= i < |points| && Coord(points[i], a) == Coord(b.lo, a);
    var j :| 0 <= j < |points| && Coord(points[j], a) == Coord(b.hi, a);
    assert InBox(points[i], other) && InBox(points[j], other);
  }

  /** The box fitted around a list is the smallest box holding every point. */
  lemma FittedBoxIsSmallest(points: seq<Vec3>, other: BoxCollider)
    requires |points| > 0
    requires Encloses(other, points)
    ensures NewBoxCollider(Points(points)).Ok?
    ensures var b := NewBoxCollider(Points(points)).value;
      && other.lo.x <= b.lo.x && b.hi.x <= other.hi.x
      && other.lo.y <= b.lo.y && b.hi.y <= other.hi.y
      && other.lo.z <= b.lo.z && b.hi.z <= other.hi.z
  {
    var b := NewBoxCollider(Points(points)).value;
    AttainedIsSmallestOn(b, points, other, X);
    AttainedIsSmallestOn(b, points, other, Y);
    AttainedIsSmallestOn(b, points, other, Z);
  }

  /** `BoxCollider.collide_box`: closed-interval overlap on all three axes. */
  predicate CollideBox(self: BoxCollider, other: BoxCollider)
  {
    && self.lo.x <= other.hi.x
    && self.hi.x >= other.lo.x
    && self.lo.y <= other.hi.y
    && self.hi.y >= other.lo.y
    && self.lo.z <= other.hi.z
    && self.hi.z >= other.lo.z
  }

  lemma CollideBoxSymmetric(a: BoxCollider, b: BoxCollider)
    ensures CollideBox(a, b) == CollideBox(b, a)
  {
  }

  lemma CollideBoxSelf(b: BoxCollider)
    requires WellFormed(b)
    ensures CollideBox(b, b)
  {
  }

  /** Two well-formed boxes collide exactly when some point lies in both;
      the intervals are closed, so boxes that only touch collide. */
  lemma CollideBoxMeansCommonPoint(a: BoxCollider, b: BoxCollider)
    requires WellFormed(a) && WellFormed(b)
    ensures CollideBox(a, b) <==> exists p :: InBox(p, a) && InBox(p, b)
  {
    if CollideBox(a, b) {
      var p := Vec3(Max(a.lo.x, b.lo.x), Max(a.lo.y, b.lo.y), Max(a.lo.z, b.lo.z));
      assert InBox(p, a) && InBox(p, b);
    }
  }

  /** Boxes that share only the plane x == a.hi.x == b.lo.x collide. */
  lemma CollideBoxTouching(a: BoxCollider, b: BoxCollider)
    requires WellFormed(a) && WellFormed(b)
    requires a.hi.x == b.lo.x
    requires a.lo.y <= b.hi.y && b.lo.y <= a.hi.y
    requires a.lo.z <= b.hi.z && b.lo.z <= a.hi.z
    ensures CollideBox(a, b) && CollideBox(b, a)
  {
  }

  function Max(a: real, b: real): real
  {
    if a >= b then a else b
  }

  function Min(a: real, b: real): real
  {
    if a <= b then a else b
  }

  /** `max(lo, min(v, hi))`. */
  function Clamp(lo: real, v: real, hi: real): (r: real)
    ensures lo <= hi ==> lo <= r <= hi
    ensures lo <= v <= hi ==> r == v
  {
    Max(lo, Min(v, hi))
  }

  /** The point of the box nearest to c, coordinate by coordinate. */
  function ClosestPoint(box: BoxCollider, c: Vec3): (r: Vec3)
    ensures WellFormed(box) ==> InBox(r, box)
    ensures InBox(c, box) ==> r == c
  {
    Vec3(Clamp(box.lo.x, c.x, box.hi.x),
         Clamp(box.lo.y, c.y, box.hi.y),
         Clamp(box.lo.z, c.z, box.hi.z))
  }

  /** The clamped coordinate is at least as close to v as any coordinate of
      the interval. */
  lemma ClampIsNearest(lo: real, v: real, hi: real, q: real)
    requires lo <= q <= hi
    ensures SquaredDiff(Clamp(lo, v, hi), v) <= SquaredDiff(q, v)
  {
    var k := Clamp(lo, v, hi);
    assert SquaredDiff(k, v) == Square(k - v) == (k - v) * (k - v);
    assert SquaredDiff(q, v) == Square(q - v) == (q - v) * (q - v);
    if v < lo {
      assert k == lo;
      calc {
        (q - v) * (q - v) - (k - v) * (k - v);
        == (q - k) * (q + k - 2.0 * v);
        >= { MulNonneg(q - k, q + k - 2.0 * v); } 0.0;
      }
    } else if v > hi {
      assert k == hi;
      calc {
        (q - v) * (q - v) - (k - v) * (k - v);
        == (k - q) * (2.0 * v - q - k);
        >= { MulNonneg(k - q, 2.0 * v - q - k); } 0.0;
      }
    } else {
      assert k == v;
      SquareNonneg(q - v);
    }
  }

  /** The square of `get_distance(sphere, box)`: the squared distance from
      the sphere's centre to the nearest point of the box. */
  function GetSquaredDistance(sphere: SphereCollider, box: BoxCollider): (r: real)
    ensures r >= 0.0
  {
    SquaredDistance(ClosestPoint(box, sphere.center), sphere.center)
  }

  /** For a well-formed box the distance is zero exactly when the centre is
      inside the box. */
  lemma DistanceZeroIffInside(sphere: SphereCollider, box: BoxCollider)
    requires WellFormed(box)
    ensures GetSquaredDistance(sphere, box) == 0.0 <==> InBox(sphere.center, box)
  {
    var k := ClosestPoint(box, sphere.center);
    if !InBox(sphere.center, box) {
      assert k != sphere.center;
      SquaredDistancePositive(k, sphere.center);
    }
  }

  /** No point of the box is nearer to the centre than ClosestPoint. */
  lemma ClosestPointIsNearest(box: BoxCollider, c: Vec3, q: Vec3)
    requires InBox(q, box)
    ensures SquaredDistance(ClosestPoint(box, c), c) <= SquaredDistance(q, c)
  {
    ClampIsNearest(box.lo.x, c.x, box.hi.x, q.x);
    ClampIsNearest(box.lo.y, c.y, box.hi.y, q.y);
    ClampIsNearest(box.lo.z, c.z, box.hi.z, q.z);
  }

  /** `BoxCollider.collide_sphere`: `get_distance(other, self) < other.radius`. */
  predicate BoxCollideSphere(self: BoxCollider, other: SphereCollider)
  {
    SqrtLess(GetSquaredDistance(other, self), other.radius)
  }

  /** `SphereCollider.collide_box`: `get_distance(self, other) < self.radius`. */
  predicate SphereCollideBox(self: SphereCollider, other: BoxCollider)
  {
    SqrtLess(GetSquaredDistance(self, other), self.radius)
  }

  lemma BoxSphereAgree(box: BoxCollider, sphere: SphereCollider)
    ensures BoxCollideSphere(box, sphere) == SphereCollideBox(sphere, box)
  {
  }

  /** A sphere of positive radius whose centre is in the box collides. */
  lemma CentreInsideCollides(sphere: SphereCollider, box: BoxCollider)
    requires sphere.radius > 0.0
    requires InBox(sphere.center, box)
    ensures SphereCollideBox(sphere, box) && BoxCollideSphere(box, sphere)
  {
    assert ClosestPoint(box, sphere.center) == sphere.center;
    assert GetSquaredDistance(sphere, box) == 0.0;
    MulPos(sphere.radius, sphere.radius);
  }

  /** A sphere collides with a well-formed box exactly when some point of the
      box lies strictly inside the sphere. */
  lemma SphereBoxMeansCommonPoint(sphere: SphereCollider, box: BoxCollider)
    requires WellFormed(box)
    ensures SphereCollideBox(sphere, box) <==>
      exists q :: InBox(q, box) && SqrtLess(SquaredDistance(q, sphere.center), sphere.radius)
  {
    var k := ClosestPoint(box, sphere.center);
    if SphereCollideBox(sphere, box) {
      assert InBox(k, box) && SqrtLess(SquaredDistance(k, sphere.center), sphere.radius);
    }
    if q :| InBox(q, box) && SqrtLess(SquaredDistance(q, sphere.center), sphere.radius) {
      ClosestPointIsNearest(box, sphere.center, q);
    }
  }

  /** `SphereCollider.collide_sphere` as written: the distance is computed,
      then `self.center.radius` is looked up on a Vector3, which has no
      `radius` attribute, so every call raises. */
  function SphereCollideSphere(self: SphereCollider, sphere: SphereCollider): (r: Outcome<bool>)
    ensures r.Error? && r.failure == MissingAttribute
  {
    var d2 := SquaredDistance(self.center, sphere.center);
    Error(MissingAttribute)
  }

  /** The evidently intended `collide_sphere`: centre distance below the sum
      of the radii. */
  predicate SphereCollideSphereIntended(self: SphereCollider, sphere: SphereCollider)
  {
    SqrtLess(SquaredDistance(self.center, sphere.center), self.radius + sphere.radius)
  }

  /** Two unit spheres at the same centre: the intended test says they
      collide, the code as written raises. */
  lemma SphereCollideSphereRaises()
    ensures var s := SphereCollider(Vec3(0.0, 0.0, 0.0), 1.0);
      SphereCollideSphere(s, s) == Error(MissingAttribute) && SphereCollideSphereIntended(s, s)
  {
  }

  lemma SphereCollideSphereIntendedSymmetric(a: SphereCollider, b: SphereCollider)
    ensures SphereCollideSphereIntended(a, b) == SphereCollideSphereIntended(b, a)
  {
    assert SquaredDistance(a.center, b.center) == SquaredDistance(b.center, a.center);
  }
}
