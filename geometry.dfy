/** Value types shared by the renderer, the colliders and the segment test:
    pygame's Vector3 and Vector2 over exact reals, and the outcome of an
    operation that Python would end with an exception. */
module Geometry {

  datatype Vec3 = Vec3(x: real, y: real, z: real)

  datatype Vec2 = Vec2(x: real, y: real)

  /** The exceptions the modelled code can raise. */
  datatype Failure =
    | ZeroDivision      // float division by zero
    | EmptySequence     // min()/max() of an empty list
    | MissingAttribute  // attribute lookup on an object that lacks it

  datatype Outcome<+T> = Ok(value: T) | Error(failure: Failure)

  /** A Python value that may be `None`. */
  datatype Option<+T> = None | Some(value: T)

  function Square(d: real): (r: real)
    ensures r >= 0.0
  {
    SquareNonneg(d);
    d * d
  }

  lemma SquarePositive(d: real)
    requires d != 0.0
    ensures Square(d) > 0.0
  {
    calc {
      Square(d);
      == d * d;
      > { SquarePos(d); } 0.0;
    }
  }

  /** The square of the difference of two coordinates. */
  function SquaredDiff(a: real, b: real): (r: real)
    ensures r >= 0.0
    ensures a == b ==> r == 0.0
  {
    Square(a - b)
  }

  lemma SquaredDiffPositive(a: real, b: real)
    requires a != b
    ensures SquaredDiff(a, b) > 0.0
  {
    SquarePositive(a - b);
  }

  /** Squared Euclidean distance between two points. */
  function SquaredDistance(u: Vec3, v: Vec3): (r: real)
    ensures r >= 0.0
    ensures u == v ==> r == 0.0
  {
    SquaredDiff(u.x, v.x) + SquaredDiff(u.y, v.y) + SquaredDiff(u.z, v.z)
  }

  /** Two different points are a positive squared distance apart. */
  lemma SquaredDistancePositive(u: Vec3, v: Vec3)
    requires u != v
    ensures SquaredDistance(u, v) > 0.0
  {
    if u.x != v.x {
      SquaredDiffPositive(u.x, v.x);
    } else if u.y != v.y {
      SquaredDiffPositive(u.y, v.y);
    } else {
      SquaredDiffPositive(u.z, v.z);
    }
  }

  function Sub2(u: Vec2, v: Vec2): Vec2
  {
    Vec2(u.x - v.x, u.y - v.y)
  }

  /** The 2D cross product (the z component of the 3D one). */
  function Cross(u: Vec2, v: Vec2): real
  {
    u.x * v.y - u.y * v.x
  }

  /** `math.sqrt(d2) < r`, stated without the square root: the root is never
      negative, so it is below r exactly when r is positive and d2 < r*r. */
  predicate SqrtLess(d2: real, r: real)
  {
    0.0 < r && d2 < r * r
  }

  /** SqrtLess agrees with comparing any non-negative square root of d2. */
  lemma SqrtLessMeansRootLess(d2: real, root: real, r: real)
    requires root >= 0.0 && root * root == d2
    ensures SqrtLess(d2, r) <==> root < r
  {
    if root < r {
      calc {
        d2;
        == root * root;
        <= { MulMono(root, r, root); } r * root;
        == root * r;
        < { MulStrictMono(root, r, r); } r * r;
      }
    } else if 0.0 < r {
      calc {
        r * r;
        <= { MulMono(r, root, r); } root * r;
        == r * root;
        <= { MulMono(r, root, root); } root * root;
        == d2;
      }
    }
  }

  // Facts about products of reals that the solver does not find unaided.

  lemma MulNonneg(a: real, b: real)
    requires a >= 0.0 && b >= 0.0
    ensures a * b >= 0.0
  {
  }

  lemma MulPos(a: real, b: real)
    requires a > 0.0 && b > 0.0
    ensures a * b > 0.0
  {
  }

  lemma MulMono(a: real, b: real, c: real)
    requires a <= b && c >= 0.0
    ensures a * c <= b * c
  {
    MulNonneg(b - a, c);
  }

  lemma MulStrictMono(a: real, b: real, c: real)
    requires a < b && c > 0.0
    ensures a * c < b * c
  {
    MulPos(b - a, c);
  }

  lemma SquarePos(a: real)
    requires a != 0.0
    ensures a * a > 0.0
  {
    if a > 0.0 {
      MulPos(a, a);
    } else {
      MulPos(-a, -a);
      assert (-a) * (-a) == a * a;
    }
  }

  lemma SquareNonneg(a: real)
    ensures a * a >= 0.0
  {
    if a != 0.0 { SquarePos(a); }
  }

  lemma DivMul(a: real, b: real)
    requires b != 0.0
    ensures (a / b) * b == a
  {
  }

  lemma Cancel(e: real, b: real)
    requires b != 0.0 && e * b == 0.0
    ensures e == 0.0
  {
  }
}
