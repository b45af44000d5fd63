/** The segment crossing test of utils.py. */
module Utils {
  import opened Geometry

  /** The point at parameter t on the line from p towards q. */
  function PointAt(p: Vec2, q: Vec2, t: real): Vec2
  {
    Vec2(p.x + t * (q.x - p.x), p.y + t * (q.y - p.y))
  }

  /** The open segment from p to re crosses the open segment from c to d at
      the point of parameter alpha along p..re. */
  ghost predicate CrossesAt(d: Vec2, c: Vec2, p: Vec2, re: Vec2, alpha: real)
  {
    && 0.0 < alpha < 1.0
    && exists beta :: 0.0 < beta < 1.0 && PointAt(p, re, alpha) == PointAt(c, d, beta)
  }

  /** `crossing_of_lines(d, c, p, re)`: the cross-product parameters of the
      segments p..re and c..d. The source writes the three products out
      coordinate by coordinate; Products shows they are the cross products
      used here. The third rebinds `c` in the source; its right-hand side
      still reads the parameter, so it is named `c'` here.
      Parallel segments (b == 0) and crossings at an endpoint or outside
      either segment give None; otherwise the result is alpha, the parameter
      of the crossing point along p..re. */
  function CrossingOfLines(d: Vec2, c: Vec2, p: Vec2, re: Vec2): (r: Option<real>)
    ensures Cross(Sub2(d, c), Sub2(re, p)) == 0.0 ==> r == None
    ensures r.Some? ==> 0.0 < r.value < 1.0
    ensures r.Some? ==> 0.0 < Cross(Sub2(re, p), Sub2(c, p)) / Cross(Sub2(d, c), Sub2(re, p)) < 1.0
    ensures r.Some? ==> CrossesAt(d, c, p, re, r.value)
  {
    var u, v, w := Sub2(d, c), Sub2(re, p), Sub2(c, p);
    var a, b, c' := Cross(u, w), Cross(u, v), Cross(v, w);
    AcceptedMeansCrossing(d, c, p, re);
    AcceptParameters(a, b, c')
  }

  /** Parameters that pass the guards locate a crossing of the two segments. */
  lemma AcceptedMeansCrossing(d: Vec2, c: Vec2, p: Vec2, re: Vec2)
    ensures var u, v, w := Sub2(d, c), Sub2(re, p), Sub2(c, p);
      var r := AcceptParameters(Cross(u, w), Cross(u, v), Cross(v, w));
      r.Some? ==> CrossesAt(d, c, p, re, r.value)
  {
    var u, v, w := Sub2(d, c), Sub2(re, p), Sub2(c, p);
    var r := AcceptParameters(Cross(u, w), Cross(u, v), Cross(v, w));
    if r.Some? {
      CrossingPoint(u, v, w);
      var beta := Cross(v, w) / Cross(u, v);
      CrossingEquation(d, c, p, re, r.value, beta);
      assert PointAt(p, re, r.value) == PointAt(c, d, beta);
    }
  }

  /** The guards of `crossing_of_lines` on its three products: b == 0
      (parallel) is rejected, and so is any alpha = a/b or beta = c'/b outside
      the open interval (0, 1). */
  function AcceptParameters(a: real, b: real, c': real): (r: Option<real>)
    ensures r.Some? <==> b != 0.0 && 0.0 < a / b < 1.0 && 0.0 < c' / b < 1.0
    ensures r.Some? ==> r.value == a / b
  {
    if b == 0.0 then None
    else
      var alpha := a / b;
      var beta := c' / b;
      if alpha >= 1.0 || alpha <= 0.0 || beta >= 1.0 || beta <= 0.0 then None
      else Some(alpha)
  }

  /** With u = d - c, v = re - p and w = c - p, the three products of
      `crossing_of_lines` are Cross(u, w), Cross(u, v) and Cross(v, w). For
      this triple, alpha*v - beta*u == w. */
  lemma CrossingPoint(u: Vec2, v: Vec2, w: Vec2)
    requires Cross(u, v) != 0.0
    ensures var alpha, beta := Cross(u, w) / Cross(u, v), Cross(v, w) / Cross(u, v);
      alpha * v.x - beta * u.x == w.x && alpha * v.y - beta * u.y == w.y
  {
    var a, b, c' := Cross(u, w), Cross(u, v), Cross(v, w);
    var alpha, beta := a / b, c' / b;
    DivMul(a, b);
    DivMul(c', b);
    calc {
      (alpha * v.x - beta * u.x - w.x) * b;
      == (alpha * b) * v.x - (beta * b) * u.x - b * w.x;
      == a * v.x - c' * u.x - b * w.x;
      == { CrossIdentity(u, v, w); } 0.0;
    }
    Cancel(alpha * v.x - beta * u.x - w.x, b);
    calc {
      (alpha * v.y - beta * u.y - w.y) * b;
      == (alpha * b) * v.y - (beta * b) * u.y - b * w.y;
      == a * v.y - c' * u.y - b * w.y;
      == { CrossIdentity(u, v, w); } 0.0;
    }
    Cancel(alpha * v.y - beta * u.y - w.y, b);
  }

  /** For non-parallel directions, alpha*v - beta*u == w has exactly one
      solution: the one CrossingPoint gives. */
  lemma ParametersUnique(u: Vec2, v: Vec2, w: Vec2, alpha: real, beta: real)
    requires Cross(u, v) != 0.0
    requires alpha * v.x - beta * u.x == w.x && alpha * v.y - beta * u.y == w.y
    ensures alpha == Cross(u, w) / Cross(u, v)
    ensures beta == Cross(v, w) / Cross(u, v)
  {
    var b := Cross(u, v);
    calc {
      Cross(u, w);
      == u.x * (alpha * v.y - beta * u.y) - u.y * (alpha * v.x - beta * u.x);
      == alpha * b;
    }
    calc {
      Cross(v, w);
      == v.x * (alpha * v.y - beta * u.y) - v.y * (alpha * v.x - beta * u.x);
      == beta * b;
    }
  }

  /** The crossing equation of two lines in terms of u = d - c, v = re - p
      and w = c - p. */
  lemma CrossingEquation(d: Vec2, c: Vec2, p: Vec2, re: Vec2, alpha: real, beta: real)
    ensures var u, v, w := Sub2(d, c), Sub2(re, p), Sub2(c, p);
      PointAt(p, re, alpha) == PointAt(c, d, beta) <==>
      (alpha * v.x - beta * u.x == w.x && alpha * v.y - beta * u.y == w.y)
  {
  }

  /** Converse of CrossingOfLines' contract: whenever two non-parallel
      segments cross strictly inside both, the crossing's parameter is
      returned. */
  lemma CrossingFound(d: Vec2, c: Vec2, p: Vec2, re: Vec2, alpha: real)
    requires Cross(Sub2(d, c), Sub2(re, p)) != 0.0
    requires CrossesAt(d, c, p, re, alpha)
    ensures CrossingOfLines(d, c, p, re) == Some(alpha)
  {
    var beta :| 0.0 < beta < 1.0 && PointAt(p, re, alpha) == PointAt(c, d, beta);
    var u, v, w := Sub2(d, c), Sub2(re, p), Sub2(c, p);
    CrossingEquation(d, c, p, re, alpha, beta);
    ParametersUnique(u, v, w, alpha, beta);
    assert AcceptParameters(Cross(u, w), Cross(u, v), Cross(v, w)) == Some(alpha);
  }

  /** The result is Some(alpha) exactly when the segments are not parallel
      and cross strictly inside both at parameter alpha. */
  lemma CrossingOfLinesCharacterised(d: Vec2, c: Vec2, p: Vec2, re: Vec2, alpha: real)
    ensures CrossingOfLines(d, c, p, re) == Some(alpha) <==>
      Cross(Sub2(d, c), Sub2(re, p)) != 0.0 && CrossesAt(d, c, p, re, alpha)
  {
    if Cross(Sub2(d, c), Sub2(re, p)) != 0.0 && CrossesAt(d, c, p, re, alpha) {
      CrossingFound(d, c, p, re, alpha);
    }
  }

  /** Lines that meet where one of the segments ends give None. */
  lemma EndpointRejected(d: Vec2, c: Vec2, p: Vec2, re: Vec2, alpha: real, beta: real)
    requires PointAt(p, re, alpha) == PointAt(c, d, beta)
    requires alpha == 0.0 || alpha == 1.0 || beta == 0.0 || beta == 1.0
    ensures CrossingOfLines(d, c, p, re) == None
  {
    var u, v, w := Sub2(d, c), Sub2(re, p), Sub2(c, p);
    if Cross(u, v) != 0.0 {
      CrossingEquation(d, c, p, re, alpha, beta);
      ParametersUnique(u, v, w, alpha, beta);
    }
  }

  /** The returned parameter gives a point on the line through c and d. */
  lemma CrossingOnLineCD(d: Vec2, c: Vec2, p: Vec2, re: Vec2)
    requires CrossingOfLines(d, c, p, re).Some?
    ensures var pt := PointAt(p, re, CrossingOfLines(d, c, p, re).value);
      Cross(Sub2(d, c), Sub2(pt, c)) == 0.0
  {
    var alpha := CrossingOfLines(d, c, p, re).value;
    var beta :| 0.0 < beta < 1.0 && PointAt(p, re, alpha) == PointAt(c, d, beta);
    var u := Sub2(d, c);
    calc {
      Cross(u, Sub2(PointAt(p, re, alpha), c));
      == Cross(u, Sub2(PointAt(c, d, beta), c));
      == u.x * (beta * u.y) - u.y * (beta * u.x);
      == 0.0;
    }
  }

  /** The three products of `crossing_of_lines`, as cross products. */
  lemma Products(d: Vec2, c: Vec2, p: Vec2, re: Vec2)
    ensures (d.x - c.x) * (c.y - p.y) - (d.y - c.y) * (c.x - p.x) == Cross(Sub2(d, c), Sub2(c, p))
    ensures (d.x - c.x) * (re.y - p.y) - (d.y - c.y) * (re.x - p.x) == Cross(Sub2(d, c), Sub2(re, p))
    ensures (re.x - p.x) * (c.y - p.y) - (re.y - p.y) * (c.x - p.x) == Cross(Sub2(re, p), Sub2(c, p))
  {
  }

  lemma CrossIdentity(u: Vec2, v: Vec2, w: Vec2)
    ensures Cross(u, w) * v.x - Cross(v, w) * u.x == Cross(u, v) * w.x
    ensures Cross(u, w) * v.y - Cross(v, w) * u.y == Cross(u, v) * w.y
  {
  }
}
