/** The renderer of main.py: faces, cuboids built from two corners, and the
    camera's perspective divide and keyboard movement. */
module Render {
  import opened Geometry

  /** A polygon given by its vertices, in order, and a colour name. */
  class Face {
    var vertices: seq<Vec3>
    var color: string

    /** `Face(*vertices, color="green")`: the vertices are appended one by
        one, in argument order. */
    constructor (coords: seq<Vec3>, color: string := "green")
      ensures vertices == coords
      ensures this.color == color
    {
      vertices := [];
      this.color := color;
      new;
      var i := 0;
      while i < |coords|
        invariant 0 <= i <= |coords|
        invariant vertices == coords[..i]
        invariant this.color == color
      {
        vertices := vertices + [coords[i]];
        i := i + 1;
      }
    }
  }

  /** The six faces `create_faces` lists for the corners cor1 and cor2: two at
      z1 and z2, two at y2 and y1, two at x1 and x2, each going round its
      rectangle. */
  function CuboidFaceCoords(cor1: Vec3, cor2: Vec3): (r: seq<seq<Vec3>>)
    ensures |r| == 6
    ensures forall i :: 0 <= i < 6 ==> |r[i]| == 4
  {
    var x1, y1, z1 := cor1.x, cor1.y, cor1.z;
    var x2, y2, z2 := cor2.x, cor2.y, cor2.z;
    [
      [Vec3(x1, y1, z1), Vec3(x1, y2, z1), Vec3(x2, y2, z1), Vec3(x2, y1, z1)],
      [Vec3(x1, y1, z2), Vec3(x1, y2, z2), Vec3(x2, y2, z2), Vec3(x2, y1, z2)],
      [Vec3(x1, y2, z1), Vec3(x1, y2, z2), Vec3(x2, y2, z2), Vec3(x2, y2, z1)],
      [Vec3(x1, y1, z1), Vec3(x1, y1, z2), Vec3(x2, y1, z2), Vec3(x2, y1, z1)],
      [Vec3(x1, y1, z1), Vec3(x1, y1, z2), Vec3(x1, y2, z2), Vec3(x1, y2, z1)],
      [Vec3(x2, y1, z1), Vec3(x2, y1, z2), Vec3(x2, y2, z2), Vec3(x2, y2, z1)]
    ]
  }

  /** The eight points whose every coordinate comes from one of the corners. */
  function Corners(cor1: Vec3, cor2: Vec3): set<Vec3>
  {
    var x1, y1, z1 := cor1.x, cor1.y, cor1.z;
    var x2, y2, z2 := cor2.x, cor2.y, cor2.z;
    {
      Vec3(x1, y1, z1), Vec3(x1, y1, z2), Vec3(x1, y2, z1), Vec3(x1, y2, z2),
      Vec3(x2, y1, z1), Vec3(x2, y1, z2), Vec3(x2, y2, z1), Vec3(x2, y2, z2)
    }
  }

  /** v takes each coordinate from cor1 or from cor2. */
  predicate IsCorner(v: Vec3, cor1: Vec3, cor2: Vec3)
  {
    && (v.x == cor1.x || v.x == cor2.x)
    && (v.y == cor1.y || v.y == cor2.y)
    && (v.z == cor1.z || v.z == cor2.z)
  }

  /** All vertices of a list of faces. */
  function Vertices(faces: seq<seq<Vec3>>): set<Vec3>
  {
    set i, j | 0 <= i < |faces| && 0 <= j < |faces[i]| :: faces[i][j]
  }

  /** The number of coordinates in which u and v differ. */
  function DiffCount(u: Vec3, v: Vec3): (n: nat)
    ensures n <= 3
    ensures n == 0 <==> u == v
  {
    (if u.x != v.x then 1 else 0) + (if u.y != v.y then 1 else 0) + (if u.z != v.z then 1 else 0)
  }

  /** Each face lies in a plane of constant coordinate: faces 0 and 1 at
      z1 and z2, faces 2 and 3 at y2 and y1, faces 4 and 5 at x1 and x2. */
  lemma FacesArePlanar(cor1: Vec3, cor2: Vec3)
    ensures var r := CuboidFaceCoords(cor1, cor2);
      forall j :: 0 <= j < 4 ==>
        && r[0][j].z == cor1.z && r[1][j].z == cor2.z
        && r[2][j].y == cor2.y && r[3][j].y == cor1.y
        && r[4][j].x == cor1.x && r[5][j].x == cor2.x
  {
  }

  /** Every vertex of every face is a corner combination. */
  lemma VerticesAreCorners(cor1: Vec3, cor2: Vec3)
    ensures var r := CuboidFaceCoords(cor1, cor2);
      forall i, j :: 0 <= i < 6 && 0 <= j < 4 ==> IsCorner(r[i][j], cor1, cor2)
  {
  }

  /** A point is a corner combination exactly when it is one of the eight
      corners. */
  lemma CornersAreCornerCombinations(v: Vec3, cor1: Vec3, cor2: Vec3)
    ensures v in Corners(cor1, cor2) <==> IsCorner(v, cor1, cor2)
  {
  }

  /** Together the six faces use exactly the eight corners. */
  lemma VerticesAreAllCorners(cor1: Vec3, cor2: Vec3)
    ensures Vertices(CuboidFaceCoords(cor1, cor2)) == Corners(cor1, cor2)
  {
    var r := CuboidFaceCoords(cor1, cor2);
    var x1, y1, z1 := cor1.x, cor1.y, cor1.z;
    var x2, y2, z2 := cor2.x, cor2.y, cor2.z;
    forall v | v in Vertices(r)
      ensures v in Corners(cor1, cor2)
    {
      var i, j :| 0 <= i < 6 && 0 <= j < 4 && v == r[i][j];
      VerticesAreCorners(cor1, cor2);
      CornersAreCornerCombinations(v, cor1, cor2);
    }
    forall v | v in Corners(cor1, cor2)
      ensures v in Vertices(r)
    {
      if v == Vec3(x1, y1, z1) { assert v == r[0][0]; }
      else if v == Vec3(x1, y2, z1) { assert v == r[0][1]; }
      else if v == Vec3(x2, y2, z1) { assert v == r[0][2]; }
      else if v == Vec3(x2, y1, z1) { assert v == r[0][3]; }
      else if v == Vec3(x1, y1, z2) { assert v == r[1][0]; }
      else if v == Vec3(x1, y2, z2) { assert v == r[1][1]; }
      else if v == Vec3(x2, y2, z2) { assert v == r[1][2]; }
      else { assert v == r[1][3]; }
    }
  }

  /** f goes round a rectangle: neighbouring vertices (the last and the first
      included) differ in one coordinate, opposite vertices in two. */
  predicate GoesRound(f: seq<Vec3>)
  {
    && |f| == 4
    && DiffCount(f[0], f[1]) == 1 && DiffCount(f[1], f[2]) == 1
    && DiffCount(f[2], f[3]) == 1 && DiffCount(f[3], f[0]) == 1
    && DiffCount(f[0], f[2]) == 2 && DiffCount(f[1], f[3]) == 2
  }

  /** With distinct corner coordinates, every face goes round a rectangle. */
  lemma FacesAreRectangles(cor1: Vec3, cor2: Vec3)
    requires cor1.x != cor2.x && cor1.y != cor2.y && cor1.z != cor2.z
    ensures var r := CuboidFaceCoords(cor1, cor2);
      forall i :: 0 <= i < 6 ==> GoesRound(r[i])
  {
  }

  /** The vertices two faces have in common. */
  function Common(f: seq<Vec3>, g: seq<Vec3>): set<Vec3>
  {
    set v | v in f && v in g
  }

  /** The four edges of a four-vertex face, each as the set of its two ends. */
  function Edges(f: seq<Vec3>): set<set<Vec3>>
    requires |f| == 4
  {
    {{f[0], f[1]}, {f[1], f[2]}, {f[2], f[3]}, {f[3], f[0]}}
  }

  /** Faces 0/1, 2/3 and 4/5 are the opposite pairs. */
  predicate Opposite(i: int, k: int)
  {
    i != k && i / 2 == k / 2
  }

  /** With distinct corner coordinates, opposite faces share no vertex and
      any other two faces share exactly one edge, which is an edge of both
      (its two ends are distinct, by FacesAreRectangles). */
  lemma AdjacentFacesShareEdge(cor1: Vec3, cor2: Vec3)
    requires cor1.x != cor2.x && cor1.y != cor2.y && cor1.z != cor2.z
    ensures var r := CuboidFaceCoords(cor1, cor2);
      forall i, k :: 0 <= i < 6 && 0 <= k < 6 && i != k ==>
        if Opposite(i, k) then Common(r[i], r[k]) == {}
        else Common(r[i], r[k]) in Edges(r[i]) && Common(r[i], r[k]) in Edges(r[k])
  {
    var r := CuboidFaceCoords(cor1, cor2);
    forall i, k | 0 <= i < 6 && 0 <= k < 6 && i != k
      ensures if Opposite(i, k) then Common(r[i], r[k]) == {}
        else Common(r[i], r[k]) in Edges(r[i]) && Common(r[i], r[k]) in Edges(r[k])
    {
      if i < k {
        FacePair(cor1, cor2, i, k);
      } else {
        FacePair(cor1, cor2, k, i);
        assert Common(r[i], r[k]) == Common(r[k], r[i]);
      }
    }
  }

  /** One pair of faces, the lower index first. */
  lemma FacePair(cor1: Vec3, cor2: Vec3, i: int, k: int)
    requires cor1.x != cor2.x && cor1.y != cor2.y && cor1.z != cor2.z
    requires 0 <= i < k < 6
    ensures var r := CuboidFaceCoords(cor1, cor2);
      if Opposite(i, k) then Common(r[i], r[k]) == {}
      else Common(r[i], r[k]) in Edges(r[i]) && Common(r[i], r[k]) in Edges(r[k])
  {
    var r := CuboidFaceCoords(cor1, cor2);
    if i == 0 && k == 1 {
      assert Common(r[0], r[1]) == {};
    } else if i == 0 && k == 2 {
      assert Common(r[0], r[2]) == {r[0][1], r[0][2]} == {r[2][3], r[2][0]};
    } else if i == 0 && k == 3 {
      assert Common(r[0], r[3]) == {r[0][3], r[0][0]} == {r[3][3], r[3][0]};
    } else if i == 0 && k == 4 {
      assert Common(r[0], r[4]) == {r[0][0], r[0][1]} == {r[4][3], r[4][0]};
    } else if i == 0 && k == 5 {
      assert Common(r[0], r[5]) == {r[0][2], r[0][3]} == {r[5][3], r[5][0]};
    } else if i == 1 && k == 2 {
      assert Common(r[1], r[2]) == {r[1][1], r[1][2]} == {r[2][1], r[2][2]};
    } else if i == 1 && k == 3 {
      assert Common(r[1], r[3]) == {r[1][3], r[1][0]} == {r[3][1], r[3][2]};
    } else if i == 1 && k == 4 {
      assert Common(r[1], r[4]) == {r[1][0], r[1][1]} == {r[4][1], r[4][2]};
    } else if i == 1 && k == 5 {
      assert Common(r[1], r[5]) == {r[1][2], r[1][3]} == {r[5][1], r[5][2]};
    } else if i == 2 && k == 3 {
      assert Common(r[2], r[3]) == {};
    } else if i == 2 && k == 4 {
      assert Common(r[2], r[4]) == {r[2][0], r[2][1]} == {r[4][2], r[4][3]};
    } else if i == 2 && k == 5 {
      assert Common(r[2], r[5]) == {r[2][2], r[2][3]} == {r[5][2], r[5][3]};
    } else if i == 3 && k == 4 {
      assert Common(r[3], r[4]) == {r[3][0], r[3][1]} == {r[4][0], r[4][1]};
    } else if i == 3 && k == 5 {
      assert Common(r[3], r[5]) == {r[3][2], r[3][3]} == {r[5][0], r[5][1]};
    } else if i == 4 && k == 5 {
      assert Common(r[4], r[5]) == {};
    }
  }

  /** The faces list of a cuboid holds one green face per coordinate list. */
  ghost predicate HasFaces(faces: seq<Face>, coords: seq<seq<Vec3>>)
    reads faces
  {
    && |faces| == |coords|
    && forall i :: 0 <= i < |faces| ==> faces[i].vertices == coords[i] && faces[i].color == "green"
  }

  /** A box given by two opposite corners, kept as the caller gave them. */
  class Cuboid {
    var cor1: Vec3
    var cor2: Vec3
    var faces: seq<Face>

    /** The faces are the six green faces of the current corners. */
    ghost predicate FacesMatchCorners()
      reads this, faces
    {
      HasFaces(faces, CuboidFaceCoords(cor1, cor2))
    }

    /** `Cuboid(cor1, cor2)`: stores both corners without reordering them and
        builds the faces. */
    constructor (cor1: Vec3, cor2: Vec3)
      ensures this.cor1 == cor1 && this.cor2 == cor2
      ensures FacesMatchCorners()
      ensures forall i :: 0 <= i < |faces| ==> fresh(faces[i])
    {
      this.cor1 := cor1;
      this.cor2 := cor2;
      faces := [];
      new;
      CreateFaces();
    }

    /** `create_faces`: replaces the faces by the six faces of the box. */
    method CreateFaces()
      modifies this
      ensures cor1 == old(cor1) && cor2 == old(cor2)
      ensures FacesMatchCorners()
      ensures forall i :: 0 <= i < |faces| ==> fresh(faces[i])
    {
      var coords := CuboidFaceCoords(cor1, cor2);
      var f0 := new Face(coords[0]);
      var f1 := new Face(coords[1]);
      var f2 := new Face(coords[2]);
      var f3 := new Face(coords[3]);
      var f4 := new Face(coords[4]);
      var f5 := new Face(coords[5]);
      faces := [f0, f1, f2, f3, f4, f5];
    }
  }

  /** The keys `try_move` looks at: W, S, A, D and the left and right arrows. */
  datatype Keys = Keys(w: bool, s: bool, a: bool, d: bool, left: bool, right: bool)

  /** The distance covered in one frame of dt seconds. */
  function Step(dt: real): real
  {
    10.0 * dt
  }

  /** The net change of a coordinate whose increasing key is `plus` and whose
      decreasing key is `minus`. */
  function Shift(plus: bool, minus: bool, dt: real): real
  {
    (if plus then Step(dt) else 0.0) - (if minus then Step(dt) else 0.0)
  }

  /** Where one frame of `try_move` puts the camera position. */
  function MovedPosition(position: Vec3, keys: Keys, dt: real): (r: Vec3)
    ensures r.y == position.y
  {
    Vec3(position.x + Shift(keys.w, keys.s, dt), position.y, position.z + Shift(keys.a, keys.d, dt))
  }

  /** Where one frame of `try_move` puts the camera rotation. */
  function TurnedRotation(rotation: Vec2, keys: Keys, dt: real): (r: Vec2)
    ensures r.y == rotation.y
  {
    Vec2(rotation.x + Shift(keys.left, keys.right, dt), rotation.y)
  }

  /** The keys with each opposing pair swapped. */
  function Mirror(keys: Keys): Keys
  {
    Keys(keys.s, keys.w, keys.d, keys.a, keys.right, keys.left)
  }

  /** The point at parameter t on the ray from origin through p. */
  function OnRay(origin: Vec3, p: Vec3, t: real): Vec3
  {
    Vec3(origin.x + t * (p.x - origin.x), origin.y + t * (p.y - origin.y), origin.z + t * (p.z - origin.z))
  }

  /** The camera: a position, the distance of the screen from the eye, the
      screen resolution and a rotation; the pygame surface is not modelled. */
  class Camera {
    var position: Vec3
    var screenDistance: real
    var res: (real, real)
    var rotation: Vec2

    constructor (startingPosition: Vec3, screenDistance: real, res: (real, real))
      ensures position == startingPosition
      ensures this.screenDistance == screenDistance && this.res == res
      ensures rotation == Vec2(0.0, 0.0)
    {
      position := startingPosition;
      this.screenDistance := screenDistance;
      this.res := res;
      rotation := Vec2(0.0, 0.0);
    }

    /** `get_point` on the output of `rotate_point`: the perspective divide
        by the depth x_dist, centred on the screen. The first result
        coordinate comes from z and res[0], the second from y and res[1];
        division by a zero depth raises. The contract states the perspective
        relation: the offset from the screen centre times the depth is the
        lateral distance times the screen distance. */
    function GetPoint(rotated: Vec3): (r: Outcome<Vec2>)
      reads this
      ensures r.Error? <==> rotated.x == position.x
      ensures r.Error? ==> r.failure == ZeroDivision
      ensures r.Ok? ==>
        && (res.0 / 2.0 - r.value.x) * (rotated.x - position.x) == (rotated.z - position.z) * screenDistance
        && (res.1 / 2.0 - r.value.y) * (rotated.x - position.x) == (rotated.y - position.y) * screenDistance
    {
      var xDist := rotated.x - position.x;
      var yDist := rotated.y - position.y;
      var zDist := rotated.z - position.z;
      if xDist == 0.0 then Error(ZeroDivision)
      else
        var yPos := res.1 / 2.0 - (yDist * screenDistance) / xDist;
        var zPos := res.0 / 2.0 - (zDist * screenDistance) / xDist;
        DivMul(yDist * screenDistance, xDist);
        DivMul(zDist * screenDistance, xDist);
        Ok(Vec2(zPos, yPos))
    }

    /** A point straight ahead of the camera (level with it and not to the
        side) appears at the centre of the screen. */
    lemma CentredPointMapsToCentre(rotated: Vec3)
      requires rotated.x != position.x
      requires rotated.y == position.y && rotated.z == position.z
      ensures GetPoint(rotated) == Ok(Vec2(res.0 / 2.0, res.1 / 2.0))
    {
    }

    /** Points on one ray from the camera appear at the same screen point:
        moving the point by a non-zero factor t along the ray does not change
        the result. */
    lemma RayInvariant(rotated: Vec3, t: real)
      requires rotated.x != position.x && t != 0.0
      ensures GetPoint(OnRay(position, rotated, t)) == GetPoint(rotated)
    {
      var moved := OnRay(position, rotated, t);
      var xDist, yDist, zDist := rotated.x - position.x, rotated.y - position.y, rotated.z - position.z;
      assert moved.x - position.x == t * xDist;
      assert moved.y - position.y == t * yDist;
      assert moved.z - position.z == t * zDist;
      if t * xDist == 0.0 {
        Cancel(xDist, t);
      }
      var p, q := GetPoint(rotated).value, GetPoint(moved).value;
      calc {
        ((res.0 / 2.0 - q.x) * xDist - zDist * screenDistance) * t;
        == (res.0 / 2.0 - q.x) * (t * xDist) - (t * zDist) * screenDistance;
        == 0.0;
      }
      Cancel((res.0 / 2.0 - q.x) * xDist - zDist * screenDistance, t);
      calc {
        (p.x - q.x) * xDist;
        == (res.0 / 2.0 - q.x) * xDist - (res.0 / 2.0 - p.x) * xDist;
        == 0.0;
      }
      Cancel(p.x - q.x, xDist);
      calc {
        ((res.1 / 2.0 - q.y) * xDist - yDist * screenDistance) * t;
        == (res.1 / 2.0 - q.y) * (t * xDist) - (t * yDist) * screenDistance;
        == 0.0;
      }
      Cancel((res.1 / 2.0 - q.y) * xDist - yDist * screenDistance, t);
      calc {
        (p.y - q.y) * xDist;
        == (res.1 / 2.0 - q.y) * xDist - (res.1 / 2.0 - p.y) * xDist;
        == 0.0;
      }
      Cancel(p.y - q.y, xDist);
      assert p == q;
    }

    /** `try_move(keys, dt)`: W/S move along x, A/D along z and the arrows
        turn about x, each by 10*dt per pressed key; nothing else changes. */
    method TryMove(keys: Keys, dt: real)
      modifies this
      ensures position == MovedPosition(old(position), keys, dt)
      ensures rotation == TurnedRotation(old(rotation), keys, dt)
      ensures screenDistance == old(screenDistance) && res == old(res)
    {
      if keys.w {
        position := position.(x := position.x + 10.0 * dt);
      }
      if keys.s {
        position := position.(x := position.x - 10.0 * dt);
      }
      if keys.a {
        position := position.(z := position.z + 10.0 * dt);
      }
      if keys.d {
        position := position.(z := position.z - 10.0 * dt);
      }
      if keys.left {
        rotation := rotation.(x := rotation.x + 10.0 * dt);
      }
      if keys.right {
        rotation := rotation.(x := rotation.x - 10.0 * dt);
      }
    }
  }

  /** A pressed pair of opposing keys, or neither key, cancels out. */
  lemma OpposingKeysCancel(plus: bool, minus: bool, dt: real)
    requires plus == minus
    ensures Shift(plus, minus, dt) == 0.0
  {
  }

  /** With no key pressed the camera stays where it is. */
  lemma NoKeysNoMove(position: Vec3, rotation: Vec2, dt: real)
    ensures var none := Keys(false, false, false, false, false, false);
      MovedPosition(position, none, dt) == position && TurnedRotation(rotation, none, dt) == rotation
  {
  }

  /** A frame with the mirrored keys undoes a frame of the same length. */
  lemma MirrorUndoes(position: Vec3, rotation: Vec2, keys: Keys, dt: real)
    ensures MovedPosition(MovedPosition(position, keys, dt), Mirror(keys), dt) == position
    ensures TurnedRotation(TurnedRotation(rotation, keys, dt), Mirror(keys), dt) == rotation
  {
  }

  /** Two frames with the same keys move as far as one frame of their
      combined length. */
  lemma FramesCompose(position: Vec3, rotation: Vec2, keys: Keys, dt1: real, dt2: real)
    ensures MovedPosition(MovedPosition(position, keys, dt1), keys, dt2) == MovedPosition(position, keys, dt1 + dt2)
    ensures TurnedRotation(TurnedRotation(rotation, keys, dt1), keys, dt2) == TurnedRotation(rotation, keys, dt1 + dt2)
  {
  }
}
