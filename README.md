# 3D renderer prototype: geometry core in Dafny

The model covers the real-valued geometry of a small pygame 3D renderer:

- **The renderer** (`main.py`):
  - a `Face` is built from its vertices, in argument order;
  - a `Cuboid` keeps its two corners and builds six four-vertex faces;
  - the `Camera` projects an already rotated point onto the screen with a perspective divide, and moves and turns as keys are held.
- **The colliders** (`collision.py`):
  - an axis-aligned `BoxCollider`, built from a corner pair or fitted around a point list;
  - a `SphereCollider`;
  - box/box, box/sphere and sphere/sphere tests.
- **The segment test** (`utils.py`): `crossing_of_lines`, the parameter at which two segments cross.

Python floats are modelled as exact `real`s. The square root is never computed: `sqrt(d2) < r` becomes `Geometry.SqrtLess(d2, r)`, defined as `0 < r && d2 < r*r`. `Geometry.SqrtLessMeansRootLess` shows this is the same comparison for any non-negative root of `d2`.

Python exceptions are results. `Outcome` is either `Ok(value)` or `Error(failure)`, and the failure names the exception:

- `ZeroDivision`: float division by zero;
- `EmptySequence`: `min` of an empty list;
- `MissingAttribute`: an attribute lookup that fails.

Python's `None` is `Option.None`.

Modules:

- `Geometry` (geometry.dfy): vectors, outcomes, squared distance and facts about real products.
- `Collision` (collision.dfy): `collision.py`.
- `Utils` (utils.dfy): `utils.py`.
- `Render` (render.dfy): `main.py`.

Each part of `main.py` takes the form of its source:

- `Face`, `Cuboid` and `Camera` are classes with mutable fields.
- `Face`'s constructor appends the vertices in a loop.
- `create_faces` and `try_move` are methods that assign the fields.
- `get_point` is a function that reads the camera.

`collision.py` and `utils.py` are pure, so they are datatypes, functions and lemmas.

`get_point` returns `(z_pos, y_pos)`:

- the horizontal screen coordinate comes from the z offset and `res[0]`;
- the vertical one comes from the y offset and `res[1]`.

The model follows this code.

## Model

| member | source | states |
|---|---|---|
| Render.Face.constructor | main.py:10-16 | the vertices are the given coordinates, in order and count; the colour is the one given, `"green"` by default |
| Render.Cuboid.constructor | main.py:31-36 | cor1 and cor2 are stored exactly as given (no reordering); the faces are the six faces of `create_faces`, all freshly allocated |
| Render.Cuboid.CreateFaces | main.py:38-48 | replaces the faces by six fresh green faces whose vertices are CuboidFaceCoords(cor1, cor2), corners unchanged |
| Render.CuboidFaceCoords | main.py:39-48 | the face list has exactly 6 faces of 4 vertices each |
| Render.FacesArePlanar | main.py:42-47 | faces 0 and 1 lie at z = z1 and z = z2, faces 2 and 3 at y = y2 and y = y1, faces 4 and 5 at x = x1 and x = x2 |
| Render.VerticesAreCorners | main.py:39-47 | every vertex takes x from {x1, x2}, y from {y1, y2} and z from {z1, z2} |
| Render.CornersAreCornerCombinations | main.py:39-47 | a point is one of the eight listed corners exactly when each coordinate comes from one of the two corner points |
| Render.VerticesAreAllCorners | main.py:39-48 | the union of all face vertices is exactly the set of eight corners |
| Render.FacesAreRectangles | main.py:42-47 | with x1 ≠ x2, y1 ≠ y2 and z1 ≠ z2, consecutive vertices of every face (wrapping around) differ in exactly one coordinate and opposite vertices in two |
| Render.AdjacentFacesShareEdge | main.py:42-47 | with x1 ≠ x2, y1 ≠ y2 and z1 ≠ z2, opposite faces (0/1, 2/3, 4/5) share no vertex, and any other two faces share exactly one edge, which is an edge of both |
| Render.Camera.constructor | main.py:59-65 | position, screen distance and resolution are stored as given, and the rotation starts at (0, 0) |
| Render.Camera.GetPoint | main.py:83-93 | a zero depth x_dist raises ZeroDivision, and only then; otherwise the result satisfies the perspective relation (res[0]/2 − first)·x_dist = z_dist·screen_distance and (res[1]/2 − second)·x_dist = y_dist·screen_distance |
| Render.Camera.CentredPointMapsToCentre | main.py:86-93 | a point with y_dist = z_dist = 0 and x_dist ≠ 0 maps exactly to (res[0]/2, res[1]/2) |
| Render.Camera.RayInvariant | main.py:86-93 | scaling the offset from the camera by any non-zero factor leaves the projected point unchanged |
| Render.Camera.TryMove | main.py:95-108 | position becomes MovedPosition and rotation TurnedRotation of the old values; screen distance and resolution are unchanged |
| Render.MovedPosition | main.py:96-103 | position.y never changes |
| Render.TurnedRotation | main.py:105-108 | rotation.y never changes |
| Render.OpposingKeysCancel | main.py:96-108 | pressing both keys of an opposing pair, or neither, leaves that coordinate unchanged |
| Render.NoKeysNoMove | main.py:95-108 | with no key pressed, position and rotation are unchanged |
| Render.MirrorUndoes | main.py:95-108 | a frame with the opposing keys undoes a frame of the same length |
| Render.FramesCompose | main.py:95-108 | two frames with the same keys move as far as one frame of the summed dt |
| Collision.MinCoord | collision.py:13-15 | the minimum is at most every point's coordinate and is attained by some point |
| Collision.MaxCoord | collision.py:17-19 | the maximum is at least every point's coordinate and is attained by some point |
| Collision.FitBox | collision.py:13-22 | the box is well formed, holds every point, and each bound is attained by some point |
| Collision.NewBoxCollider | collision.py:7-22 | a corner pair is stored unchanged; a list gives an error exactly when it is empty, and the error is EmptySequence; a non-empty list gives a well-formed box that holds every point and whose bounds are attained |
| Collision.AttainedIsSmallestOn | collision.py:13-19 | on one axis, bounds attained by points lie within any box holding all the points |
| Collision.FittedBoxIsSmallest | collision.py:13-22 | the box fitted around a non-empty list lies within any box holding every point |
| Collision.CollideBox | collision.py:24-32 | the six closed comparisons of `collide_box`; its meaning is proved by CollideBoxMeansCommonPoint |
| Collision.CollideBoxSymmetric | collision.py:24-32 | `A.collide_box(B) == B.collide_box(A)` |
| Collision.CollideBoxSelf | collision.py:24-32 | a well-formed box collides with itself |
| Collision.CollideBoxMeansCommonPoint | collision.py:24-32 | two well-formed boxes collide exactly when some point lies in both |
| Collision.CollideBoxTouching | collision.py:24-32 | boxes that only share the plane a.max.x = b.min.x, and overlap on y and z, collide both ways |
| Collision.Clamp | collision.py:58-60 | for lo ≤ hi the clamped value lies in [lo, hi], and a value already in [lo, hi] is unchanged |
| Collision.ClosestPoint | collision.py:58-60 | the clamped point lies in a well-formed box, and a centre inside the box is its own closest point |
| Collision.ClampIsNearest | collision.py:58-60 | no coordinate of [lo, hi] is closer to v than the clamped one |
| Collision.ClosestPointIsNearest | collision.py:57-62 | no point of the box is closer to the centre than the clamped point |
| Collision.GetSquaredDistance | collision.py:57-62 | the squared distance is never negative |
| Collision.DistanceZeroIffInside | collision.py:57-62 | for a well-formed box the distance is zero exactly when the sphere's centre is inside the box |
| Collision.BoxCollideSphere | collision.py:34-35 | `get_distance(other, self) < other.radius`, as the squared comparison SqrtLess; its meaning is proved by SphereBoxMeansCommonPoint via BoxSphereAgree |
| Collision.SphereCollideBox | collision.py:45-46 | `get_distance(self, other) < self.radius`, as the squared comparison SqrtLess; SphereBoxMeansCommonPoint proves it holds exactly when some box point lies strictly inside the sphere |
| Collision.BoxSphereAgree | collision.py:34-35 | `box.collide_sphere(s)` equals `s.collide_box(box)` |
| Collision.CentreInsideCollides | collision.py:34-35 | a sphere of positive radius whose centre is inside the box collides with it, from either side |
| Collision.SphereBoxMeansCommonPoint | collision.py:45-46 | a sphere collides with a well-formed box exactly when some point of the box lies strictly inside the sphere |
| Collision.SphereCollideSphere | collision.py:48-54 | as written, every call fails with a missing attribute (`self.center.radius`) |
| Collision.SphereCollideSphereIntended | collision.py:48-54 | the corrected test: centre distance below the sum of the radii, as the squared comparison SqrtLess |
| Collision.SphereCollideSphereRaises | collision.py:48-54 | two concentric unit spheres: the code as written raises, and the intended test says they collide |
| Collision.SphereCollideSphereIntendedSymmetric | collision.py:48-54 | the intended sphere/sphere test is symmetric |
| Utils.CrossingOfLines | utils.py:9-23 | parallel segments give None; a returned alpha lies strictly in (0, 1), and so does beta = c'/b; a returned alpha is the crossing parameter, so p + alpha·(re − p) = c + beta·(d − c) for some beta strictly in (0, 1) |
| Utils.AcceptedMeansCrossing | utils.py:10-23 | parameters that pass the guards locate a crossing strictly inside both segments |
| Utils.CrossingPoint | utils.py:10-18 | for non-parallel directions, alpha = a/b and beta = c'/b solve the crossing equation |
| Utils.ParametersUnique | utils.py:10-18 | the crossing equation has no other solution |
| Utils.CrossingEquation | utils.py:10-18 | the two parametrised points are equal exactly when alpha·(re − p) − beta·(d − c) = c − p |
| Utils.CrossingFound | utils.py:9-23 | non-parallel segments that cross strictly inside both return the crossing parameter |
| Utils.CrossingOfLinesCharacterised | utils.py:9-23 | the result is Some(alpha) exactly when the segments are not parallel and cross strictly inside both at alpha |
| Utils.EndpointRejected | utils.py:20-21 | lines that meet where either segment ends (alpha or beta equal to 0 or 1) give None |
| Utils.CrossingOnLineCD | utils.py:10-18 | if alpha is returned, the point p + alpha·(re − p) lies on the line through c and d |
| Utils.Products | utils.py:10-12 | the three products are the cross products (d − c)×(c − p), (d − c)×(re − p) and (re − p)×(c − p); the third reads the parameter c, not the rebound name |
| Geometry.SqrtLess | collision.py:35 | `sqrt(d2) < r` without the root: r is positive and d2 < r·r; SqrtLessMeansRootLess proves the two agree |
| Geometry.SqrtLessMeansRootLess | collision.py:35 | the squared comparison agrees with `sqrt(d2) < r` for any non-negative root |

## Left out

- `Camera.rotate_point` (main.py:67-72) is not modelled. It applies `cos`/`sin` to raw coordinates and takes a square root. `Render.Camera.GetPoint` takes its output as a parameter.
- `render_face`, `render_cuboid`, `pygame.draw.polygon`, the pygame surface, the event loop, key polling, the clock and `main()` (main.py:74-81, main.py:111-142) are drawing and I/O. The camera has no `screen` field, and `try_move` receives the six keys it reads as a `Keys` value.
- `Face.__str__` and `Face.__repr__` (main.py:18-22) only format text.
- `degrees_to_radians` (utils.py:5-6) depends on the float `math.pi`.
- `math.sqrt` is not modelled. `get_distance` becomes `Collision.GetSquaredDistance`, which returns the squared distance. The two box/sphere tests, `Collision.BoxCollideSphere` and `Collision.SphereCollideBox`, compare it through `Geometry.SqrtLess`.
- Collision.GetSquaredDistance: states the square of `get_distance`, not the distance itself, because the square root is not modelled.
- IEEE float rounding is not modelled; all arithmetic is exact. For example, W and S pressed together cancel exactly here, which floats need not do.
- Render.Camera.TryMove: the camera's position is a value field. In the source, `position` is the caller's `Vector3` and `+=` updates it in place, so the caller's vector moves too. That aliasing is not modelled.
- `BoxCollider.boundary` and `SphereCollider.center` are values here. In the source, collision.py:11 stores the caller's tuple and collision.py:42 the caller's `Vector3`, so those objects stay shared with the caller. Nothing in the modelled code mutates them, but that sharing is not modelled.
- `BoxCollider.__init__` takes "a tuple or a list" as a union of two cases (`Boundary`). Python's dynamic type test has no counterpart beyond that.
- `SphereCollider.__init__` only stores its two arguments, so it is the datatype constructor `SphereCollider(center, radius)`.
- `Face.__init__` reads only the first three components of each coordinate tuple. The model takes `Vec3` values, so longer tuples are not represented.
- Depth sorting, clipping at the screen edge, on-screen flags, an epsilon in the divide and a field-of-view focal length are not modelled. They are design goals of the renderer that this code does not implement.

## Findings

| source | as written | input that shows it | evidently intended | confidence | as-written member | corrected member |
|---|---|---|---|---|---|---|
| collision.py:54 | `distance < self.center.radius + sphere.center.radius` looks up `radius` on a `Vector3`, so every call raises AttributeError | two unit spheres centred at the origin | `distance < self.radius + sphere.radius` | high (not executed) | Collision.SphereCollideSphere, Collision.SphereCollideSphereRaises | Collision.SphereCollideSphereIntended, Collision.SphereCollideSphereIntendedSymmetric |
