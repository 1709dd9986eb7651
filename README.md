# tic-tac-woah geometry and colour kernel, in Dafny

This project models the small analytic-geometry and colour kernel of the tic-tac-woah WebGL
game, and proves properties of that model. All numbers are exact `real`s, and vectors are
records of three or four reals. A JavaScript `null` or `undefined` result is an `Option`.

- `vectors.dfy` (module `Vectors`): the part of gl-matrix's `vec3`/`vec4` the kernel calls,
  with textbook definitions (add, subtract, scale, dot, cross, squared length). gl-matrix
  itself is not part of this model.
- `math_stuff.dfy` (module `MathStuff`): `avgArray`, `wAvgArray` (a method with its
  accumulating loop, proved against a specification function), `avgPoints`, `unNoise`, and
  the `X`, `Y` and `Z` directions.
- `color.dfy` (module `Colors`): the `Color` value and its getters; `mixColors`,
  `lerpColors`, `applyOpacity` and `setOpacity`, static and instance; the `COLORS` table;
  `getColor`; `getColorBuffer`.
- `enumeration.dfy` (module `Enumeration`): the three nested loops of
  `Polygon.allTriangles`, generic in the vertex type and in the function applied to each
  triple. `Pushed(vs, make, i, j, k)` is what the loops have pushed when their counters are
  `(i, j, k)`. Lemmas prove what it contains and how long it is.
- `shapez.dfy` (module `Shapes`):
  - planes through three points or through a point and a normal, the ray test and the
    projection onto a plane;
  - triangles, with the `plane`, `centroid` and axis-extreme vertex getters;
  - `DrawnShape`, a class whose colour `setColor` changes in place;
  - `Polygon`, a class whose `allTriangles` is the three imperative loops, each proved
    against `Pushed`, and whose `fromPoints` rejects collinear triples.
- `camera.dfy` (module `Cameras`): the camera class with its fields and `setMatrixFn`, the
  mouse-to-NDC mapping (NDC: normalised device coordinates) and its inverse, and the near and
  far clip points of the raycast.

## Model

| member | source | states |
|---|---|---|
| Vectors.SqLenZero | shapez.js:24 | a squared length is never negative, and it is zero exactly for the zero vector; this is why the model's test `norm == ORIGIN` is the source's `sqLen(norm) === 0` |
| Vectors.CrossOrthogonal | shapez.js:22-23 | the cross product of the two edge vectors is orthogonal to both |
| MathStuff.AvgArray | math_stuff.js:1-5 | 0 for an empty array; otherwise the result times the length is the sum |
| MathStuff.AvgArrayBetween | math_stuff.js:3-4 | the average of a non-empty array is at least one element and at most another |
| MathStuff.AvgArrayConst | math_stuff.js:1-5 | averaging copies of one value gives that value |
| MathStuff.WeightedAverage | math_stuff.js:6-20 | a nonzero result needs equal, non-empty lengths and a nonzero weight sum; the result is then the weighted sum over the weight sum |
| MathStuff.WAvgArray | math_stuff.js:6-20 | the loop that accumulates `arrSum` and `weightSum`, with its early returns, computes `WeightedAverage` |
| MathStuff.WeightedAverageEqualWeights | math_stuff.js:10-19 | with equal nonzero weights, `wAvgArray` equals `avgArray` of the same values |
| MathStuff.AvgPoints | math_stuff.js:41-47 | each coordinate is `avgArray` of that coordinate of the points, and no points give the origin |
| MathStuff.AvgPointsSingle | math_stuff.js:41-47 | the average of one point is that point |
| MathStuff.AvgPointsOfThree | math_stuff.js:41-47 | the average of three points is the coordinate sums divided by 3 |
| MathStuff.UnNoise | math_stuff.js:69-74 | same length; each entry is 0 or its input; an entry is kept exactly when its magnitude exceeds `1e-4` or it is 0; no nonzero result is within `1e-4` of 0 |
| MathStuff.UnNoiseIdempotent | math_stuff.js:69-74 | cleaning twice is cleaning once |
| Colors.NewColor | color.js:4-11 | the r, g, b, a getters read back the four constructor arguments |
| Colors.Channel | color.js:24-27 | `colors.map(clr => clr.r)` and its siblings: channel `ch` of each colour, in order |
| Colors.MixColors | color.js:22-29 | no colours give transparent black; otherwise each channel times the count is that channel's sum |
| Colors.MixIdentical | color.js:22-29 | mixing copies of one colour, in particular one colour alone, gives that colour |
| Colors.MixBetween | color.js:22-29 | each channel of a mix lies between that channel's least and greatest value |
| Colors.PairAverage | color.js:39-41 | `wAvgArray([x, y], [w, 1 - w])` is `w x + (1 - w) y` for every `w`, since the weights sum to 1 |
| Colors.LerpColors | color.js:38-46 | as written, each channel is `t c1 + (1 - t) c2` |
| Colors.Color.LerpWith | color.js:78 | the instance `lerpColors`, with this colour as `c1`, has the same channels |
| Colors.LerpColorsEnds | color.js:38-46 | as written, `t = 1` gives `c1` and `t = 0` gives `c2` |
| Colors.LerpColorsFavoursSecondAtZero | color.js:35-45 | as written, lerping black to white at `t = 0` gives white; the documented weighting gives black |
| Colors.LerpColorsIntended | color.js:35 | the documented weighting: each channel is `(1 - t) c1 + t c2` |
| Colors.LerpIntendedEnds | color.js:35 | the documented weighting gives `c1` at `t = 0` and `c2` at `t = 1` |
| Colors.LerpMirror | color.js:35-45 | the written weighting is the documented one with the two colours exchanged |
| Colors.ApplyOpacity | color.js:59-61 | r, g, b are kept; alpha is `min(1, clr.a * a)`, so at most 1 |
| Colors.ApplyOpacityOne | color.js:59-61 | opacity 1 leaves a colour whose alpha is at most 1 unchanged |
| Colors.SetOpacity | color.js:69-71 | as written, r, g, b are kept and alpha becomes the green channel, whatever `a` is |
| Colors.SetOpacityIntended | color.js:63-68 | as documented, r, g, b are kept and alpha becomes `a` |
| Colors.SetOpacityAgreesOnlyOnGreen | color.js:69-71 | the written and the documented `setOpacity` agree exactly when `a` equals the green channel |
| Colors.SetOpacityDropsAlpha | color.js:69-71 | setting opaque red's opacity to 0.5 gives alpha 0 as written and 0.5 as documented |
| Colors.SetOpacityIntendedOverwrites | color.js:63-68 | with the documented `setOpacity`, the last opacity set wins, and setting the current opacity changes nothing |
| Colors.Color.WithOpacity | color.js:82 | the instance `setOpacity` keeps r, g, b and puts green in alpha, like the static one |
| Colors.Color.WithAppliedOpacity | color.js:80 | the instance `applyOpacity` as written forwards to `setOpacity`: alpha becomes green and `a` is ignored |
| Colors.Color.WithAppliedOpacityIntended | color.js:79 | the instance `applyOpacity` as its `@see` promises: alpha `min(1, a * alpha)` |
| Colors.InstanceApplyOpacityDiffers | color.js:59-80 | on opaque red with opacity 0.5 the static form gives alpha 0.5 and the instance form gives alpha 0 |
| Colors.Lookup | color.js:85-106 | among the table's own entries, `COLORS[name]` is present exactly for the names of `COLOR_ARRAYS`, with the same four channels; any other name, such as `GREY`, gives `undefined` |
| Colors.GreyIsMissing | color.js:85-106 | the table has no `GREY`; `GRAY` is (0.5, 0.5, 0.5, 1); `WHITE`, `BLACK` and `RED` are as listed |
| Colors.GetColor | color.js:119-126 | each channel is its 0..255 argument divided by 255 |
| Colors.GetColorDefaultOpaque | color.js:119 | without an alpha argument the colour is opaque |
| Colors.GetColorInUnitRange | color.js:119-126 | channels given in 0..255 come out in 0..1 |
| Colors.ColorBuffer | color.js:134-136 | four entries per colour; entry `k` is channel `k % 4` of colour `k / 4` |
| Enumeration.PushedSound | shapez.js:183-191 | every entry pushed so far is `make` of a triple `a < b < c` that the loops have already visited |
| Enumeration.PushedHas | shapez.js:183-191 | the entry of every triple the loops have already visited has been pushed |
| Enumeration.TriplesMembers | shapez.js:182-192 | the finished list holds exactly the entries of the index triples `a < b < c` |
| Enumeration.PushedLength | shapez.js:183-191 | six times the length so far is the closed form for the number of triples already visited |
| Enumeration.TriplesCount | shapez.js:182-192 | the finished list has `n (n - 1) (n - 2) / 6` entries |
| Enumeration.PushedPrefix | shapez.js:183-191 | what the loops have pushed by an earlier loop position is a prefix of what they have pushed by a later one |
| Enumeration.TriplesAt | shapez.js:182-192 | the entry for `a < b < c` sits right after everything the loops pushed before reaching `(a, b, c)`, so the list is in loop order |
| Enumeration.RowStep | shapez.js:186-188 | one pass of the innermost loop appends the entry of `(i, j, k)` |
| Enumeration.NextRow | shapez.js:185-186 | a finished row is where the next row of the middle loop starts |
| Enumeration.NextRound | shapez.js:184-185 | a finished round is where the next round of the outer loop starts |
| Enumeration.FirstRound | shapez.js:183-184 | nothing has been pushed before the loops start |
| Shapes.QuotientSign | shapez.js:68-69 | the quotient times the divisor is the dividend, and the quotient is negative exactly when their product is |
| Shapes.Plane.FromPoints | shapez.js:14-35 | `null` exactly for collinear points; otherwise the anchor is the average of the points, the normal is nonzero and orthogonal to both edge vectors, and all three points lie on the plane |
| Shapes.Plane.FromNormalAndPoint | shapez.js:43-54 | `null` exactly for the zero normal; otherwise the normal is kept and the point is the anchor, and it lies on the plane |
| Shapes.ThreePointsOnPlane | shapez.js:29-33 | the average of three points lies on every plane through them |
| Shapes.CheckRayIntersect | shapez.js:62-74 | the formula as written (the TypeError at line 63 is not modelled): `null` exactly when `dir . normal` is 0 or `t = (origin . c) / (dir . normal)` is negative; otherwise `origin + t dir` |
| Shapes.Plane.IntersectRay | shapez.js:56-61 | as documented: `null` for a parallel ray or one pointing away; otherwise a point of the ray that lies on the plane |
| Shapes.CheckRayIntersectMissesPlane | shapez.js:62-74 | with the normal (0, 0, 1) and centroid (0, 0, 0) of a triangle in z = 0, a ray from (0, 0, 5) straight down gets its own origin back, which is off the plane; the documented test gives the origin of space |
| Shapes.ProjectPointOnPlane | shapez.js:110-120 | the displacement is parallel to the normal, and the offset along the normal is scaled by `1 - |normal|^2` |
| Shapes.ProjectFixesPlanePoints | shapez.js:110-120 | a point on the plane is its own projection |
| Shapes.ProjectOntoUnitPlane | shapez.js:110-120 | with a unit normal the projection lies on the plane, and projecting again changes nothing |
| Shapes.MaxOf | shapez.js:158 | `Math.max` of a non-empty list is one of its elements and at least every element |
| Shapes.IndexOf | shapez.js:158 | `indexOf` is -1 exactly when the value is absent; otherwise it is the first position holding it |
| Shapes.Triangle.Centroid | shapez.js:143-145 | the centroid is the coordinate sums of the vertices divided by 3 |
| Shapes.Triangle.SupportingPlane | shapez.js:147-149 | `null` exactly for collinear vertices; otherwise the plane is anchored at the centroid and holds the three vertices |
| Shapes.Triangle.FromPoints | shapez.js:137-141 | `null` exactly when the three points are collinear; otherwise a triangle on those points, in order |
| Shapes.Triangle.ClosestToDir | shapez.js:155-159 | a vertex maximising `|v . dir|`, and the first one that does |
| Shapes.Triangle.FirstAlongAxis | shapez.js:155-159 | along an axis direction, the first vertex with the largest projection is the first with the largest absolute coordinate |
| Shapes.Triangle.EdgeVectorX | shapez.js:151 | a vertex with the largest absolute x coordinate, and the first such in `v1, v2, v3` order, as `indexOf(Math.max(...))` picks it (shapez.js:158) |
| Shapes.Triangle.EdgeVectorY | shapez.js:152 | a vertex with the largest absolute y coordinate, and the first such in `v1, v2, v3` order, as `indexOf(Math.max(...))` picks it (shapez.js:158) |
| Shapes.Triangle.EdgeVectorZ | shapez.js:153 | a vertex with the largest absolute z coordinate, and the first such in `v1, v2, v3` order, as `indexOf(Math.max(...))` picks it (shapez.js:158) |
| Shapes.FlattenVertices | shapez.js:96 | three entries per vertex; entry `k` is coordinate `k % 3` of vertex `k / 3` |
| Shapes.DrawnShape.constructor | shapez.js:82-85 | as written: the vertices are the points, and the colour `COLORS.GREY` is `undefined` |
| Shapes.DrawnShape.WithGray | shapez.js:82-85 | the constructor with the default colour it evidently means, `COLORS.GRAY` |
| Shapes.DrawnShape.SetColor | shapez.js:91-93 | the colour becomes `clr`, and the vertices do not change |
| Shapes.DrawnShape.GetVertexBuffer | shapez.js:95-97 | `3 n` entries; entry `3 i + c` is coordinate `c` of vertex `i` |
| Shapes.DrawnShape.GetColorBuffer | shapez.js:99-101 | as written: a single `undefined` entry, whatever the vertices, so never `4 n` entries |
| Shapes.DrawnShape.GetColorBufferIntended | shapez.js:99-101 | the shape's colour once per vertex: `4 n` entries with entry `k` equal to channel `k % 4`; `undefined` exactly while the colour is |
| Shapes.ColorBufferOfNewShape | shapez.js:82-101 | a new shape as written has a one-entry color buffer; with the grey default it has `4 n` entries |
| Shapes.AllTrisMembers | shapez.js:182-192 | `allTriangles` holds exactly the `Triangle.fromPoints` results of the vertex triples `a < b < c` |
| Shapes.CollinearTripleFound | shapez.js:172-192 | `allTriangles` contains `null` exactly when some triple of vertices is collinear |
| Shapes.AllTrisCount | shapez.js:182-192 | `allTriangles` has `n (n - 1) (n - 2) / 6` entries |
| Shapes.AllTrisAt | shapez.js:182-192 | the triangle on vertices `a < b < c` is at index `SixTimesBefore(n, a, b, c) / 6`, the number of index triples before `(a, b, c)` in lexicographic order |
| Shapes.PushRow | shapez.js:186-188 | the innermost loop takes the list from the start of row `(i, j)` to its end |
| Shapes.PushRows | shapez.js:185-189 | the middle loop takes the list from the start of round `i` to its end |
| Shapes.Polygon.constructor | shapez.js:163-165 | the polygon's shape has the given vertices and, as for every `DrawnShape`, the colour `undefined` |
| Shapes.Polygon.Centroid | shapez.js:178-180 | no vertices give the origin; otherwise each coordinate times the count is that coordinate's sum |
| Shapes.Polygon.AllTriangles | shapez.js:182-192 | the three nested loops build exactly the list `Triples` describes |
| Shapes.Polygon.FromPoints | shapez.js:172-176 | `null` exactly when some three vertices are collinear, so never with fewer than three; otherwise a polygon on the points, with the colour `undefined` |
| Cameras.ScreenToNdc | camera.js:55-56 | the NDC point maps back to the mouse: `(x + 1) w = 2 mx` and `(1 - y) h = 2 my` |
| Cameras.NdcToScreen | camera.js:55-56 | the inverse mapping, from NDC back to canvas pixels |
| Cameras.NdcRoundTrip | camera.js:55-56 | going to NDC and back, or back and forth, returns the starting point |
| Cameras.NdcCorners | camera.js:55-56 | the top-left corner maps to (-1, 1), the bottom-right corner to (1, -1), the centre to (0, 0), and the other two corners to theirs |
| Cameras.NdcInRange | camera.js:55-56 | a mouse position lies on the canvas exactly when both NDC coordinates lie in [-1, 1] |
| Cameras.NdcMonotone | camera.js:55-56 | NDC x grows with the mouse's x; NDC y shrinks as the mouse moves down |
| Cameras.Camera.constructor | camera.js:10-22 | the fields take the arguments, `aspect * height = width`, the position defaults to the origin, and `matrixFn` is the identity |
| Cameras.Camera.SetMatrixFn | camera.js:45-47 | only `matrixFn` changes |
| Cameras.Camera.ClipPoints | camera.js:55-59 | the near and far clip points lie over the mouse's NDC point, with `z` -1 and 1 and `w` 1 |

## Left out

- Floating point: every number is an exact real, so each `=== 0` test is an exact equality.
- Colors.Lookup: models only the own entries of `COLORS`. Names that a plain JavaScript object inherits from `Object.prototype` (`toString`, `constructor`, `hasOwnProperty`, ...) resolve to functions in the source, but give `None` here. The only name the core looks up is `GREY` (shapez.js:84), which is not one of them.
- `vec3.normalize` and square roots: a plane keeps its normal as computed, without normalising it. `distanceToPlane` (math_stuff.js:28-35) is not part of this model.
- Shapes.Plane.FromPoints: tests `norm == ORIGIN` where the source tests `sqLen(norm) === 0`; `Vectors.SqLenZero` proves the two tests agree.
- Shapes.CheckRayIntersect: as written, `this.plane` is `undefined` on a `Plane`, so reading `this.plane.normal` (shapez.js:63) throws a TypeError on every call. That TypeError is not modelled. The model is the formula the method would evaluate on an object with `plane` and `centroid` fields, such as a triangle, taken on an explicit normal and point `c`.
- Shapes.MaxOf: requires a non-empty list. `Math.max()` of nothing (`-Infinity`) is never reached, because a triangle always has three vertices.
- `Triangle` extends `DrawnShape` in the source. Here it is a value with three vertices, and its inherited colour and buffers are not modelled.
- `Polygon` extends `DrawnShape` in the source. Here it holds a `DrawnShape`, built by the as-written constructor, so its colour is `undefined`.
- Shapes.Polygon.AllTriangles: the middle and innermost loops are the separate methods `PushRows` and `PushRow`. The list they build is described once, generically, in `Enumeration`.
- Of `DIRECTIONS`, only `X`, `Y` and `Z` are modelled; the other seven directions are unused by the core.
- Colors.LerpColorsIntended: applies the written weights `[t, 1 - t]` to `[c2, c1]`. This equals the documented `(1 - t) c1 + t c2` channel by channel.
- Colors.Color: the `rgba` array always has four channels; the constructor is never called with fewer.
- The camera's WebGL context is replaced by the canvas width and height it supplies.
- Cameras.Camera.constructor: requires a nonzero canvas height. With height 0 the source computes an infinite or NaN aspect, which reals cannot represent.
- Cameras.ScreenToNdc: requires a nonzero canvas width and height, for the same reason.
- Cameras.Camera.ClipPoints: requires a nonzero canvas width and height, for the same reason.
- `matrixFn` mutates the view matrix in place in the source. Here it is a function from matrix to matrix.
- `projectionMatrix`, `viewMatrix`, and the matrix inversion, transformation and normalisation in `getRaycastFromMouse` (camera.js:25-42, 61-96) are not part of this model: they are calls into gl-matrix.
- init-buffers.js, draw.js, shaders.js and input.js are not part of this model: they are WebGL, DOM and animation-loop I/O.

## Findings

| source | as written | input that shows it | evidently intended | confidence | as-written member | corrected member |
|---|---|---|---|---|---|---|
| shapez.js:62-74 | line 63 reads `this.plane.normal`, which is `undefined.normal` on a `Plane`, so every call throws a TypeError; and the formula it would evaluate on an object with `plane` and `centroid` fields (a triangle), `t = (origin . centroid) / (dir . normal)`, does not measure the origin's offset from the plane | any call throws; for the formula, a triangle in z = 0 with centroid (0, 0, 0) and a ray from (0, 0, 5) along (0, 0, -1): the answer is (0, 0, 5), off the plane | `t = ((anchor - origin) . normal) / (dir . normal)`, which gives (0, 0, 0) | not executed | Shapes.CheckRayIntersect, shown by Shapes.CheckRayIntersectMissesPlane | Shapes.Plane.IntersectRay |
| color.js:69-71 | `new Color(clr.r, clr.g, clr.b, clr.g, a)`: alpha becomes green, and `a` is ignored | opaque red with `a = 0.5` gets alpha 0 | alpha `a` | not executed | Colors.SetOpacity, shown by Colors.SetOpacityDropsAlpha | Colors.SetOpacityIntended |
| color.js:79-80 | the instance `applyOpacity` calls `Color.setOpacity` | `RED.applyOpacity(0.5)` has alpha 0; `Color.applyOpacity(RED, 0.5)` has alpha 0.5 | call `Color.applyOpacity` | not executed | Colors.Color.WithAppliedOpacity, shown by Colors.InstanceApplyOpacityDiffers | Colors.Color.WithAppliedOpacityIntended |
| color.js:35-45 | the weights `[t, 1 - t]` on `[c1, c2]` favour `c2` at low `t` and `c1` at high `t` | `lerpColors(BLACK, WHITE, 0)` is white | lower `t` favours `c1`: `(1 - t) c1 + t c2` | not executed | Colors.LerpColors, shown by Colors.LerpColorsFavoursSecondAtZero | Colors.LerpColorsIntended |
| shapez.js:84 | the default colour is `COLORS.GREY`, but the table spells it `GRAY`, so the colour is `undefined` | any new shape | `COLORS.GRAY` | not executed | Shapes.DrawnShape.constructor, shown by Colors.GreyIsMissing | Shapes.DrawnShape.WithGray |
| shapez.js:99-101 | one array is passed to the rest-parameter `getColorBuffer` (color.js:134), whose single "colour" has no `rgba` | any shape: the buffer is `[undefined]` | spread the colours, giving four channels per vertex | not executed | Shapes.DrawnShape.GetColorBuffer, shown by Shapes.ColorBufferOfNewShape | Shapes.DrawnShape.GetColorBufferIntended |
