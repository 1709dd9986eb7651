/**
  The shapes of `shapez.js`: planes through three points or through a point with a normal,
  the ray test, the projection onto a plane, triangles, drawn shapes with a mutable colour,
  and polygons with their enumeration of all vertex triples.
 */
module Shapes {
  import opened Wrappers
  import opened Vectors
  import opened MathStuff
  import opened Colors
  import opened Enumeration

  /** Three points lie on one line exactly when the cross product of their edge vectors vanishes. */
  predicate Collinear(p1: Vec3, p2: Vec3, p3: Vec3) {
    Cross(Sub(p2, p1), Sub(p3, p1)) == ORIGIN
  }

  /** `t * d == o` determines the quotient, whose sign is the sign of the product. */
  lemma QuotientSign(o: real, d: real)
    requires d != 0.0
    ensures (o / d) * d == o
    ensures o / d < 0.0 <==> o * d < 0.0
  {
    if d > 0.0 {
      if o / d < 0.0 {
        assert o * d == (o / d) * (d * d);
      }
    } else {
      if o / d < 0.0 {
        assert o * d == (o / d) * (d * d);
      }
    }
  }

  /**
    A plane, as a normal and an anchor point on it. The normal is kept as computed;
    the unit-length normalisation of the source only rescales it and is not modelled.
   */
  datatype Plane = Plane(normal: Vec3, anchor: Vec3) {

    /** `p` lies on the plane: its offset from the anchor is orthogonal to the normal. */
    predicate Contains(p: Vec3) {
      Dot(Sub(p, anchor), normal) == 0.0
    }

    /**
      `Plane.fromPoints`: `null` exactly for collinear points; otherwise the normal is the cross
      product of the two edge vectors and the anchor is the average of the three points.
     */
    static function FromPoints(p1: Vec3, p2: Vec3, p3: Vec3): (r: Option<Plane>)
      ensures r.None? <==> Collinear(p1, p2, p3)
      ensures r.Some? ==> r.value.anchor
                          == Vec3((p1.x + p2.x + p3.x) / 3.0, (p1.y + p2.y + p3.y) / 3.0, (p1.z + p2.z + p3.z) / 3.0)
      ensures r.Some? ==> r.value.normal != ORIGIN
                          && Dot(r.value.normal, Sub(p2, p1)) == 0.0 && Dot(r.value.normal, Sub(p3, p1)) == 0.0
      ensures r.Some? ==> r.value.Contains(p1) && r.value.Contains(p2) && r.value.Contains(p3)
    {
      var norm := Cross(Sub(p2, p1), Sub(p3, p1));
      // the source tests `sqLen(norm) === 0`, which holds exactly for the zero vector (SqLenZero)
      if norm == ORIGIN then None
      else
        AvgPointsOfThree(p1, p2, p3);
        CrossOrthogonal(Sub(p2, p1), Sub(p3, p1));
        ThreePointsOnPlane(p1, p2, p3, norm);
        Some(Plane(norm, AvgPoints([p1, p2, p3])))
    }

    /** `Plane.fromNormalAndPoint`: `null` exactly for the zero normal; the point becomes the anchor. */
    static function FromNormalAndPoint(normal: Vec3, point: Vec3): (r: Option<Plane>)
      ensures r.None? <==> normal == ORIGIN
      ensures r.Some? ==> r.value.anchor == point && r.value.normal == normal && r.value.Contains(point)
    {
      // the source tests `sqLen(normal) === 0`, which holds exactly for the zero vector (SqLenZero)
      if normal == ORIGIN then None else Some(Plane(normal, point))
    }

    /**
      The ray test as the documentation describes it: the point where the ray from `origin`
      along `dir` meets this plane, or `null` for a ray parallel to the plane or pointing away.
     */
    function IntersectRay(origin: Vec3, dir: Vec3): (r: Option<Vec3>)
      ensures r.None? <==> Dot(dir, normal) == 0.0 || Dot(Sub(anchor, origin), normal) * Dot(dir, normal) < 0.0
      ensures r.Some? ==> Contains(r.value)
      ensures r.Some? ==> exists t :: t >= 0.0 && r.value == Add(origin, Scale(dir, t))
    {
      var directionDot := Dot(dir, normal);
      if directionDot == 0.0 then None
      else
        var offsetDot := Dot(Sub(anchor, origin), normal);
        var t := offsetDot / directionDot;
        QuotientSign(offsetDot, directionDot);
        if t < 0.0 then None
        else
          var p := Add(origin, Scale(dir, t));
          DotSubScale(p, anchor, normal, t);
          DotSubScale(origin, dir, normal, t);
          DotSubScale(anchor, origin, normal, t);
          assert Dot(Sub(p, anchor), normal) == Dot(origin, normal) + t * directionDot - Dot(anchor, normal);
          Some(p)
    }
  }

  /** The average of three points lies on every plane through them. */
  lemma ThreePointsOnPlane(p1: Vec3, p2: Vec3, p3: Vec3, n: Vec3)
    requires Dot(n, Sub(p2, p1)) == 0.0 && Dot(n, Sub(p3, p1)) == 0.0
    ensures var c := AvgPoints([p1, p2, p3]);
      Dot(Sub(p1, c), n) == 0.0 && Dot(Sub(p2, c), n) == 0.0 && Dot(Sub(p3, c), n) == 0.0
  {
    AvgPointsOfThree(p1, p2, p3);
    var c := AvgPoints([p1, p2, p3]);
    var d1, d2, d3 := Dot(p1, n), Dot(p2, n), Dot(p3, n);
    DotSubScale(p2, p1, n, 0.0);
    DotSubScale(p3, p1, n, 0.0);
    assert Dot(n, Sub(p2, p1)) == Dot(Sub(p2, p1), n);
    assert Dot(n, Sub(p3, p1)) == Dot(Sub(p3, p1), n);
    assert d2 == d1 && d3 == d1;
    assert Dot(c, n) == (d1 + d2 + d3) / 3.0;
    DotSubScale(p1, c, n, 0.0);
    DotSubScale(p2, c, n, 0.0);
    DotSubScale(p3, c, n, 0.0);
  }

  /**
    The formula of `Plane.checkRayIntersect`, `t = (origin . c) / (dir . normal)`. As written,
    the method reads `this.plane.normal` on a plane, which has no `plane` field, so every call
    fails with a TypeError before `t` is computed; that failure is not modelled. The formula is
    what the method would compute on an object that has a `plane` and a `centroid`, such as a
    triangle, and is modelled on an explicit `normal` and point `c`.
   */
  function CheckRayIntersect(normal: Vec3, c: Vec3, origin: Vec3, dir: Vec3): (r: Option<Vec3>)
    ensures r.None? <==> Dot(dir, normal) == 0.0 || Dot(origin, c) * Dot(dir, normal) < 0.0
    ensures r.Some? ==> exists t :: t >= 0.0 && t * Dot(dir, normal) == Dot(origin, c)
                                 && r.value == Add(origin, Scale(dir, t))
  {
    var directionDot := Dot(dir, normal);
    if directionDot == 0.0 then None
    else
      var originDot := Dot(origin, c);
      var t := originDot / directionDot;
      QuotientSign(originDot, directionDot);
      if t < 0.0 then None else Some(Add(origin, Scale(dir, t)))
  }

  /**
    A ray from (0, 0, 5) straight down onto a triangle in the plane z = 0 whose centroid is the
    origin (normal (0, 0, 1), centroid (0, 0, 0)): the formula answers with the ray's own
    origin, which is not on the plane; the corrected test answers with the origin of space,
    where the ray does meet the plane.
   */
  lemma CheckRayIntersectMissesPlane()
    ensures CheckRayIntersect(Z, ORIGIN, Vec3(0.0, 0.0, 5.0), Vec3(0.0, 0.0, -1.0)) == Some(Vec3(0.0, 0.0, 5.0))
    ensures !Plane(Z, ORIGIN).Contains(Vec3(0.0, 0.0, 5.0))
    ensures Plane(Z, ORIGIN).IntersectRay(Vec3(0.0, 0.0, 5.0), Vec3(0.0, 0.0, -1.0)) == Some(ORIGIN)
  {
    DownwardRayAsWritten(Vec3(0.0, 0.0, 5.0), Vec3(0.0, 0.0, -1.0));
    DownwardRayIntended(Vec3(0.0, 0.0, 5.0), Vec3(0.0, 0.0, -1.0));
  }

  lemma DownwardRayAsWritten(origin: Vec3, dir: Vec3)
    requires origin == Vec3(0.0, 0.0, 5.0) && dir == Vec3(0.0, 0.0, -1.0)
    ensures CheckRayIntersect(Z, ORIGIN, origin, dir) == Some(origin)
  {
    assert Dot(dir, Z) == -1.0;
    assert Dot(origin, ORIGIN) / Dot(dir, Z) == 0.0;
    assert Add(origin, Scale(dir, Dot(origin, ORIGIN) / Dot(dir, Z))) == origin;
  }

  lemma DownwardRayIntended(origin: Vec3, dir: Vec3)
    requires origin == Vec3(0.0, 0.0, 5.0) && dir == Vec3(0.0, 0.0, -1.0)
    ensures !Plane(Z, ORIGIN).Contains(origin)
    ensures Plane(Z, ORIGIN).IntersectRay(origin, dir) == Some(ORIGIN)
  {
    assert Dot(Sub(origin, ORIGIN), Z) == 5.0;
    assert Dot(dir, Z) == -1.0;
    assert Dot(Sub(ORIGIN, origin), Z) == -5.0;
    assert Dot(Sub(ORIGIN, origin), Z) / Dot(dir, Z) == 5.0;
    assert Add(origin, Scale(dir, Dot(Sub(ORIGIN, origin), Z) / Dot(dir, Z))) == ORIGIN;
  }

  /**
    `projectPointOnPlane`: the point minus the normal scaled by its offset along the normal.
    The displacement is parallel to the normal, and the offset left over is the old one
    times `1 - |normal|^2` (zero for a unit normal).
   */
  function ProjectPointOnPlane(pnt: Vec3, plane: Plane): (q: Vec3)
    ensures Cross(Sub(pnt, q), plane.normal) == ORIGIN
    ensures Dot(Sub(q, plane.anchor), plane.normal)
         == Dot(Sub(pnt, plane.anchor), plane.normal) * (1.0 - Dot(plane.normal, plane.normal))
  {
    var dist := Dot(Sub(pnt, plane.anchor), plane.normal);
    var proj := Scale(plane.normal, dist);
    ProjectionOffset(pnt, plane.anchor, plane.normal, dist);
    Sub(pnt, proj)
  }

  /** The two facts about `p - d * n` that the projection relies on. */
  lemma ProjectionOffset(p: Vec3, a: Vec3, n: Vec3, d: real)
    requires d == Dot(Sub(p, a), n)
    ensures Cross(Sub(p, Sub(p, Scale(n, d))), n) == ORIGIN
    ensures Dot(Sub(Sub(p, Scale(n, d)), a), n) == d * (1.0 - Dot(n, n))
  {
    var x, s := Sub(p, a), Scale(n, d);
    assert Sub(p, Sub(p, s)) == s;
    CrossScaledSelf(n, d);
    assert Sub(Sub(p, s), a) == Sub(x, s);
    DotSubScale(x, s, n, d);
    assert Dot(Sub(x, s), n) == d - d * Dot(n, n);
  }

  /** A multiple of a vector is parallel to it. */
  lemma CrossScaledSelf(n: Vec3, d: real)
    ensures Cross(Scale(n, d), n) == ORIGIN
  {
  }

  /** A point already on the plane is its own projection, whatever the normal's length. */
  lemma ProjectFixesPlanePoints(p: Vec3, plane: Plane)
    requires plane.Contains(p)
    ensures ProjectPointOnPlane(p, plane) == p
  {
  }

  /** With a unit normal the projection lands on the plane, and projecting again changes nothing. */
  lemma ProjectOntoUnitPlane(p: Vec3, plane: Plane)
    requires Dot(plane.normal, plane.normal) == 1.0
    ensures plane.Contains(ProjectPointOnPlane(p, plane))
    ensures ProjectPointOnPlane(ProjectPointOnPlane(p, plane), plane) == ProjectPointOnPlane(p, plane)
  {
    ProjectFixesPlanePoints(ProjectPointOnPlane(p, plane), plane);
  }

  /** `Math.max(...xs)`, for the non-empty lists it is applied to here. */
  function MaxOf(xs: seq<real>): (m: real)
    requires |xs| > 0
    ensures m in xs
    ensures forall i :: 0 <= i < |xs| ==> xs[i] <= m
  {
    if |xs| == 1 then xs[0]
    else
      var m := MaxOf(xs[..|xs| - 1]);
      assert forall i :: 0 <= i < |xs| - 1 ==> xs[..|xs| - 1][i] == xs[i];
      if xs[|xs| - 1] > m then xs[|xs| - 1] else m
  }

  /** `xs.indexOf(x)`: the first position holding `x`, or -1 when there is none. */
  function IndexOf(xs: seq<real>, x: real): (k: int)
    ensures -1 <= k < |xs|
    ensures k == -1 <==> x !in xs
    ensures k >= 0 ==> xs[k] == x && forall i :: 0 <= i < k ==> xs[i] != x
  {
    if |xs| == 0 then -1
    else if xs[0] == x then 0
    else
      var k := IndexOf(xs[1..], x);
      assert x in xs[1..] ==> x in xs;
      assert x in xs ==> x in xs[1..];
      if k == -1 then -1 else k + 1
  }

  /** A triangle; its vertices are fixed when it is made. */
  datatype Triangle = Triangle(v1: Vec3, v2: Vec3, v3: Vec3) {

    function Vertices(): (vs: seq<Vec3>) {
      [v1, v2, v3]
    }

    /** The `centroid` getter: the average of the three vertices. */
    function Centroid(): (c: Vec3)
      ensures c == Vec3((v1.x + v2.x + v3.x) / 3.0, (v1.y + v2.y + v3.y) / 3.0, (v1.z + v2.z + v3.z) / 3.0)
    {
      AvgPointsOfThree(v1, v2, v3);
      AvgPoints(Vertices())
    }

    /** The `plane` getter: `null` exactly for a degenerate triangle, otherwise anchored at the centroid. */
    function SupportingPlane(): (p: Option<Plane>)
      ensures p.None? <==> Collinear(v1, v2, v3)
      ensures p.Some? ==> p.value.anchor == Centroid()
      ensures p.Some? ==> p.value.Contains(v1) && p.value.Contains(v2) && p.value.Contains(v3)
    {
      Plane.FromPoints(v1, v2, v3)
    }

    /** `Triangle.fromPoints`: the triangle on the three points, or `null` when they are collinear. */
    static function FromPoints(p1: Vec3, p2: Vec3, p3: Vec3): (r: Option<Triangle>)
      ensures r.None? <==> Collinear(p1, p2, p3)
      ensures r.Some? ==> r.value.v1 == p1 && r.value.v2 == p2 && r.value.v3 == p3
    {
      var tri := Triangle(p1, p2, p3);
      if tri.SupportingPlane().None? then None else Some(tri)
    }

    /**
      `#getClosestToDir`: the first vertex whose projection onto `dir` is largest in absolute value,
      found as `indexOf` of `Math.max` of the projections.
     */
    function ClosestToDir(dir: Vec3): (v: Vec3)
      ensures v in Vertices()
      ensures forall w :: w in Vertices() ==> Abs(Dot(w, dir)) <= Abs(Dot(v, dir))
      ensures exists k :: 0 <= k < 3 && v == Vertices()[k]
                          && forall i :: 0 <= i < k ==> Abs(Dot(Vertices()[i], dir)) < Abs(Dot(v, dir))
    {
      var vs := Vertices();
      var factors := [Abs(Dot(v1, dir)), Abs(Dot(v2, dir)), Abs(Dot(v3, dir))];
      var k := IndexOf(factors, MaxOf(factors));
      assert forall i :: 0 <= i < 3 ==> factors[i] == Abs(Dot(vs[i], dir));
      assert forall i :: 0 <= i < k ==> factors[i] < factors[k];
      vs[k]
    }

    /** When projecting onto `dir` reads off coordinate `ch`, the first maximiser of the projection is the first maximiser of that coordinate. */
    lemma FirstAlongAxis(dir: Vec3, ch: nat)
      requires ch < 3
      requires forall i :: 0 <= i < 3 ==> Dot(Vertices()[i], dir) == Vertices()[i].Coord(ch)
      ensures exists k :: 0 <= k < 3 && ClosestToDir(dir) == Vertices()[k]
                          && forall i :: 0 <= i < k ==> Abs(Vertices()[i].Coord(ch)) < Abs(ClosestToDir(dir).Coord(ch))
    {
      var v := ClosestToDir(dir);
      var k :| 0 <= k < 3 && v == Vertices()[k]
               && forall i :: 0 <= i < k ==> Abs(Dot(Vertices()[i], dir)) < Abs(Dot(v, dir));
      assert Dot(v, dir) == v.Coord(ch);
    }

    /** `edgeVectorX`: the first vertex farthest along the x axis, either way. */
    function EdgeVectorX(): (v: Vec3)
      ensures v in Vertices() && forall w :: w in Vertices() ==> Abs(w.x) <= Abs(v.x)
      ensures exists k :: 0 <= k < 3 && v == Vertices()[k]
                          && forall i :: 0 <= i < k ==> Abs(Vertices()[i].x) < Abs(v.x)
    {
      AxisDots(v1);
      AxisDots(v2);
      AxisDots(v3);
      FirstAlongAxis(X, 0);
      ClosestToDir(X)
    }

    /** `edgeVectorY`: the first vertex farthest along the y axis, either way. */
    function EdgeVectorY(): (v: Vec3)
      ensures v in Vertices() && forall w :: w in Vertices() ==> Abs(w.y) <= Abs(v.y)
      ensures exists k :: 0 <= k < 3 && v == Vertices()[k]
                          && forall i :: 0 <= i < k ==> Abs(Vertices()[i].y) < Abs(v.y)
    {
      AxisDots(v1);
      AxisDots(v2);
      AxisDots(v3);
      FirstAlongAxis(Y, 1);
      ClosestToDir(Y)
    }

    /** `edgeVectorZ`: the first vertex farthest along the z axis, either way. */
    function EdgeVectorZ(): (v: Vec3)
      ensures v in Vertices() && forall w :: w in Vertices() ==> Abs(w.z) <= Abs(v.z)
      ensures exists k :: 0 <= k < 3 && v == Vertices()[k]
                          && forall i :: 0 <= i < k ==> Abs(Vertices()[i].z) < Abs(v.z)
    {
      AxisDots(v1);
      AxisDots(v2);
      AxisDots(v3);
      FirstAlongAxis(Z, 2);
      ClosestToDir(Z)
    }
  }

  /** Projecting onto an axis direction reads off that coordinate. */
  lemma AxisDots(v: Vec3)
    ensures Dot(v, X) == v.x && Dot(v, Y) == v.y && Dot(v, Z) == v.z
  {
  }

  /** `vertices.map(v => [v[0], v[1], v[2]]).flat()`: three coordinates per vertex, in order. */
  function FlattenVertices(vs: seq<Vec3>): (buf: seq<real>)
    ensures |buf| == 3 * |vs|
    ensures forall k :: 0 <= k < |buf| ==> buf[k] == vs[k / 3].Coord(k % 3)
  {
    if |vs| == 0 then []
    else
      var last := vs[|vs| - 1];
      FlattenVertices(vs[..|vs| - 1]) + [last.x, last.y, last.z]
  }

  /** A shape drawn from a list of vertices, with a colour that can be changed in place. */
  class DrawnShape {
    var vertices: seq<Vec3>
    /** `None` is the `undefined` colour a shape starts with as written. */
    var color: Option<Color>

    /** The constructor as written: the default colour `COLORS.GREY` is not in the table, so it is `undefined`. */
    constructor(points: seq<Vec3>)
      ensures vertices == points
      ensures color == Lookup("GREY") && color == None
    {
      vertices := points;
      color := Lookup("GREY");
      GreyIsMissing();
    }

    /** The constructor with the default colour it evidently means, `COLORS.GRAY`. */
    constructor WithGray(points: seq<Vec3>)
      ensures vertices == points
      ensures color == Lookup("GRAY") && color == Some(NewColor(0.5, 0.5, 0.5, 1.0))
    {
      vertices := points;
      color := Lookup("GRAY");
      GreyIsMissing();
    }

    /** `setColor`: only the colour changes. */
    method SetColor(clr: Color)
      modifies this
      ensures color == Some(clr)
      ensures vertices == old(vertices)
    {
      color := Some(clr);
    }

    /** `getVertexBuffer`: entry `3 i + c` is coordinate `c` of vertex `i`. */
    function GetVertexBuffer(): (buf: seq<real>)
      reads this
      ensures |buf| == 3 * |vertices|
      ensures forall k :: 0 <= k < |buf| ==> buf[k] == vertices[k / 3].Coord(k % 3)
    {
      FlattenVertices(vertices)
    }

    /**
      `getColorBuffer` as written: it hands one array to the rest-parameter `getColorBuffer`, whose
      single "colour" has no `rgba`, so the buffer is one `undefined` entry whatever the shape.
     */
    function GetColorBuffer(): (buf: seq<Option<real>>)
      reads this
      ensures |buf| == 1 && buf[0] == None
      ensures |buf| != 4 * |vertices|
    {
      [None]
    }

    /**
      `getColorBuffer` as meant: the shape's colour once per vertex, four channels each;
      `None` while the colour is `undefined`, where reading its `rgba` would throw.
     */
    function GetColorBufferIntended(): (buf: Option<seq<real>>)
      reads this
      ensures buf.None? <==> color.None?
      ensures buf.Some? ==> |buf.value| == 4 * |vertices|
                            && forall k :: 0 <= k < |buf.value| ==> buf.value[k] == color.value.rgba[k % 4]
    {
      if color.None? then None
      else
        var c := color.value;
        var buf := ColorBuffer(seq(|vertices|, _ => c));
        assert forall k :: 0 <= k < |buf| ==> buf[k] == c.rgba[k % 4];
        Some(buf)
    }
  }

  /** A fresh shape as written has no usable colour buffer; a grey one gets four channels per vertex. */
  method ColorBufferOfNewShape(points: seq<Vec3>) returns (written: seq<Option<real>>, intended: Option<seq<real>>)
    ensures |written| == 1 && written[0] == None
    ensures intended.Some? && |intended.value| == 4 * |points|
  {
    var s := new DrawnShape(points);
    written := s.GetColorBuffer();
    var g := new DrawnShape.WithGray(points);
    intended := g.GetColorBufferIntended();
  }

  /** Whether some three vertices, taken in index order, are collinear. */
  predicate HasCollinearTriple(points: seq<Vec3>) {
    exists a, b, c :: 0 <= a < b < c < |points| && Collinear(points[a], points[b], points[c])
  }

  /** The list `allTriangles` returns: `Triangle.fromPoints` on every vertex triple, in loop order. */
  function AllTris(vs: seq<Vec3>): (tris: seq<Option<Triangle>>) {
    Triples(vs, Triangle.FromPoints)
  }

  /**
    `allTriangles` holds exactly the results of `Triangle.fromPoints` on the vertex triples
    `a < b < c`: every entry comes from such a triple, and every triple contributes.
   */
  lemma AllTrisMembers(vs: seq<Vec3>, x: Option<Triangle>)
    ensures x in AllTris(vs) <==> exists a, b, c :: Entry(vs, Triangle.FromPoints, x, a, b, c)
  {
    TriplesMembers(vs, Triangle.FromPoints, x);
  }

  /** A `null` in `allTriangles` marks exactly a collinear triple of vertices. */
  lemma CollinearTripleFound(vs: seq<Vec3>)
    ensures None in AllTris(vs) <==> HasCollinearTriple(vs)
  {
    AllTrisMembers(vs, None);
    if HasCollinearTriple(vs) {
      var a, b, c :| 0 <= a < b < c < |vs| && Collinear(vs[a], vs[b], vs[c]);
      assert Entry(vs, Triangle.FromPoints, None, a, b, c);
    }
    if None in AllTris(vs) {
      var a, b, c :| Entry(vs, Triangle.FromPoints, None, a, b, c);
      assert Collinear(vs[a], vs[b], vs[c]);
    }
  }

  /** `allTriangles` has one entry per choice of three vertices: `n (n - 1) (n - 2) / 6` of them. */
  lemma AllTrisCount(vs: seq<Vec3>)
    ensures 6 * |AllTris(vs)| == |vs| * (|vs| - 1) * (|vs| - 2)
  {
    TriplesCount(vs, Triangle.FromPoints);
  }

  /** The triple (a, b, c) lands at the position the nested loops give it: every
      earlier (i, j, k) in lexicographic order was pushed first. */
  lemma AllTrisAt(vs: seq<Vec3>, a: nat, b: nat, c: nat)
    requires a < b < c < |vs|
    ensures 0 <= SixTimesBefore(|vs|, a, b, c) / 6 < |AllTris(vs)|
    ensures AllTris(vs)[SixTimesBefore(|vs|, a, b, c) / 6] == Triangle.FromPoints(vs[a], vs[b], vs[c])
  {
    TriplesAt(vs, Triangle.FromPoints, a, b, c);
    PushedLength(vs, Triangle.FromPoints, a, b, c);
  }

  /** The innermost loop of `allTriangles`: pushes the triangles on `i`, `j` and each later vertex. */
  method PushRow(vs: seq<Vec3>, i: nat, j: nat, tris0: seq<Option<Triangle>>) returns (tris: seq<Option<Triangle>>)
    requires i < j < |vs|
    requires tris0 == Pushed(vs, Triangle.FromPoints, i, j, j + 1)
    ensures tris == Pushed(vs, Triangle.FromPoints, i, j, |vs|)
  {
    tris := tris0;
    var k := j + 1;
    while k < |vs|
      invariant j + 1 <= k <= |vs|
      invariant tris == Pushed(vs, Triangle.FromPoints, i, j, k)
    {
      RowStep(vs, Triangle.FromPoints, i, j, k);
      tris := tris + [Triangle.FromPoints(vs[i], vs[j], vs[k])];
      k := k + 1;
    }
  }

  /** The middle loop of `allTriangles`: one row for each `j` after `i`, up to the last vertex but one. */
  method PushRows(vs: seq<Vec3>, i: nat, tris0: seq<Option<Triangle>>) returns (tris: seq<Option<Triangle>>)
    requires i + 2 < |vs|
    requires tris0 == Pushed(vs, Triangle.FromPoints, i, i + 1, i + 2)
    ensures tris == Pushed(vs, Triangle.FromPoints, i, |vs| - 1, |vs|)
  {
    tris := tris0;
    var j := i + 1;
    while j < |vs| - 1
      invariant i + 1 <= j <= |vs| - 1
      invariant tris == Pushed(vs, Triangle.FromPoints, i, j, j + 1)
    {
      tris := PushRow(vs, i, j, tris);
      NextRow(vs, Triangle.FromPoints, i, j);
      j := j + 1;
    }
  }

  /** A polygon: a drawn shape whose vertices are cut into all possible triangles. */
  class Polygon {
    const shape: DrawnShape

    constructor(points: seq<Vec3>)
      ensures shape.vertices == points
      ensures shape.color == None
      ensures fresh(shape)
    {
      shape := new DrawnShape(points);
    }

    /** The `centroid` getter: the average of all vertices (the origin when there are none). */
    function Centroid(): (c: Vec3)
      reads shape
      ensures |shape.vertices| == 0 ==> c == ORIGIN
      ensures forall ch :: 0 <= ch < 3 ==> c.Coord(ch) * (|shape.vertices| as real) == Sum(Component(shape.vertices, ch))
    {
      AvgPoints(shape.vertices)
    }

    /**
      The `allTriangles` getter: three nested counting loops push `Triangle.fromPoints` of every
      vertex triple `i < j < k` (the middle and innermost loops are `PushRows` and `PushRow`).
     */
    method AllTriangles() returns (tris: seq<Option<Triangle>>)
      ensures tris == AllTris(shape.vertices)
    {
      var vs := shape.vertices;
      tris := [];
      var i := 0;
      if 2 <= |vs| {
        FirstRound(vs, Triangle.FromPoints);
      }
      while i < |vs| - 2
        invariant 0 <= i <= if |vs| >= 2 then |vs| - 2 else 0
        invariant 2 <= |vs| ==> tris == Pushed(vs, Triangle.FromPoints, i, i + 1, i + 2)
        invariant |vs| < 2 ==> tris == []
      {
        tris := PushRows(vs, i, tris);
        NextRound(vs, Triangle.FromPoints, i);
        i := i + 1;
      }
    }

    /** `Polygon.fromPoints`: the polygon, or `null` when any three of its vertices are collinear. */
    static method FromPoints(points: seq<Vec3>) returns (poly: Option<Polygon>)
      ensures poly.Some? <==> !HasCollinearTriple(points)
      ensures |points| < 3 ==> poly.Some?
      ensures poly.Some? ==> poly.value.shape.vertices == points && poly.value.shape.color == None
    {
      var p := new Polygon(points);
      var tris := p.AllTriangles();
      CollinearTripleFound(points);
      if None in tris {
        return None;
      }
      return Some(p);
    }
  }
}
