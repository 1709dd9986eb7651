/**
  The part of the gl-matrix `vec3`/`vec4` library that the kernel uses, over exact reals.
  gl-matrix itself is not part of this model; these are the textbook definitions.
 */
module Vectors {

  datatype Vec3 = Vec3(x: real, y: real, z: real) {

    /** Coordinate `c` of the vector, as `v[c]` reads it in JavaScript. */
    function Coord(c: nat): (r: real)
      requires c < 3
    {
      if c == 0 then x else if c == 1 then y else z
    }
  }

  /** A homogeneous point `(x, y, z, w)`, as built by `vec4.fromValues`. */
  datatype Vec4 = Vec4(x: real, y: real, z: real, w: real)

  const ORIGIN := Vec3(0.0, 0.0, 0.0)

  function Add(a: Vec3, b: Vec3): (r: Vec3) {
    Vec3(a.x + b.x, a.y + b.y, a.z + b.z)
  }

  function Sub(a: Vec3, b: Vec3): (r: Vec3) {
    Vec3(a.x - b.x, a.y - b.y, a.z - b.z)
  }

  function Scale(a: Vec3, s: real): (r: Vec3) {
    Vec3(a.x * s, a.y * s, a.z * s)
  }

  function Dot(a: Vec3, b: Vec3): (r: real) {
    a.x * b.x + a.y * b.y + a.z * b.z
  }

  function Cross(a: Vec3, b: Vec3): (r: Vec3) {
    Vec3(a.y * b.z - a.z * b.y, a.z * b.x - a.x * b.z, a.x * b.y - a.y * b.x)
  }

  /** `vec3.sqLen`: the squared length. */
  function SqLen(a: Vec3): (r: real) {
    Dot(a, a)
  }

  function Abs(r: real): (m: real)
    ensures m >= 0.0 && (m == r || m == -r)
  {
    if r < 0.0 then -r else r
  }

  /** The product of a number with (a copy of) itself is never negative, and positive unless it is zero. */
  lemma ProductSign(r: real, q: real)
    requires r == q
    ensures r * q >= 0.0
    ensures r != 0.0 ==> r * q > 0.0
    ensures r == 0.0 ==> r * q == 0.0
  {
    if r < 0.0 {
      assert (-r) * (-q) > 0.0;
    }
  }

  /** Three numbers that are never negative, and positive exactly off zero, sum to zero only at zero. */
  lemma SignedSum(mx: real, my: real, mz: real, x: real, y: real, z: real)
    requires mx >= 0.0 && (x != 0.0 ==> mx > 0.0) && (x == 0.0 ==> mx == 0.0)
    requires my >= 0.0 && (y != 0.0 ==> my > 0.0) && (y == 0.0 ==> my == 0.0)
    requires mz >= 0.0 && (z != 0.0 ==> mz > 0.0) && (z == 0.0 ==> mz == 0.0)
    ensures mx + my + mz >= 0.0
    ensures mx + my + mz == 0.0 <==> x == 0.0 && y == 0.0 && z == 0.0
  {
  }

  /** The dot product of a vector with a copy of itself, coordinate by coordinate. */
  lemma DotSelf(a: Vec3, b: Vec3)
    requires a.x == b.x && a.y == b.y && a.z == b.z
    ensures Dot(a, b) >= 0.0
    ensures Dot(a, b) == 0.0 <==> a == ORIGIN
  {
    ProductSign(a.x, b.x);
    ProductSign(a.y, b.y);
    ProductSign(a.z, b.z);
    SignedSum(a.x * b.x, a.y * b.y, a.z * b.z, a.x, a.y, a.z);
  }

  /** A squared length is never negative, and zero exactly for the zero vector. */
  lemma SqLenZero(a: Vec3)
    ensures SqLen(a) >= 0.0
    ensures SqLen(a) == 0.0 <==> a == ORIGIN
  {
    DotSelf(a, a);
  }

  /** The cross product is orthogonal to both of its factors. */
  lemma CrossOrthogonal(a: Vec3, b: Vec3)
    ensures Dot(Cross(a, b), a) == 0.0 && Dot(Cross(a, b), b) == 0.0
  {
  }

  /** The dot product is bilinear: the steps the plane proofs rely on. */
  lemma DotSubScale(p: Vec3, q: Vec3, n: Vec3, s: real)
    ensures Dot(Sub(p, q), n) == Dot(p, n) - Dot(q, n)
    ensures Dot(Scale(n, s), n) == s * Dot(n, n)
    ensures Dot(Add(p, Scale(q, s)), n) == Dot(p, n) + s * Dot(q, n)
  {
  }
}
