/**
  The camera of `camera.js`: its fields, the replaceable view-matrix hook, and the first step of
  the mouse raycast, which turns a canvas position into normalised device coordinates (NDC) and
  the near and far clip-space points under it.
 */
module Cameras {
  import opened Vectors

  /** A gl-matrix `vec2`: a position on the canvas, in pixels from the top-left corner. */
  datatype Vec2 = Vec2(x: real, y: real)

  /** A gl-matrix `mat4`, as its sixteen entries. */
  type Mat4 = m: seq<real> | |m| == 16 witness seq(16, _ => 0.0)

  /**
    The mouse position as NDC: `x` runs from -1 at the left edge to 1 at the right edge and `y`
    from 1 at the top edge to -1 at the bottom edge (the canvas's y axis points down, NDC's up).
   */
  function ScreenToNdc(mouse: Vec2, width: real, height: real): (ndc: Vec2)
    requires width != 0.0 && height != 0.0
    ensures (ndc.x + 1.0) * width == 2.0 * mouse.x
    ensures (1.0 - ndc.y) * height == 2.0 * mouse.y
  {
    Vec2(2.0 * mouse.x / width - 1.0, 1.0 - 2.0 * mouse.y / height)
  }

  /** The inverse mapping, from NDC back to the canvas position. */
  function NdcToScreen(ndc: Vec2, width: real, height: real): (mouse: Vec2)
    ensures 2.0 * mouse.x == (ndc.x + 1.0) * width
    ensures 2.0 * mouse.y == (1.0 - ndc.y) * height
  {
    Vec2((ndc.x + 1.0) * width / 2.0, (1.0 - ndc.y) * height / 2.0)
  }

  /** Going to NDC and back, or back and forth, returns the starting point. */
  lemma NdcRoundTrip(mouse: Vec2, ndc: Vec2, width: real, height: real)
    requires width != 0.0 && height != 0.0
    ensures NdcToScreen(ScreenToNdc(mouse, width, height), width, height) == mouse
    ensures ScreenToNdc(NdcToScreen(ndc, width, height), width, height) == ndc
  {
    var back := NdcToScreen(ndc, width, height);
    var there := ScreenToNdc(back, width, height);
    DivideOut(there.x + 1.0, ndc.x + 1.0, width);
    DivideOut(1.0 - there.y, 1.0 - ndc.y, height);
  }

  /** A factor that is not zero can be cancelled. */
  lemma DivideOut(p: real, q: real, d: real)
    requires d != 0.0 && p * d == q * d
    ensures p == q
  {
    assert (p - q) * d == 0.0;
  }

  /** The corners and the centre of the canvas land on the corners and the centre of NDC space. */
  lemma NdcCorners(width: real, height: real)
    requires width != 0.0 && height != 0.0
    ensures ScreenToNdc(Vec2(0.0, 0.0), width, height) == Vec2(-1.0, 1.0)
    ensures ScreenToNdc(Vec2(width, height), width, height) == Vec2(1.0, -1.0)
    ensures ScreenToNdc(Vec2(width / 2.0, height / 2.0), width, height) == Vec2(0.0, 0.0)
    ensures ScreenToNdc(Vec2(0.0, height), width, height) == Vec2(-1.0, -1.0)
    ensures ScreenToNdc(Vec2(width, 0.0), width, height) == Vec2(1.0, 1.0)
  {
  }

  /** `(n + 1) w == 2 m` with `w > 0` puts `n` in `[-1, 1]` exactly when `m` is in `[0, w]`. */
  lemma UnitRange(n: real, m: real, w: real)
    requires w > 0.0 && (n + 1.0) * w == 2.0 * m
    ensures -1.0 <= n <= 1.0 <==> 0.0 <= m <= w
  {
    if n < -1.0 {
      assert (n + 1.0) * w < 0.0 * w;
    } else if n > 1.0 {
      assert (n + 1.0) * w > 2.0 * w;
    } else {
      assert 0.0 * w <= (n + 1.0) * w <= 2.0 * w;
    }
  }

  /** A mouse position on the canvas, and only such a position, lies in the NDC square `[-1, 1]²`. */
  lemma NdcInRange(mouse: Vec2, width: real, height: real)
    requires width > 0.0 && height > 0.0
    ensures var ndc := ScreenToNdc(mouse, width, height);
      (0.0 <= mouse.x <= width && 0.0 <= mouse.y <= height)
      <==> (-1.0 <= ndc.x <= 1.0 && -1.0 <= ndc.y <= 1.0)
  {
    var ndc := ScreenToNdc(mouse, width, height);
    UnitRange(ndc.x, mouse.x, width);
    UnitRange(-ndc.y, mouse.y, height);
  }

  /** NDC `x` grows with the mouse's `x`; NDC `y` shrinks as the mouse moves down. */
  lemma NdcMonotone(m1: Vec2, m2: Vec2, width: real, height: real)
    requires width > 0.0 && height > 0.0
    ensures m1.x < m2.x <==> ScreenToNdc(m1, width, height).x < ScreenToNdc(m2, width, height).x
    ensures m1.y < m2.y <==> ScreenToNdc(m1, width, height).y > ScreenToNdc(m2, width, height).y
  {
    var n1, n2 := ScreenToNdc(m1, width, height), ScreenToNdc(m2, width, height);
    Increasing(n1.x + 1.0, n2.x + 1.0, width);
    Increasing(1.0 - n1.y, 1.0 - n2.y, height);
  }

  /** Multiplying by a positive factor keeps the order. */
  lemma Increasing(p: real, q: real, w: real)
    requires w > 0.0
    ensures p < q <==> p * w < q * w
  {
    if p < q {
      assert (q - p) * w > 0.0;
    } else {
      assert (p - q) * w >= 0.0;
    }
  }

  /** The camera. The WebGL context only supplies the canvas size, which the constructor takes directly. */
  class Camera {
    var fieldOfView: real
    var glWidth: real
    var glHeight: real
    var aspect: real
    var zNear: real
    var zFar: real
    var position: Vec3
    /** What `viewMatrix` applies to the translated view matrix; the identity until replaced. */
    var matrixFn: Mat4 -> Mat4

    /** The aspect ratio is the canvas width over its height. */
    predicate AspectMatches()
      reads this
    {
      aspect * glHeight == glWidth
    }

    /** `new Camera(gl, fov, znear, zfar, offsetPos = (0, 0, 0))`. */
    constructor(fov: real, canvasWidth: real, canvasHeight: real, znear: real, zfar: real, offsetPos: Vec3 := ORIGIN)
      requires canvasHeight != 0.0
      ensures fieldOfView == fov && glWidth == canvasWidth && glHeight == canvasHeight
      ensures zNear == znear && zFar == zfar && position == offsetPos
      ensures AspectMatches()
      ensures forall m :: matrixFn(m) == m
    {
      fieldOfView := fov;
      glWidth := canvasWidth;
      glHeight := canvasHeight;
      aspect := canvasWidth / canvasHeight;
      zNear := znear;
      zFar := zfar;
      position := offsetPos;
      matrixFn := m => m;
    }

    /** `setMatrixFn`: replaces the view-matrix hook and nothing else. */
    method SetMatrixFn(fn: Mat4 -> Mat4)
      modifies this
      ensures matrixFn == fn
      ensures fieldOfView == old(fieldOfView) && glWidth == old(glWidth) && glHeight == old(glHeight)
      ensures aspect == old(aspect) && zNear == old(zNear) && zFar == old(zFar) && position == old(position)
      ensures old(AspectMatches()) ==> AspectMatches()
    {
      matrixFn := fn;
    }

    /**
      The start of `getRaycastFromMouse`: the mouse position in NDC, and the clip-space points at
      the near plane (`z = -1`) and the far plane (`z = 1`) under it, both with `w = 1`.
     */
    function ClipPoints(mouse: Vec2): (clip: (Vec4, Vec4))
      reads this
      requires glWidth != 0.0 && glHeight != 0.0
      ensures (clip.0.x + 1.0) * glWidth == 2.0 * mouse.x && (1.0 - clip.0.y) * glHeight == 2.0 * mouse.y
      ensures clip.1.x == clip.0.x && clip.1.y == clip.0.y
      ensures clip.0.z == -1.0 && clip.1.z == 1.0 && clip.0.w == 1.0 && clip.1.w == 1.0
    {
      var ndc := ScreenToNdc(mouse, glWidth, glHeight);
      (Vec4(ndc.x, ndc.y, -1.0, 1.0), Vec4(ndc.x, ndc.y, 1.0, 1.0))
    }
  }
}
