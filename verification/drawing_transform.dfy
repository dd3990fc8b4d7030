/** Shape geometry of the DrawingML extractor, over exact reals:
    unit conversion, the closed-form ellipse boundary point, and the
    per-shape transform of section L.4.7.6 of ECMA-376 Part 1 built as
    3x3 homogeneous matrices.  sin, cos and sqrt are not computed here:
    their values are inputs, constrained by the algebraic facts that
    characterise them. */
module DrawingTransform {
  import opened Wrappers
  import opened RealAlgebra

  // Internal presentation units are English Metric Units.
  const EMU_PER_CM: real := 360000.0
  const EMU_PER_IN: real := 914400.0
  const DOTS_PER_IN: real := 96.0
  const EMU_PER_DOT: real := EMU_PER_IN / DOTS_PER_IN

  /** The Python exceptions the transform code can raise. */
  datatype TransformError =
    | ZeroDivisionError   // a float divided by zero
    | TypeError           // unpacking `None` as an (x, y) pair

  /** Converts a point from EMUs to centimetres; multiplying back recovers it. */
  function CmCoords(x: real, y: real): (p: (real, real))
    ensures p.0 * EMU_PER_CM == x && p.1 * EMU_PER_CM == y
  {
    (x / EMU_PER_CM, y / EMU_PER_CM)
  }

  /** `r` is the non-negative square root of `v`, as `math.sqrt` returns it. */
  predicate IsSqrt(r: real, v: real)
  {
    0.0 <= r && r * r == v
  }

  /** The radius the source divides by: sqrt((a sin t)^2 + (b cos t)^2). */
  function RadiusSquared(a: real, b: real, sinT: real, cosT: real): real
  {
    (a * sinT) * (a * sinT) + (b * cosT) * (b * cosT)
  }

  /** The point of the ellipse with semi-axes `a`, `b` seen from its centre at
      angle t, where `sinT`, `cosT` are sin t, cos t and `radius` is the square
      root the source computes. A zero radius is a division by zero. */
  function EllipsePoint(a: real, b: real, sinT: real, cosT: real, radius: real): (p: Result<(real, real), TransformError>)
    requires IsSqrt(radius, RadiusSquared(a, b, sinT, cosT))
    ensures p.Failure? <==> radius == 0.0
  {
    if radius == 0.0 then Failure(ZeroDivisionError)
    else Success((a * (b * cosT) / radius, b * (a * sinT) / radius))
  }

  /** For a proper ellipse the radius never vanishes. */
  lemma EllipseRadiusPositive(a: real, b: real, sinT: real, cosT: real, radius: real)
    requires sinT * sinT + cosT * cosT == 1.0
    requires a != 0.0 && b != 0.0
    requires IsSqrt(radius, RadiusSquared(a, b, sinT, cosT))
    ensures radius > 0.0
  {
    var u, w := a * sinT, b * cosT;
    SquareNonNeg(u);
    SquareNonNeg(w);
    if sinT != 0.0 {
      MulNonZero(a, sinT);
      SquarePos(u);
    } else {
      MulZero(sinT, sinT);
      if cosT == 0.0 { MulZero(cosT, cosT); }
      MulNonZero(b, cosT);
      SquarePos(w);
    }
    if radius == 0.0 { MulZero(radius, radius); }
  }

  /** The two coordinates of the ellipse point, each divided by its semi-axis,
      times the radius: (b cos t, a sin t). */
  lemma EllipsePointScaled(a: real, b: real, sinT: real, cosT: real, radius: real)
    requires sinT * sinT + cosT * cosT == 1.0
    requires a != 0.0 && b != 0.0
    requires IsSqrt(radius, RadiusSquared(a, b, sinT, cosT))
    ensures radius > 0.0
    ensures EllipsePoint(a, b, sinT, cosT, radius).Success?
    ensures var (x, y) := EllipsePoint(a, b, sinT, cosT, radius).value;
            (x / a) * radius == b * cosT && (y / b) * radius == a * sinT
  {
    EllipseRadiusPositive(a, b, sinT, cosT, radius);
    var (x, y) := EllipsePoint(a, b, sinT, cosT, radius).value;
    var k, j := (b * cosT) / radius, (a * sinT) / radius;
    MulDivAssoc(a, b * cosT, radius);
    MulDivAssoc(b, a * sinT, radius);
    assert x == k * a && y == j * b;
    DivMulCancel(k, a);
    DivMulCancel(j, b);
    MulDivCancel(b * cosT, radius);
    MulDivCancel(a * sinT, radius);
  }

  /** The point lies on the ellipse (x/a)^2 + (y/b)^2 = 1. */
  lemma EllipsePointOnEllipse(a: real, b: real, sinT: real, cosT: real, radius: real)
    requires sinT * sinT + cosT * cosT == 1.0
    requires a != 0.0 && b != 0.0
    requires IsSqrt(radius, RadiusSquared(a, b, sinT, cosT))
    ensures EllipsePoint(a, b, sinT, cosT, radius).Success?
    ensures var (x, y) := EllipsePoint(a, b, sinT, cosT, radius).value;
            (x / a) * (x / a) + (y / b) * (y / b) == 1.0
  {
    EllipsePointScaled(a, b, sinT, cosT, radius);
    var (x, y) := EllipsePoint(a, b, sinT, cosT, radius).value;
    var k, j := x / a, y / b;
    SumSquaresScale(k, j, radius);
    SquareEq(k * radius, b * cosT);
    SquareEq(j * radius, a * sinT);
    SquarePos(radius);
    FactorCancel(k * k + j * j, radius * radius);
  }

  /** Two facts of the ray argument, over plain variables. */
  lemma RayFacts(a: real, b: real, s: real, c: real, k: real, j: real, r: real)
    requires s * s + c * c == 1.0 && a > 0.0 && b > 0.0 && r > 0.0
    requires k * r == b * c && j * r == a * s
    ensures (a * k) * s == (b * j) * c
    ensures (a * k) * c + (b * j) * s > 0.0
  {
    var e := (a * k) * s - (b * j) * c;
    assert e * r == (a * s) * (k * r) - (b * c) * (j * r);
    if e != 0.0 { MulNonZero(e, r); }
    var f := (a * k) * c + (b * j) * s;
    assert f * r == (a * c) * (k * r) + (b * s) * (j * r);
    assert f * r == (a * b) * (s * s + c * c);
    MulOne(s * s + c * c, a * b);
    MulPos(a, b);
    if f <= 0.0 {
      if f == 0.0 { MulZero(f, r); } else { MulPos(-f, r); }
    }
  }

  /** The point lies on the ray from the centre at angle t (and not at the
      parametric point (a cos t, b sin t)). */
  lemma EllipsePointOnRay(a: real, b: real, sinT: real, cosT: real, radius: real)
    requires sinT * sinT + cosT * cosT == 1.0
    requires a > 0.0 && b > 0.0
    requires IsSqrt(radius, RadiusSquared(a, b, sinT, cosT))
    ensures EllipsePoint(a, b, sinT, cosT, radius).Success?
    ensures var (x, y) := EllipsePoint(a, b, sinT, cosT, radius).value;
            x * sinT == y * cosT && x * cosT + y * sinT > 0.0
  {
    EllipsePointScaled(a, b, sinT, cosT, radius);
    var (x, y) := EllipsePoint(a, b, sinT, cosT, radius).value;
    var k, j := x / a, y / b;
    RayFacts(a, b, sinT, cosT, k, j, radius);
    assert x == a * k by { MulDivCancel(x, a); }
    assert y == b * j by { MulDivCancel(y, b); }
  }

  /** At angle 0 the point is (a, 0). */
  lemma EllipsePointAtZero(a: real, b: real, radius: real)
    requires b > 0.0
    requires IsSqrt(radius, RadiusSquared(a, b, 0.0, 1.0))
    ensures EllipsePoint(a, b, 0.0, 1.0, radius) == Success((a, 0.0))
  {
    assert RadiusSquared(a, b, 0.0, 1.0) == b * b;
    SqrtUnique(radius, b);
    DivMulCancel(a, b);
  }

  /** At angle pi/2 the point is (0, b). */
  lemma EllipsePointAtRightAngle(a: real, b: real, radius: real)
    requires a > 0.0
    requires IsSqrt(radius, RadiusSquared(a, b, 1.0, 0.0))
    ensures EllipsePoint(a, b, 1.0, 0.0, radius) == Success((0.0, b))
  {
    assert RadiusSquared(a, b, 1.0, 0.0) == a * a;
    SqrtUnique(radius, a);
    DivMulCancel(b, a);
  }

  // ---------------------------------------------------------------------
  // Homogeneous 3x3 matrices

  datatype Vec3 = Vec3(x: real, y: real, w: real)

  datatype Mat3 = Mat3(m00: real, m01: real, m02: real,
                       m10: real, m11: real, m12: real,
                       m20: real, m21: real, m22: real)

  /** A point of the plane in homogeneous coordinates. */
  function Point(x: real, y: real): Vec3
  {
    Vec3(x, y, 1.0)
  }

  function Identity(): Mat3
  {
    Mat3(1.0, 0.0, 0.0,
         0.0, 1.0, 0.0,
         0.0, 0.0, 1.0)
  }

  /** The matrix product a.b (numpy's `a @ b`). */
  function Mul(a: Mat3, b: Mat3): Mat3
  {
    Mat3(a.m00 * b.m00 + a.m01 * b.m10 + a.m02 * b.m20,
         a.m00 * b.m01 + a.m01 * b.m11 + a.m02 * b.m21,
         a.m00 * b.m02 + a.m01 * b.m12 + a.m02 * b.m22,
         a.m10 * b.m00 + a.m11 * b.m10 + a.m12 * b.m20,
         a.m10 * b.m01 + a.m11 * b.m11 + a.m12 * b.m21,
         a.m10 * b.m02 + a.m11 * b.m12 + a.m12 * b.m22,
         a.m20 * b.m00 + a.m21 * b.m10 + a.m22 * b.m20,
         a.m20 * b.m01 + a.m21 * b.m11 + a.m22 * b.m21,
         a.m20 * b.m02 + a.m21 * b.m12 + a.m22 * b.m22)
  }

  /** The matrix applied to a column vector. */
  function Apply(m: Mat3, v: Vec3): Vec3
  {
    Vec3(m.m00 * v.x + m.m01 * v.y + m.m02 * v.w,
         m.m10 * v.x + m.m11 * v.y + m.m12 * v.w,
         m.m20 * v.x + m.m21 * v.y + m.m22 * v.w)
  }

  /** An affine matrix: its last row is (0, 0, 1). */
  predicate IsAffine(m: Mat3)
  {
    m.m20 == 0.0 && m.m21 == 0.0 && m.m22 == 1.0
  }

  /** Determinant of the linear part of an affine matrix. */
  function Det2(m: Mat3): real
  {
    m.m00 * m.m11 - m.m01 * m.m10
  }

  /** The three coordinates of a matrix applied to a vector. */
  lemma ApplyRows(m: Mat3, v: Vec3)
    ensures Apply(m, v).x == m.m00 * v.x + m.m01 * v.y + m.m02 * v.w
    ensures Apply(m, v).y == m.m10 * v.x + m.m11 * v.y + m.m12 * v.w
    ensures Apply(m, v).w == m.m20 * v.x + m.m21 * v.y + m.m22 * v.w
  {}

  /** One coordinate of a product applied to a vector, for the row
      (r0, r1, r2) of the left factor and the row (p0, p1, p2) of the
      product. */
  lemma ProductRow(r0: real, r1: real, r2: real, b: Mat3, v: Vec3, p0: real, p1: real, p2: real)
    requires p0 == r0 * b.m00 + r1 * b.m10 + r2 * b.m20
    requires p1 == r0 * b.m01 + r1 * b.m11 + r2 * b.m21
    requires p2 == r0 * b.m02 + r1 * b.m12 + r2 * b.m22
    ensures p0 * v.x + p1 * v.y + p2 * v.w == r0 * Apply(b, v).x + r1 * Apply(b, v).y + r2 * Apply(b, v).w
  {
    ApplyRows(b, v);
    RowOfProduct(r0, r1, r2, b.m00, b.m01, b.m02, b.m10, b.m11, b.m12, b.m20, b.m21, b.m22,
                 v.x, v.y, v.w, p0, p1, p2, Apply(b, v).x, Apply(b, v).y, Apply(b, v).w);
  }

  lemma ApplyMulX(a: Mat3, b: Mat3, v: Vec3)
    ensures Apply(Mul(a, b), v).x == Apply(a, Apply(b, v)).x
  {
    ApplyRows(Mul(a, b), v);
    ApplyRows(a, Apply(b, v));
    ProductRow(a.m00, a.m01, a.m02, b, v, Mul(a, b).m00, Mul(a, b).m01, Mul(a, b).m02);
  }

  lemma ApplyMulY(a: Mat3, b: Mat3, v: Vec3)
    ensures Apply(Mul(a, b), v).y == Apply(a, Apply(b, v)).y
  {
    ApplyRows(Mul(a, b), v);
    ApplyRows(a, Apply(b, v));
    ProductRow(a.m10, a.m11, a.m12, b, v, Mul(a, b).m10, Mul(a, b).m11, Mul(a, b).m12);
  }

  lemma ApplyMulW(a: Mat3, b: Mat3, v: Vec3)
    ensures Apply(Mul(a, b), v).w == Apply(a, Apply(b, v)).w
  {
    ApplyRows(Mul(a, b), v);
    ApplyRows(a, Apply(b, v));
    ProductRow(a.m20, a.m21, a.m22, b, v, Mul(a, b).m20, Mul(a, b).m21, Mul(a, b).m22);
  }

  /** Applying a product is applying its factors right to left. */
  lemma ApplyMul(a: Mat3, b: Mat3, v: Vec3)
    ensures Apply(Mul(a, b), v) == Apply(a, Apply(b, v))
  {
    ApplyMulX(a, b, v);
    ApplyMulY(a, b, v);
    ApplyMulW(a, b, v);
  }

  /** Affine matrices are closed under product, and the determinant of the
      linear part is multiplicative on them. */
  lemma AffineMul(a: Mat3, b: Mat3)
    requires IsAffine(a) && IsAffine(b)
    ensures IsAffine(Mul(a, b))
    ensures Det2(Mul(a, b)) == Det2(a) * Det2(b)
  {
    var p := Mul(a, b);
    AffineRow(a.m20, a.m21, a.m22, b.m00, b.m01, b.m02, b.m10, b.m11, b.m12, b.m20, b.m21, b.m22,
              p.m20, p.m21, p.m22);
    AffineBlockDet(a.m00, a.m01, a.m02, a.m10, a.m11, a.m12, b.m00, b.m01, b.m10, b.m11, b.m20, b.m21,
                   p.m00, p.m01, p.m10, p.m11);
  }

  // ---------------------------------------------------------------------
  // The transform of one shape

  /** A pair of coordinates or extents in EMUs. */
  datatype Vec2 = Vec2(x: real, y: real)

  /** The `a:xfrm` element of a shape: offset and extent of the shape in its
      parent's space, the optional child offset and extent of a group, the
      rotation in degrees and the two flips. */
  datatype Xfrm = Xfrm(off: Vec2, ext: Vec2, chOff: Option<Vec2>, chExt: Option<Vec2>,
                       rot: real, flipH: bool, flipV: bool)

  /** B: the child origin, (0, 0) when the shape has no `chOff`. */
  function ChildOrigin(xf: Xfrm): Vec2
  {
    match xf.chOff
    case Some(o) => o
    case None => Vec2(0.0, 0.0)
  }

  /** D: the child extent, the caller's bounding box when the shape has no
      `chExt`; with neither, unpacking `None` fails. */
  function ChildExtent(xf: Xfrm, bbox: Option<Vec2>): Result<Vec2, TransformError>
  {
    match xf.chExt
    case Some(e) => Success(e)
    case None => if bbox.Some? then Success(bbox.value) else Failure(TypeError)
  }

  function Translation(tx: real, ty: real): Mat3
  {
    Mat3(1.0, 0.0, tx,
         0.0, 1.0, ty,
         0.0, 0.0, 1.0)
  }

  /** T_st: per axis, scale D'/D and move B to B'; on an axis where D is zero,
      scale 1 and translate by B'. */
  function ScaleTranslate(b: Vec2, d: Vec2, b': Vec2, d': Vec2): Mat3
  {
    var sx := if d.x != 0.0 then d'.x / d.x else 1.0;
    var sy := if d.y != 0.0 then d'.y / d.y else 1.0;
    var tx := if d.x != 0.0 then b'.x - sx * b.x else b'.x;
    var ty := if d.y != 0.0 then b'.y - sy * b.y else b'.y;
    Mat3(sx, 0.0, tx,
         0.0, sy, ty,
         0.0, 0.0, 1.0)
  }

  /** The centre of the placed shape, B' + D'/2. */
  function Centre(b': Vec2, d': Vec2): Vec2
  {
    Vec2(b'.x + d'.x / 2.0, b'.y + d'.y / 2.0)
  }

  /** U: moves the centre of the placed shape to the origin. */
  function CentreToOrigin(b': Vec2, d': Vec2): Mat3
  {
    Translation(-Centre(b', d').x, -Centre(b', d').y)
  }

  /** The inverse of U, which moves the origin back to the centre. */
  function OriginToCentre(b': Vec2, d': Vec2): Mat3
  {
    Translation(Centre(b', d').x, Centre(b', d').y)
  }

  /** R: rotation by the angle whose cosine and sine are given. */
  function Rotation(cosT: real, sinT: real): Mat3
  {
    Mat3(cosT, -sinT, 0.0,
         sinT, cosT, 0.0,
         0.0, 0.0, 1.0)
  }

  /** Fx and Fy: -1 on a flipped axis, 1 otherwise. */
  function FlipFactor(flip: bool): real
  {
    if flip then -1.0 else 1.0
  }

  /** Flip: negates x for a horizontal flip and y for a vertical one. */
  function Flip(flipH: bool, flipV: bool): Mat3
  {
    Mat3(FlipFactor(flipH), 0.0, 0.0,
         0.0, FlipFactor(flipV), 0.0,
         0.0, 0.0, 1.0)
  }

  /** T_rf: flip, then rotate, about the centre of the placed shape. The
      source forms it as the product U^-1 . R . Flip . U; this is that
      product multiplied out, as `RotateFlipFactors` proves. */
  function RotateFlip(b': Vec2, d': Vec2, cosT: real, sinT: real, flipH: bool, flipV: bool): Mat3
  {
    var c := Centre(b', d');
    RotateFlipAbout(c.x, c.y, cosT, sinT, FlipFactor(flipH), FlipFactor(flipV))
  }

  /** Flip by (fx, fy), then rotate, about the point (cx, cy). */
  function RotateFlipAbout(cx: real, cy: real, c: real, s: real, fx: real, fy: real): Mat3
  {
    Mat3(c * fx, -s * fy, cx - c * fx * cx + s * fy * cy,
         s * fx, c * fy, cy - s * fx * cx - c * fy * cy,
         0.0, 0.0, 1.0)
  }

  /** The transform of one shape, T_rf . T_st. `cosT` and `sinT` stand for
      cos and sin of the rotation angle theta = `xf.rot * pi / 180`, which
      are computed outside the model; `xf.rot` itself is carried only to
      name that angle. */
  function ShapeTransform(xf: Xfrm, bbox: Option<Vec2>, cosT: real, sinT: real): Result<Mat3, TransformError>
  {
    match ChildExtent(xf, bbox)
    case Failure(e) => Failure(e)
    case Success(d) =>
      Success(Mul(RotateFlip(xf.off, xf.ext, cosT, sinT, xf.flipH, xf.flipV),
                  ScaleTranslate(ChildOrigin(xf), d, xf.off, xf.ext)))
  }

  // ---------------------------------------------------------------------
  // Properties of the shape transform

  lemma TranslateRotate(cx: real, cy: real, c: real, s: real)
    ensures Mul(Translation(cx, cy), Rotation(c, s)) == Mat3(c, -s, cx, s, c, cy, 0.0, 0.0, 1.0)
  {}

  lemma RotateThenFlip(cx: real, cy: real, c: real, s: real, fx: real, fy: real)
    ensures Mul(Mat3(c, -s, cx, s, c, cy, 0.0, 0.0, 1.0), Mat3(fx, 0.0, 0.0, 0.0, fy, 0.0, 0.0, 0.0, 1.0))
         == Mat3(c * fx, -s * fy, cx, s * fx, c * fy, cy, 0.0, 0.0, 1.0)
  {}

  lemma MoveCentreFirst(cx: real, cy: real, c: real, s: real, fx: real, fy: real)
    ensures Mul(Mat3(c * fx, -s * fy, cx, s * fx, c * fy, cy, 0.0, 0.0, 1.0), Translation(-cx, -cy))
         == RotateFlipAbout(cx, cy, c, s, fx, fy)
  {
    var m := Mul(Mat3(c * fx, -s * fy, cx, s * fx, c * fy, cy, 0.0, 0.0, 1.0), Translation(-cx, -cy));
    assert m.m00 == c * fx;
    assert m.m01 == -s * fy;
    assert m.m02 == cx - c * fx * cx + s * fy * cy;
    assert m.m10 == s * fx;
    assert m.m11 == c * fy;
    assert m.m12 == cy - s * fx * cx - c * fy * cy;
  }

  lemma MulChain(a: Mat3, b: Mat3, c: Mat3, d: Mat3, p: Mat3, q: Mat3, r: Mat3)
    requires Mul(a, b) == p && Mul(p, c) == q && Mul(q, d) == r
    ensures Mul(Mul(Mul(a, b), c), d) == r
  {}

  /** T_rf is the product U^-1 . R . Flip . U that the source computes. */
  lemma RotateFlipFactors(b': Vec2, d': Vec2, cosT: real, sinT: real, flipH: bool, flipV: bool)
    ensures RotateFlip(b', d', cosT, sinT, flipH, flipV)
         == Mul(Mul(Mul(OriginToCentre(b', d'), Rotation(cosT, sinT)), Flip(flipH, flipV)), CentreToOrigin(b', d'))
  {
    var c := Centre(b', d');
    var fx, fy := FlipFactor(flipH), FlipFactor(flipV);
    TranslateRotate(c.x, c.y, cosT, sinT);
    RotateThenFlip(c.x, c.y, cosT, sinT, fx, fy);
    MoveCentreFirst(c.x, c.y, cosT, sinT, fx, fy);
    MulChain(Translation(c.x, c.y), Rotation(cosT, sinT), Mat3(fx, 0.0, 0.0, 0.0, fy, 0.0, 0.0, 0.0, 1.0),
             Translation(-c.x, -c.y),
             Mat3(cosT, -sinT, c.x, sinT, cosT, c.y, 0.0, 0.0, 1.0),
             Mat3(cosT * fx, -sinT * fy, c.x, sinT * fx, cosT * fy, c.y, 0.0, 0.0, 1.0),
             RotateFlipAbout(c.x, c.y, cosT, sinT, fx, fy));
  }

  /** Without `chOff` the child origin is (0, 0); without `chExt` the child
      extent is the bounding box, and the transform fails when there is none. */
  lemma ChildSpaceFallbacks(xf: Xfrm, bbox: Option<Vec2>, cosT: real, sinT: real)
    ensures xf.chOff.None? ==> ChildOrigin(xf) == Vec2(0.0, 0.0)
    ensures xf.chExt.None? && bbox.Some? ==> ChildExtent(xf, bbox) == Success(bbox.value)
    ensures xf.chExt.None? && bbox.None? ==> ShapeTransform(xf, bbox, cosT, sinT) == Failure(TypeError)
    ensures xf.chExt.Some? || bbox.Some? ==> ShapeTransform(xf, bbox, cosT, sinT).Success?
  {
  }

  /** On an axis with a non-zero child extent, T_st maps the child box
      [B, B + D] onto the placement box [B', B' + D']. */
  lemma ScaleTranslateMapsChildBox(b: Vec2, d: Vec2, b': Vec2, d': Vec2)
    requires d.x != 0.0 && d.y != 0.0
    ensures Apply(ScaleTranslate(b, d, b', d'), Point(b.x, b.y)) == Point(b'.x, b'.y)
    ensures Apply(ScaleTranslate(b, d, b', d'), Point(b.x + d.x, b.y + d.y)) == Point(b'.x + d'.x, b'.y + d'.y)
  {
    var sx, sy := d'.x / d.x, d'.y / d.y;
    MulDivCancel(d'.x, d.x);
    MulDivCancel(d'.y, d.y);
    assert sx * (b.x + d.x) + (b'.x - sx * b.x) == b'.x + d'.x;
    assert sy * (b.y + d.y) + (b'.y - sy * b.y) == b'.y + d'.y;
  }

  /** On an axis with a zero child extent, T_st has scale 1 and adds B' on
      that axis, whatever B is; nothing is divided. */
  lemma ScaleTranslateDegenerateAxis(b: Vec2, d: Vec2, b': Vec2, d': Vec2, x: real, y: real)
    ensures d.x == 0.0 ==> Apply(ScaleTranslate(b, d, b', d'), Point(x, y)).x == x + b'.x
    ensures d.y == 0.0 ==> Apply(ScaleTranslate(b, d, b', d'), Point(x, y)).y == y + b'.y
    ensures Apply(ScaleTranslate(b, d, b', d'), Point(x, y)).w == 1.0
  {
  }

  /** The translation back to the centre is the inverse of U, which the
      source obtains with `numpy.linalg.inv`. */
  lemma CentreTranslationsInverse(b': Vec2, d': Vec2)
    ensures Mul(OriginToCentre(b', d'), CentreToOrigin(b', d')) == Identity()
    ensures Mul(CentreToOrigin(b', d'), OriginToCentre(b', d')) == Identity()
  {
  }

  /** The first coordinate of a flip-and-rotate about (cx, cy), for any
      matrix with its first row. */
  lemma RotateFlipAboutX(m: Mat3, v: Vec3, cx: real, cy: real, c: real, s: real, fx: real, fy: real)
    requires m.m00 == c * fx && m.m01 == -s * fy && m.m02 == cx - c * fx * cx + s * fy * cy
    requires v.w == 1.0
    ensures Apply(m, v).x == cx + (c * (fx * (v.x - cx)) - s * (fy * (v.y - cy)))
  {
    ApplyRows(m, v);
    RotateFlipRowX(cx, cy, c, s, fx, fy, v.x, v.y, m.m00, m.m01, m.m02, v.w, Apply(m, v).x);
  }

  /** The second coordinate, from the second row. */
  lemma RotateFlipAboutY(m: Mat3, v: Vec3, cx: real, cy: real, c: real, s: real, fx: real, fy: real)
    requires m.m10 == s * fx && m.m11 == c * fy && m.m12 == cy - s * fx * cx - c * fy * cy
    requires v.w == 1.0
    ensures Apply(m, v).y == cy + (s * (fx * (v.x - cx)) + c * (fy * (v.y - cy)))
  {
    ApplyRows(m, v);
    RotateFlipRowY(cx, cy, c, s, fx, fy, v.x, v.y, m.m10, m.m11, m.m12, v.w, Apply(m, v).y);
  }

  /** An affine matrix keeps the homogeneous coordinate of a point. */
  lemma AffineKeepsPoint(m: Mat3, v: Vec3)
    requires IsAffine(m) && v.w == 1.0
    ensures Apply(m, v).w == 1.0
  {
    ApplyRows(m, v);
    MulZero(m.m20, v.x);
    MulZero(m.m21, v.y);
  }

  /** A flip-and-rotate about (cx, cy) applied to a point: the offset from
      (cx, cy) is flipped, then rotated, then added back. */
  lemma ApplyRotateFlipAbout(cx: real, cy: real, c: real, s: real, fx: real, fy: real, v: Vec3)
    requires v.w == 1.0
    ensures Apply(RotateFlipAbout(cx, cy, c, s, fx, fy), v)
         == Vec3(cx + (c * (fx * (v.x - cx)) - s * (fy * (v.y - cy))),
                 cy + (s * (fx * (v.x - cx)) + c * (fy * (v.y - cy))),
                 1.0)
  {
    RotateFlipAboutX(RotateFlipAbout(cx, cy, c, s, fx, fy), v, cx, cy, c, s, fx, fy);
    RotateFlipAboutY(RotateFlipAbout(cx, cy, c, s, fx, fy), v, cx, cy, c, s, fx, fy);
    AffineKeepsPoint(RotateFlipAbout(cx, cy, c, s, fx, fy), v);
  }

  /** T_rf applied to a point: the offset from the centre is flipped, then
      rotated, then added back to the centre. */
  lemma ApplyRotateFlip(b': Vec2, d': Vec2, cosT: real, sinT: real, flipH: bool, flipV: bool, v: Vec3)
    requires v.w == 1.0
    ensures var c := Centre(b', d');
            var dx, dy := FlipFactor(flipH) * (v.x - c.x), FlipFactor(flipV) * (v.y - c.y);
            Apply(RotateFlip(b', d', cosT, sinT, flipH, flipV), v)
              == Vec3(c.x + (cosT * dx - sinT * dy), c.y + (sinT * dx + cosT * dy), 1.0)
  {
    var c := Centre(b', d');
    ApplyRotateFlipAbout(c.x, c.y, cosT, sinT, FlipFactor(flipH), FlipFactor(flipV), v);
  }

  /** T_rf leaves the centre of the placed shape where it is, for every
      rotation and flip. */
  lemma RotateFlipFixesCentre(b': Vec2, d': Vec2, cosT: real, sinT: real, flipH: bool, flipV: bool)
    ensures var c := Centre(b', d');
            Apply(RotateFlip(b', d', cosT, sinT, flipH, flipV), Point(c.x, c.y)) == Point(c.x, c.y)
  {
    var c := Centre(b', d');
    var v := Point(c.x, c.y);
    ApplyRotateFlip(b', d', cosT, sinT, flipH, flipV, v);
    var dx, dy := FlipFactor(flipH) * (v.x - c.x), FlipFactor(flipV) * (v.y - c.y);
    MulZero(FlipFactor(flipH), v.x - c.x);
    MulZero(FlipFactor(flipV), v.y - c.y);
    MulZero(cosT, dx);
    MulZero(sinT, dx);
    MulZero(cosT, dy);
    MulZero(sinT, dy);
  }

  function SquaredDistance(p: Vec3, c: Vec2): real
  {
    (p.x - c.x) * (p.x - c.x) + (p.y - c.y) * (p.y - c.y)
  }

  /** A point q obtained from v by a flip-and-rotate about c is as far
      from c as v is. */
  lemma FlipRotateKeepsDistance(q: Vec3, v: Vec3, c: Vec2, cosT: real, sinT: real, fx: real, fy: real)
    requires cosT * cosT + sinT * sinT == 1.0
    requires fx == 1.0 || fx == -1.0
    requires fy == 1.0 || fy == -1.0
    requires q.x == c.x + (cosT * (fx * (v.x - c.x)) - sinT * (fy * (v.y - c.y)))
    requires q.y == c.y + (sinT * (fx * (v.x - c.x)) + cosT * (fy * (v.y - c.y)))
    ensures SquaredDistance(q, c) == SquaredDistance(v, c)
  {
    FlipKeepsMagnitude(fx, v.x - c.x);
    FlipKeepsMagnitude(fy, v.y - c.y);
    RotationKeepsLength(cosT, sinT, v.x - c.x, v.y - c.y, fx * (v.x - c.x), fy * (v.y - c.y),
                        q.x - c.x, q.y - c.y);
  }

  /** T_rf is a rigid motion about the centre: every point keeps its distance
      from the centre. */
  lemma RotateFlipKeepsDistanceToCentre(b': Vec2, d': Vec2, cosT: real, sinT: real, flipH: bool, flipV: bool, v: Vec3)
    requires cosT * cosT + sinT * sinT == 1.0
    requires v.w == 1.0
    ensures Apply(RotateFlip(b', d', cosT, sinT, flipH, flipV), v).w == 1.0
    ensures SquaredDistance(Apply(RotateFlip(b', d', cosT, sinT, flipH, flipV), v), Centre(b', d'))
         == SquaredDistance(v, Centre(b', d'))
  {
    ApplyRotateFlip(b', d', cosT, sinT, flipH, flipV, v);
    FlipRotateKeepsDistance(Apply(RotateFlip(b', d', cosT, sinT, flipH, flipV), v), v, Centre(b', d'),
                            cosT, sinT, FlipFactor(flipH), FlipFactor(flipV));
  }

  /** T_rf is affine, and the determinant of its linear part is Fx * Fy,
      which is 1 or -1. */
  lemma RotateFlipDet(b': Vec2, d': Vec2, cosT: real, sinT: real, flipH: bool, flipV: bool)
    requires cosT * cosT + sinT * sinT == 1.0
    ensures IsAffine(RotateFlip(b', d', cosT, sinT, flipH, flipV))
    ensures Det2(RotateFlip(b', d', cosT, sinT, flipH, flipV)) == FlipFactor(flipH) * FlipFactor(flipV)
  {
    var m := RotateFlip(b', d', cosT, sinT, flipH, flipV);
    RotationFlipDet(cosT, sinT, FlipFactor(flipH), FlipFactor(flipV), m.m00, m.m01, m.m10, m.m11);
  }

  /** The linear part of T_st is diagonal with the two per-axis scales; it is
      non-singular exactly when no axis with a non-zero child extent is
      squashed to a zero placement extent. */
  lemma ScaleTranslateDet(b: Vec2, d: Vec2, b': Vec2, d': Vec2)
    ensures IsAffine(ScaleTranslate(b, d, b', d'))
    ensures Det2(ScaleTranslate(b, d, b', d')) != 0.0 <==> (d.x == 0.0 || d'.x != 0.0) && (d.y == 0.0 || d'.y != 0.0)
  {
    var st := ScaleTranslate(b, d, b', d');
    var sx := if d.x != 0.0 then d'.x / d.x else 1.0;
    var sy := if d.y != 0.0 then d'.y / d.y else 1.0;
    assert st.m00 == sx && st.m11 == sy && st.m01 == 0.0 && st.m10 == 0.0;
    MulZero(st.m01, st.m10);
    assert Det2(st) == sx * sy;
    if d.x != 0.0 { DivZero(d'.x, d.x); }
    if d.y != 0.0 { DivZero(d'.y, d.y); }
    if sx != 0.0 && sy != 0.0 { MulNonZero(sx, sy); } else { MulZero(sx, sy); }
  }

  /** With no rotation and no flip T_rf is the identity, so the shape's
      transform is T_st alone. */
  lemma UnrotatedShapeTransform(xf: Xfrm, bbox: Option<Vec2>)
    requires !xf.flipH && !xf.flipV
    ensures RotateFlip(xf.off, xf.ext, 1.0, 0.0, false, false) == Identity()
    ensures ShapeTransform(xf, bbox, 1.0, 0.0).Success? ==>
              ShapeTransform(xf, bbox, 1.0, 0.0).value
                == ScaleTranslate(ChildOrigin(xf), ChildExtent(xf, bbox).value, xf.off, xf.ext)
  {
    var m := RotateFlip(xf.off, xf.ext, 1.0, 0.0, false, false);
    assert m == Identity();
    if ShapeTransform(xf, bbox, 1.0, 0.0).Success? {
      MulIdentity(ScaleTranslate(ChildOrigin(xf), ChildExtent(xf, bbox).value, xf.off, xf.ext));
    }
  }

  lemma MulIdentity(m: Mat3)
    ensures Mul(Identity(), m) == m
  {}

  /** The shape's transform applies T_st first and T_rf second. */
  lemma ShapeTransformComposes(xf: Xfrm, bbox: Option<Vec2>, cosT: real, sinT: real, v: Vec3)
    requires ShapeTransform(xf, bbox, cosT, sinT).Success?
    ensures Apply(ShapeTransform(xf, bbox, cosT, sinT).value, v)
         == Apply(RotateFlip(xf.off, xf.ext, cosT, sinT, xf.flipH, xf.flipV),
                  Apply(ScaleTranslate(ChildOrigin(xf), ChildExtent(xf, bbox).value, xf.off, xf.ext), v))
  {
    ApplyMul(RotateFlip(xf.off, xf.ext, cosT, sinT, xf.flipH, xf.flipV),
             ScaleTranslate(ChildOrigin(xf), ChildExtent(xf, bbox).value, xf.off, xf.ext), v);
  }

  /** The shape's transform is affine, and it is invertible exactly when no
      axis with a non-zero child extent is squashed to a zero placement
      extent. */
  lemma ShapeTransformInvertible(xf: Xfrm, bbox: Option<Vec2>, cosT: real, sinT: real)
    requires cosT * cosT + sinT * sinT == 1.0
    requires ShapeTransform(xf, bbox, cosT, sinT).Success?
    ensures var m := ShapeTransform(xf, bbox, cosT, sinT).value;
            var d := ChildExtent(xf, bbox).value;
            IsAffine(m) &&
            (Det2(m) != 0.0 <==> (d.x == 0.0 || xf.ext.x != 0.0) && (d.y == 0.0 || xf.ext.y != 0.0))
  {
    var d := ChildExtent(xf, bbox).value;
    var rf := RotateFlip(xf.off, xf.ext, cosT, sinT, xf.flipH, xf.flipV);
    var st := ScaleTranslate(ChildOrigin(xf), d, xf.off, xf.ext);
    RotateFlipDet(xf.off, xf.ext, cosT, sinT, xf.flipH, xf.flipV);
    ScaleTranslateDet(ChildOrigin(xf), d, xf.off, xf.ext);
    AffineMul(rf, st);
    assert Det2(rf) != 0.0 by {
      MulNonZero(FlipFactor(xf.flipH), FlipFactor(xf.flipV));
    }
    if Det2(st) != 0.0 { MulNonZero(Det2(rf), Det2(st)); } else { MulZero(Det2(rf), Det2(st)); }
  }
}
