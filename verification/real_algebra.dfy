/** Small facts of real arithmetic, stated over plain variables so that each
    one is a single step for the solver. The geometry lemmas are built from
    them. */
module RealAlgebra {

  lemma MulPos(x: real, y: real)
    requires x > 0.0 && y > 0.0
    ensures x * y > 0.0
  {}

  lemma MulNonZero(x: real, y: real)
    requires x != 0.0 && y != 0.0
    ensures x * y != 0.0
  {}

  lemma MulZero(x: real, y: real)
    requires x == 0.0 || y == 0.0
    ensures x * y == 0.0
  {}

  lemma MulOne(k: real, x: real)
    requires k == 1.0
    ensures k * x == x
  {}

  lemma SquarePos(x: real)
    requires x != 0.0
    ensures x * x > 0.0
  {
    if x > 0.0 {
      MulPos(x, x);
    } else {
      MulPos(-x, -x);
      assert (-x) * (-x) == x * x;
    }
  }

  lemma SquareNonNeg(x: real)
    ensures x * x >= 0.0
  {
    if x != 0.0 { SquarePos(x); } else { MulZero(x, x); }
  }

  lemma SquareEq(p: real, q: real)
    requires p == q
    ensures p * p == q * q
  {}

  lemma DivMulCancel(x: real, y: real)
    requires y != 0.0
    ensures (x * y) / y == x
  {}

  lemma MulDivCancel(x: real, y: real)
    requires y != 0.0
    ensures (x / y) * y == x
  {}

  lemma MulDivAssoc(a: real, u: real, r: real)
    requires r != 0.0
    ensures (a * u) / r == a * (u / r)
  {}

  /** x / y is zero exactly when x is. */
  lemma DivZero(x: real, y: real)
    requires y != 0.0
    ensures x / y == 0.0 <==> x == 0.0
  {
    MulDivCancel(x, y);
    if x / y == 0.0 { MulZero(x / y, y); }
  }

  /** A factor that leaves a non-zero number unchanged is one. */
  lemma FactorCancel(x: real, r: real)
    requires r != 0.0 && x * r == r
    ensures x == 1.0
  {
    DivMulCancel(x, r);
    assert (x * r) / r == r / r;
  }

  lemma SumSquaresScale(k: real, j: real, r: real)
    ensures (k * k + j * j) * (r * r) == (k * r) * (k * r) + (j * r) * (j * r)
  {}

  /** The non-negative square root of b * b, for b > 0, is b. */
  lemma SqrtUnique(r: real, b: real)
    requires r >= 0.0 && b > 0.0 && r * r == b * b
    ensures r == b
  {
    assert (r - b) * (r + b) == r * r - b * b;
    assert r + b > 0.0;
    if r != b { MulNonZero(r - b, r + b); }
  }

  /** One row (r0, r1, r2) of a matrix product applied to (x, y, w) equals
      the row applied to the product's right factor applied to (x, y, w):
      p is the row of the product, q the right factor applied to the vector. */
  lemma RowOfProduct(r0: real, r1: real, r2: real,
                     b00: real, b01: real, b02: real,
                     b10: real, b11: real, b12: real,
                     b20: real, b21: real, b22: real,
                     x: real, y: real, w: real,
                     p0: real, p1: real, p2: real,
                     q0: real, q1: real, q2: real)
    requires p0 == r0 * b00 + r1 * b10 + r2 * b20
    requires p1 == r0 * b01 + r1 * b11 + r2 * b21
    requires p2 == r0 * b02 + r1 * b12 + r2 * b22
    requires q0 == b00 * x + b01 * y + b02 * w
    requires q1 == b10 * x + b11 * y + b12 * w
    requires q2 == b20 * x + b21 * y + b22 * w
    ensures p0 * x + p1 * y + p2 * w == r0 * q0 + r1 * q1 + r2 * q2
  {}

  /** The upper-left 2x2 block of a product of two affine matrices is the
      product of their blocks, so its determinant is the product of theirs. */
  lemma AffineBlockDet(a00: real, a01: real, a02: real, a10: real, a11: real, a12: real,
                       b00: real, b01: real, b10: real, b11: real, b20: real, b21: real,
                       p00: real, p01: real, p10: real, p11: real)
    requires b20 == 0.0 && b21 == 0.0
    requires p00 == a00 * b00 + a01 * b10 + a02 * b20
    requires p01 == a00 * b01 + a01 * b11 + a02 * b21
    requires p10 == a10 * b00 + a11 * b10 + a12 * b20
    requires p11 == a10 * b01 + a11 * b11 + a12 * b21
    ensures p00 * p11 - p01 * p10 == (a00 * a11 - a01 * a10) * (b00 * b11 - b01 * b10)
  {
    MulZero(a02, b20);
    MulZero(a02, b21);
    MulZero(a12, b20);
    MulZero(a12, b21);
    assert p00 * p11 - p01 * p10
        == (a00 * b00 + a01 * b10) * (a10 * b01 + a11 * b11) - (a00 * b01 + a01 * b11) * (a10 * b00 + a11 * b10);
  }

  /** The last row of a product of two affine matrices is (0, 0, 1). */
  lemma AffineRow(a20: real, a21: real, a22: real,
                  b00: real, b01: real, b02: real,
                  b10: real, b11: real, b12: real,
                  b20: real, b21: real, b22: real,
                  p20: real, p21: real, p22: real)
    requires a20 == 0.0 && a21 == 0.0 && a22 == 1.0
    requires b20 == 0.0 && b21 == 0.0 && b22 == 1.0
    requires p20 == a20 * b00 + a21 * b10 + a22 * b20
    requires p21 == a20 * b01 + a21 * b11 + a22 * b21
    requires p22 == a20 * b02 + a21 * b12 + a22 * b22
    ensures p20 == 0.0 && p21 == 0.0 && p22 == 1.0
  {}

  /** A rotation keeps the squared length of a vector, and so does negating
      either coordinate first: (qx, qy) is (dx, dy) rotated, where (dx, dy)
      is (ex, ey) with possibly flipped signs. */
  lemma RotationKeepsLength(c: real, s: real, ex: real, ey: real, dx: real, dy: real, qx: real, qy: real)
    requires c * c + s * s == 1.0
    requires dx == ex || dx == -ex
    requires dy == ey || dy == -ey
    requires qx == c * dx - s * dy && qy == s * dx + c * dy
    ensures qx * qx + qy * qy == ex * ex + ey * ey
  {
    assert qx * qx + qy * qy == (c * c + s * s) * (dx * dx + dy * dy);
    MulOne(c * c + s * s, dx * dx + dy * dy);
    assert dx * dx == ex * ex by {
      if dx == -ex { assert dx * dx == (-ex) * (-ex); }
    }
    assert dy * dy == ey * ey by {
      if dy == -ey { assert dy * dy == (-ey) * (-ey); }
    }
  }

  /** The determinant of a rotation composed with a flip. */
  lemma RotationFlipDet(c: real, s: real, fx: real, fy: real, m00: real, m01: real, m10: real, m11: real)
    requires c * c + s * s == 1.0
    requires m00 == c * fx && m01 == -s * fy && m10 == s * fx && m11 == c * fy
    ensures m00 * m11 - m01 * m10 == fx * fy
  {
    assert m00 * m11 - m01 * m10 == (c * c + s * s) * (fx * fy);
    MulOne(c * c + s * s, fx * fy);
  }

  /** The x coordinate of a point (x, y) moved by a flip-and-rotate matrix
      about (cx, cy), whose first row is (m0, m1, m2). */
  lemma RotateFlipRowX(cx: real, cy: real, c: real, s: real, fx: real, fy: real, x: real, y: real,
                       m0: real, m1: real, m2: real, w: real, q: real)
    requires m0 == c * fx && m1 == -s * fy && m2 == cx - c * fx * cx + s * fy * cy
    requires w == 1.0 && q == m0 * x + m1 * y + m2 * w
    ensures q == cx + (c * (fx * (x - cx)) - s * (fy * (y - cy)))
  {}

  /** The y coordinate of the same point, from the second row. */
  lemma RotateFlipRowY(cx: real, cy: real, c: real, s: real, fx: real, fy: real, x: real, y: real,
                       m0: real, m1: real, m2: real, w: real, q: real)
    requires m0 == s * fx && m1 == c * fy && m2 == cy - s * fx * cx - c * fy * cy
    requires w == 1.0 && q == m0 * x + m1 * y + m2 * w
    ensures q == cy + (s * (fx * (x - cx)) + c * (fy * (y - cy)))
  {}

  /** Multiplying by 1 or -1 keeps the magnitude. */
  lemma FlipKeepsMagnitude(f: real, t: real)
    requires f == 1.0 || f == -1.0
    ensures f * t == t || f * t == -t
  {}
}
