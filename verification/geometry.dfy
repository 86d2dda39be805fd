/**
 Plane geometry of a Core Graphics drawing context, over exact reals.

 A `Affine` is laid out like a `CGAffineTransform`: it sends (x, y) to
 (a*x + c*y + tx, b*x + d*y + ty). A context keeps a current transform (the
 CTM); `translateBy`, `scaleBy` and `rotate(by:)` each prepend a new step, so
 the step issued LAST is the first one applied to a point of user space.
 */
module Geometry {

  datatype Point = Point(x: real, y: real)

  datatype Size = Size(width: real, height: real)

  /** The centre of a rectangle of this size whose corner is at the origin. */
  function Centre(s: Size): Point {
    Point(s.width / 2.0, s.height / 2.0)
  }

  /** True when `p` lies in the closed rectangle [0, width] x [0, height]. */
  predicate Inside(p: Point, s: Size) {
    0.0 <= p.x <= s.width && 0.0 <= p.y <= s.height
  }

  /** A linear map of the plane (it always fixes the origin): (x, y) to (a*x + c*y, b*x + d*y). */
  datatype Linear = Linear(a: real, b: real, c: real, d: real)

  const IdentityLinear := Linear(1.0, 0.0, 0.0, 1.0)

  datatype Affine = Affine(a: real, b: real, c: real, d: real, tx: real, ty: real)

  const Identity := Affine(1.0, 0.0, 0.0, 1.0, 0.0, 0.0)

  function Apply(m: Affine, p: Point): Point {
    Point(m.a * p.x + m.c * p.y + m.tx, m.b * p.x + m.d * p.y + m.ty)
  }

  function ApplyLinear(l: Linear, p: Point): (q: Point)
    ensures p == Point(0.0, 0.0) ==> q == p
  {
    Point(l.a * p.x + l.c * p.y, l.b * p.x + l.d * p.y)
  }

  function Translation(tx: real, ty: real): Affine {
    Affine(1.0, 0.0, 0.0, 1.0, tx, ty)
  }

  function Scaling(sx: real, sy: real): Affine {
    Affine(sx, 0.0, 0.0, sy, 0.0, 0.0)
  }

  function FromLinear(l: Linear): Affine {
    Affine(l.a, l.b, l.c, l.d, 0.0, 0.0)
  }

  /** The transform that applies `first` and then `second` (Core Graphics' `concatenating`). */
  function Then(first: Affine, second: Affine): Affine {
    Affine(
      second.a * first.a + second.c * first.b,
      second.b * first.a + second.d * first.b,
      second.a * first.c + second.c * first.d,
      second.b * first.c + second.d * first.d,
      second.a * first.tx + second.c * first.ty + second.tx,
      second.b * first.tx + second.d * first.ty + second.ty)
  }

  /** One row of `Then`: k1 * (a1 x + c1 y + t1) + k2 * (b1 x + d1 y + u1) + t2, regrouped by x and y. */
  lemma RowExpand(k1: real, k2: real, t2: real, a1: real, b1: real, c1: real, d1: real, t1: real, u1: real, x: real, y: real)
    ensures k1 * (a1 * x + c1 * y + t1) + k2 * (b1 * x + d1 * y + u1) + t2
         == (k1 * a1 + k2 * b1) * x + (k1 * c1 + k2 * d1) * y + (k1 * t1 + k2 * u1 + t2)
  {
    assert k1 * (a1 * x + c1 * y + t1) == (k1 * a1) * x + (k1 * c1) * y + k1 * t1;
    assert k2 * (b1 * x + d1 * y + u1) == (k2 * b1) * x + (k2 * d1) * y + k2 * u1;
    assert (k1 * a1 + k2 * b1) * x == (k1 * a1) * x + (k2 * b1) * x;
    assert (k1 * c1 + k2 * d1) * y == (k1 * c1) * y + (k2 * d1) * y;
  }

  /** `Then` is composition of the point maps: its coefficients are the matrix product. */
  lemma ThenApply(first: Affine, second: Affine, p: Point)
    ensures Apply(Then(first, second), p) == Apply(second, Apply(first, p))
  {
    var q := Apply(first, p);
    var m := Then(first, second);
    RowExpand(second.a, second.c, second.tx, first.a, first.b, first.c, first.d, first.tx, first.ty, p.x, p.y);
    assert Apply(second, q).x == Apply(m, p).x;
    RowExpand(second.b, second.d, second.ty, first.a, first.b, first.c, first.d, first.tx, first.ty, p.x, p.y);
    assert Apply(second, q).y == Apply(m, p).y;
  }

  // The context operations. Each one returns the new CTM; its step is applied
  // to user-space points before the steps already in `ctm`.

  function TranslateBy(ctm: Affine, tx: real, ty: real): Affine {
    Then(Translation(tx, ty), ctm)
  }

  function ScaleBy(ctm: Affine, sx: real, sy: real): Affine {
    Then(Scaling(sx, sy), ctm)
  }

  /** `rotate(by:)` with the platform's matrix for that angle, kept abstract as a linear map. */
  function RotateBy(ctm: Affine, rotation: Linear): Affine {
    Then(FromLinear(rotation), ctm)
  }

  lemma TranslateByApply(ctm: Affine, tx: real, ty: real, p: Point)
    ensures Apply(TranslateBy(ctm, tx, ty), p) == Apply(ctm, Point(p.x + tx, p.y + ty))
  {
    ThenApply(Translation(tx, ty), ctm, p);
    assert Apply(Translation(tx, ty), p) == Point(p.x + tx, p.y + ty);
  }

  lemma ScaleByApply(ctm: Affine, sx: real, sy: real, p: Point)
    ensures Apply(ScaleBy(ctm, sx, sy), p) == Apply(ctm, Point(sx * p.x, sy * p.y))
  {
    ThenApply(Scaling(sx, sy), ctm, p);
    assert Apply(Scaling(sx, sy), p) == Point(sx * p.x, sy * p.y);
  }

  lemma RotateByApply(ctm: Affine, rotation: Linear, p: Point)
    ensures Apply(RotateBy(ctm, rotation), p) == Apply(ctm, ApplyLinear(rotation, p))
  {
    ThenApply(FromLinear(rotation), ctm, p);
    assert Apply(FromLinear(rotation), p) == ApplyLinear(rotation, p);
  }
}
