/**
 The geometry step of the export: how big the output canvas is, how much the
 source is shrunk, and where the source lands on the canvas.

 The canvas is clamped to `MaxDimension` on each axis on its own, while the
 source is shrunk by one ratio on both axes. So when only one axis of the
 source is too large, the canvas keeps the other axis of the source and the
 drawn content leaves empty bands on that axis.
 */
module Canvas {
  import opened Geometry

  const MaxDimension: real := 4000.0

  /** Source sizes the geometry is defined for: the ratio divides by both dimensions. */
  predicate ValidSource(source: Size) {
    source.width > 0.0 && source.height > 0.0
  }

  function Min(a: real, b: real): real {
    if a <= b then a else b
  }

  /** The canvas size: each axis of the source clamped to `MaxDimension` separately. */
  function CanvasSize(source: Size): (canvas: Size)
    ensures canvas.width <= MaxDimension && canvas.height <= MaxDimension
    ensures canvas.width <= source.width && canvas.height <= source.height
    ensures canvas.width == source.width || canvas.width == MaxDimension
    ensures canvas.height == source.height || canvas.height == MaxDimension
  {
    Size(Min(source.width, MaxDimension), Min(source.height, MaxDimension))
  }

  /** The one downscale ratio used on both axes. */
  function ScaleRatio(source: Size): (r: real)
    requires ValidSource(source)
    ensures 0.0 < r <= 1.0
    ensures source.width * r <= CanvasSize(source).width
    ensures source.height * r <= CanvasSize(source).height
    ensures source.width * r == CanvasSize(source).width || source.height * r == CanvasSize(source).height
  {
    var canvas := CanvasSize(source);
    Min(canvas.width / source.width, canvas.height / source.height)
  }

  /** No larger uniform ratio keeps the shrunk source inside the canvas. */
  lemma ScaleRatioIsLargestFit(source: Size, s: real)
    requires ValidSource(source)
    requires source.width * s <= CanvasSize(source).width
    requires source.height * s <= CanvasSize(source).height
    ensures s <= ScaleRatio(source)
  {
    var r := ScaleRatio(source);
    if source.width * r == CanvasSize(source).width {
      assert source.width * s <= source.width * r;
      assert source.width * (s - r) <= 0.0;
    } else {
      assert source.height * s <= source.height * r;
      assert source.height * (s - r) <= 0.0;
    }
  }

  /** The source is left alone exactly when it already fits on both axes. */
  lemma ScaleRatioIsOneIff(source: Size)
    requires ValidSource(source)
    ensures ScaleRatio(source) == 1.0 <==> source.width <= MaxDimension && source.height <= MaxDimension
    ensures source.width <= MaxDimension && source.height <= MaxDimension ==> CanvasSize(source) == source
  {
  }

  /**
   The four context steps of the drawing, for any canvas, ratio and rotation:
   translate to the canvas centre, scale by the ratio, rotate, then translate
   back by half the source extent.
   */
  function CentredTransform(canvas: Size, r: real, rotation: Linear, source: Size): Affine {
    var centred := TranslateBy(Identity, canvas.width / 2.0, canvas.height / 2.0);
    var scaled := ScaleBy(centred, r, r);
    var rotated := RotateBy(scaled, rotation);
    TranslateBy(rotated, -source.width / 2.0, -source.height / 2.0)
  }

  /** The CTM the source is drawn with. */
  function DrawTransform(source: Size, rotation: Linear): Affine
    requires ValidSource(source)
  {
    CentredTransform(CanvasSize(source), ScaleRatio(source), rotation, source)
  }

  /**
   Where a point of the source lands, stated directly: its offset from the
   source centre, rotated and scaled by `r`, is its offset from the canvas
   centre.
   */
  function Placed(canvas: Size, r: real, rotation: Linear, source: Size, p: Point): Point {
    var q := ApplyLinear(rotation, Point(p.x - source.width / 2.0, p.y - source.height / 2.0));
    Point(canvas.width / 2.0 + r * q.x, canvas.height / 2.0 + r * q.y)
  }

  /** The four context steps together place every point as `Placed` says. */
  lemma CentredTransformPlaces(canvas: Size, r: real, rotation: Linear, source: Size, p: Point)
    ensures Apply(CentredTransform(canvas, r, rotation, source), p) == Placed(canvas, r, rotation, source, p)
  {
    var centred := TranslateBy(Identity, canvas.width / 2.0, canvas.height / 2.0);
    var scaled := ScaleBy(centred, r, r);
    var rotated := RotateBy(scaled, rotation);
    var back := Point(p.x - source.width / 2.0, p.y - source.height / 2.0);
    var q := ApplyLinear(rotation, back);
    var s := Point(r * q.x, r * q.y);
    TranslateByApply(rotated, -source.width / 2.0, -source.height / 2.0, p);
    assert Point(p.x + -source.width / 2.0, p.y + -source.height / 2.0) == back;
    RotateByApply(scaled, rotation, back);
    ScaleByApply(centred, r, r, q);
    TranslateByApply(Identity, canvas.width / 2.0, canvas.height / 2.0, s);
    assert Apply(centred, s) == Placed(canvas, r, rotation, source, p);
  }

  lemma DrawTransformPlaces(source: Size, rotation: Linear, p: Point)
    requires ValidSource(source)
    ensures Apply(DrawTransform(source, rotation), p)
         == Placed(CanvasSize(source), ScaleRatio(source), rotation, source, p)
  {
    CentredTransformPlaces(CanvasSize(source), ScaleRatio(source), rotation, source, p);
  }

  /** Whatever the rotation, the source centre lands on the canvas centre. */
  lemma CentrePreserved(source: Size, rotation: Linear)
    requires ValidSource(source)
    ensures Apply(DrawTransform(source, rotation), Centre(source)) == Centre(CanvasSize(source))
  {
    DrawTransformPlaces(source, rotation, Centre(source));
  }

  /** A size shrunk (or grown) by `r` on both axes. */
  function Scaled(s: Size, r: real): Size {
    Size(s.width * r, s.height * r)
  }

  /** The size the source occupies on the canvas once shrunk. */
  function DrawnSize(source: Size): (drawn: Size)
    requires ValidSource(source)
    ensures 0.0 < drawn.width <= CanvasSize(source).width && 0.0 < drawn.height <= CanvasSize(source).height
    ensures drawn.width == CanvasSize(source).width || drawn.height == CanvasSize(source).height
    ensures drawn.width * source.height == drawn.height * source.width
  {
    var r := ScaleRatio(source);
    assert 0.0 < source.width * r && 0.0 < source.height * r;
    Scaled(source, r)
  }

  /** Without rotation `Placed` is a uniform scaling about the two centres. */
  lemma PlacedUnrotated(canvas: Size, r: real, source: Size, p: Point)
    ensures Placed(canvas, r, IdentityLinear, source, p)
         == Point(canvas.width / 2.0 + r * (p.x - source.width / 2.0), canvas.height / 2.0 + r * (p.y - source.height / 2.0))
  {
    var back := Point(p.x - source.width / 2.0, p.y - source.height / 2.0);
    var q := ApplyLinear(IdentityLinear, back);
    assert q.x == back.x && q.y == back.y;
    assert Placed(canvas, r, IdentityLinear, source, p) == Point(canvas.width / 2.0 + r * q.x, canvas.height / 2.0 + r * q.y);
  }

  lemma PlacedUnrotatedCorners(canvas: Size, r: real, source: Size)
    ensures Placed(canvas, r, IdentityLinear, source, Point(0.0, 0.0))
         == Point((canvas.width - source.width * r) / 2.0, (canvas.height - source.height * r) / 2.0)
    ensures Placed(canvas, r, IdentityLinear, source, Point(source.width, source.height))
         == Point((canvas.width + source.width * r) / 2.0, (canvas.height + source.height * r) / 2.0)
  {
    PlacedUnrotated(canvas, r, source, Point(0.0, 0.0));
    PlacedUnrotated(canvas, r, source, Point(source.width, source.height));
    assert r * (0.0 - source.width / 2.0) == -(source.width * r) / 2.0;
    assert r * (0.0 - source.height / 2.0) == -(source.height * r) / 2.0;
    assert r * (source.width - source.width / 2.0) == (source.width * r) / 2.0;
    assert r * (source.height - source.height / 2.0) == (source.height * r) / 2.0;
  }

  /**
   Without rotation the four context steps send the source corners to the
   corners of the source shrunk by `r`, centred on the canvas.
   */
  lemma CentredCorners(canvas: Size, r: real, source: Size)
    ensures Apply(CentredTransform(canvas, r, IdentityLinear, source), Point(0.0, 0.0))
         == Point((canvas.width - Scaled(source, r).width) / 2.0, (canvas.height - Scaled(source, r).height) / 2.0)
    ensures Apply(CentredTransform(canvas, r, IdentityLinear, source), Point(source.width, source.height))
         == Point((canvas.width + Scaled(source, r).width) / 2.0, (canvas.height + Scaled(source, r).height) / 2.0)
  {
    CentredTransformPlaces(canvas, r, IdentityLinear, source, Point(0.0, 0.0));
    CentredTransformPlaces(canvas, r, IdentityLinear, source, Point(source.width, source.height));
    PlacedUnrotatedCorners(canvas, r, source);
  }

  /**
   Without rotation the source rectangle lands on the source shrunk by the
   ratio (the `DrawnSize` rectangle), centred on the canvas.
   */
  lemma UnrotatedCorners(source: Size)
    requires ValidSource(source)
    ensures Apply(DrawTransform(source, IdentityLinear), Point(0.0, 0.0))
         == Point((CanvasSize(source).width - Scaled(source, ScaleRatio(source)).width) / 2.0,
                  (CanvasSize(source).height - Scaled(source, ScaleRatio(source)).height) / 2.0)
    ensures Apply(DrawTransform(source, IdentityLinear), Point(source.width, source.height))
         == Point((CanvasSize(source).width + Scaled(source, ScaleRatio(source)).width) / 2.0,
                  (CanvasSize(source).height + Scaled(source, ScaleRatio(source)).height) / 2.0)
  {
    CentredCorners(CanvasSize(source), ScaleRatio(source), source);
  }

  /** Without rotation, a point of the source rectangle lands on the canvas rectangle. */
  lemma PlacedUnrotatedInside(canvas: Size, r: real, source: Size, p: Point)
    requires 0.0 <= r
    requires source.width * r <= canvas.width && source.height * r <= canvas.height
    requires Inside(p, source)
    ensures Inside(Placed(canvas, r, IdentityLinear, source, p), canvas)
  {
    PlacedUnrotated(canvas, r, source, p);
    assert r * p.x <= r * source.width;
    assert r * p.y <= r * source.height;
    assert 0.0 <= r * p.x && 0.0 <= r * p.y;
  }

  /** Without rotation, the four context steps with a ratio that fits keep the source rectangle on the canvas. */
  lemma CentredInside(canvas: Size, r: real, source: Size, p: Point)
    requires 0.0 <= r
    requires source.width * r <= canvas.width && source.height * r <= canvas.height
    requires Inside(p, source)
    ensures Inside(Apply(CentredTransform(canvas, r, IdentityLinear, source), p), canvas)
  {
    CentredTransformPlaces(canvas, r, IdentityLinear, source, p);
    PlacedUnrotatedInside(canvas, r, source, p);
  }

  /** Without rotation every point of the source lands on the canvas. */
  lemma UnrotatedContentInsideCanvas(source: Size, p: Point)
    requires ValidSource(source)
    requires Inside(p, source)
    ensures Inside(Apply(DrawTransform(source, IdentityLinear), p), CanvasSize(source))
  {
    CentredInside(CanvasSize(source), ScaleRatio(source), source, p);
  }

  /** A source that already fits, drawn without rotation, is drawn unchanged. */
  lemma SmallSourceUnrotatedIsIdentity(source: Size, p: Point)
    requires ValidSource(source)
    requires source.width <= MaxDimension && source.height <= MaxDimension
    ensures Apply(DrawTransform(source, IdentityLinear), p) == p
  {
    ScaleRatioIsOneIff(source);
    DrawTransformPlaces(source, IdentityLinear, p);
  }

  /**
   Clamping is idempotent, and a source already within the bound on both axes
   (a canvas size, for one) is drawn unrotated with the identity transform.
   */
  lemma ReexportIsUntransformed(source: Size, p: Point)
    requires ValidSource(source)
    ensures CanvasSize(CanvasSize(source)) == CanvasSize(source)
    ensures Apply(DrawTransform(CanvasSize(source), IdentityLinear), p) == p
  {
    SmallSourceUnrotatedIsIdentity(CanvasSize(source), p);
  }

  /**
   Clamping is per axis: a source too wide but not too tall gets a canvas with
   a different aspect ratio, and the drawn content is shorter than the canvas.
   */
  lemma PerAxisClampLetterboxes(source: Size)
    requires ValidSource(source)
    requires source.width > MaxDimension && source.height <= MaxDimension
    ensures CanvasSize(source).width * source.height != CanvasSize(source).height * source.width
    ensures DrawnSize(source).width == CanvasSize(source).width
    ensures DrawnSize(source).height < CanvasSize(source).height
  {
    var canvas := CanvasSize(source);
    var r := ScaleRatio(source);
    assert canvas == Size(MaxDimension, source.height);
    assert r < 1.0 by { ScaleRatioIsOneIff(source); }
    assert source.height * r < source.height * 1.0;
    assert source.width * r == MaxDimension;
    assert DrawnSize(source) == Size(source.width * r, source.height * r);
    assert MaxDimension * source.height < source.width * source.height;
  }

  /** The 5000 x 3000 case: canvas 4000 x 3000, ratio 0.8, content 4000 x 2400 with 300-point bands. */
  lemma WideSourceExample()
    ensures CanvasSize(Size(5000.0, 3000.0)) == Size(4000.0, 3000.0)
    ensures ScaleRatio(Size(5000.0, 3000.0)) == 0.8
    ensures DrawnSize(Size(5000.0, 3000.0)) == Size(4000.0, 2400.0)
    ensures Apply(DrawTransform(Size(5000.0, 3000.0), IdentityLinear), Point(0.0, 0.0)) == Point(0.0, 300.0)
  {
    var source := Size(5000.0, 3000.0);
    assert CanvasSize(source) == Size(4000.0, 3000.0);
    assert 4000.0 / 5000.0 == 0.8;
    assert ScaleRatio(source) == 0.8;
    assert DrawnSize(source) == Size(4000.0, 2400.0);
    UnrotatedCorners(source);
  }
}
