/**
 The export: draw the source onto the bounded canvas, run the hue filter and
 then the colour-controls filter, and render the result. The read-back of the
 drawn canvas, the filter outputs and the render are parameters that may
 yield nothing; if any of them does, the export yields the empty image.
 */
module Export {
  import opened Geometry
  import opened Canvas
  import Angles
  import opened EditorState

  datatype Option<T> = None | Some(value: T)

  /** The picked photo: its size in points and its (uninterpreted) pixels. */
  datatype SourceImage<Pixels> = SourceImage(size: Size, pixels: Pixels)

  /** What the export returns: an empty image, or a rendered one. */
  datatype Image<Pixels> = Empty | Rendered(pixels: Pixels)

  /**
   The platform calls the export makes, none of which it can see into:
   - `rotation` is the matrix `rotate(by:)` prepends for an angle in radians;
   - `draw` is the image read back from a context of the canvas size after the
     source was drawn at the origin under the CTM; it yields nothing when the
     read-back yields no image (opening the context and drawing cannot fail
     here: the code traps instead, see README);
   - `hueAdjust` wraps an image for the filters and applies the hue filter; it
     yields nothing when the wrapped image or the filter output is missing,
     which in the code reaches the colour-controls filter as a missing input;
   - `colorControls` applies the saturation and brightness filter;
   - `render` turns the filter output into a bitmap image.
   */
  datatype Platform<!Pixels> = Platform(
    rotation: real -> Linear,
    draw: (SourceImage<Pixels>, Size, Affine) -> Option<Pixels>,
    hueAdjust: (Pixels, real) -> Option<Pixels>,
    colorControls: (Pixels, real, real) -> Option<Pixels>,
    render: Pixels -> Option<Pixels>)

  /** The canvas the source is drawn on and the CTM it is drawn with. */
  datatype DrawRequest = DrawRequest(canvas: Size, ctm: Affine)

  /** The geometry of the export for a source of this size and a rotation angle in degrees. */
  function PrepareDraw(source: Size, angle: real, pi: real, rotation: real -> Linear): (req: DrawRequest)
    requires ValidSource(source)
    ensures req.canvas == CanvasSize(source)
    ensures req.canvas.width <= MaxDimension && req.canvas.height <= MaxDimension
    ensures req.canvas.width <= source.width && req.canvas.height <= source.height
    ensures Apply(req.ctm, Centre(source)) == Centre(req.canvas)
    ensures forall p :: Apply(req.ctm, p)
                     == Placed(req.canvas, ScaleRatio(source), rotation(Angles.RotationRadians(angle, pi)), source, p)
  {
    var turn := rotation(Angles.RotationRadians(angle, pi));
    var ctm := DrawTransform(source, turn);
    CentrePreserved(source, turn);
    forall p ensures Apply(ctm, p) == Placed(CanvasSize(source), ScaleRatio(source), turn, source, p) {
      DrawTransformPlaces(source, turn, p);
    }
    DrawRequest(CanvasSize(source), ctm)
  }

  /** The filter chain: hue first, then saturation and brightness, then rendering. */
  function FilterChain<Pixels>(drawn: Pixels, inputs: ColorInputs, platform: Platform<Pixels>): Option<Pixels> {
    match platform.hueAdjust(drawn, inputs.hueAngle)
    case None => None
    case Some(hued) =>
      match platform.colorControls(hued, inputs.saturation, inputs.brightness)
      case None => None
      case Some(adjusted) => platform.render(adjusted)
  }

  /** True when some platform call of the export yields nothing. */
  predicate SomeStageFails<Pixels>(source: SourceImage<Pixels>, req: DrawRequest, inputs: ColorInputs, platform: Platform<Pixels>) {
    var drawn := platform.draw(source, req.canvas, req.ctm);
    var hued := if drawn.Some? then platform.hueAdjust(drawn.value, inputs.hueAngle) else None;
    var adjusted := if hued.Some? then platform.colorControls(hued.value, inputs.saturation, inputs.brightness) else None;
    drawn.None? || hued.None? || adjusted.None? || platform.render(adjusted.value).None?
  }

  /** The export once its geometry and filter inputs are fixed. */
  function RunExport<Pixels>(source: SourceImage<Pixels>, req: DrawRequest, inputs: ColorInputs, platform: Platform<Pixels>): (img: Image<Pixels>)
    ensures img.Empty? <==> SomeStageFails(source, req, inputs, platform)
  {
    match platform.draw(source, req.canvas, req.ctm)
    case None => Empty
    case Some(drawn) =>
      match FilterChain(drawn, inputs, platform)
      case None => Empty
      case Some(bitmap) => Rendered(bitmap)
  }

  /**
   The export of the source under the editor state: the canvas and CTM of
   `PrepareDraw`, the filter inputs of `FilterInputs`.
   */
  function CreateFinalImage<Pixels>(source: SourceImage<Pixels>, st: State, pi: real, platform: Platform<Pixels>): (img: Image<Pixels>)
    requires ValidSource(source.size) && pi > 0.0
    ensures img.Empty? <==> SomeStageFails(source, PrepareDraw(source.size, st.angle, pi, platform.rotation), FilterInputs(st, pi), platform)
  {
    RunExport(source, PrepareDraw(source.size, st.angle, pi, platform.rotation), FilterInputs(st, pi), platform)
  }

  /**
   A rendered export is the render of the colour controls applied to the hue
   filter's output on the drawn canvas: the hue filter runs first, and the
   colour controls get the editor's saturation and brightness unchanged.
   */
  lemma RenderedFollowsFilterOrder<Pixels>(source: SourceImage<Pixels>, req: DrawRequest, inputs: ColorInputs, platform: Platform<Pixels>)
    requires RunExport(source, req, inputs, platform).Rendered?
    ensures
      var drawn := platform.draw(source, req.canvas, req.ctm);
      && drawn.Some?
      && platform.hueAdjust(drawn.value, inputs.hueAngle).Some?
      && platform.colorControls(platform.hueAdjust(drawn.value, inputs.hueAngle).value, inputs.saturation, inputs.brightness).Some?
      && platform.render(platform.colorControls(platform.hueAdjust(drawn.value, inputs.hueAngle).value, inputs.saturation, inputs.brightness).value)
         == Some(RunExport(source, req, inputs, platform).pixels)
  {
  }

  /** When the drawn canvas cannot be read back, the export is empty whatever the filters would do. */
  lemma DrawFailureIsEmpty<Pixels>(source: SourceImage<Pixels>, req: DrawRequest, inputs: ColorInputs, platform: Platform<Pixels>)
    requires platform.draw(source, req.canvas, req.ctm).None?
    ensures RunExport(source, req, inputs, platform).Empty?
  {
  }

  /**
   When rendering never succeeds, the export is empty: never a partly
   processed image. A corollary of `RunExport`'s contract, whose last stage
   is the render of whatever the colour controls produced.
   */
  lemma RenderFailureIsEmpty<Pixels>(source: SourceImage<Pixels>, req: DrawRequest, inputs: ColorInputs, platform: Platform<Pixels>)
    requires forall p :: platform.render(p).None?
    ensures RunExport(source, req, inputs, platform).Empty?
  {
    var drawn := platform.draw(source, req.canvas, req.ctm);
    if drawn.Some? {
      var hued := platform.hueAdjust(drawn.value, inputs.hueAngle);
      if hued.Some? {
        var adjusted := platform.colorControls(hued.value, inputs.saturation, inputs.brightness);
        if adjusted.Some? {
          RenderFailsOn(platform, adjusted.value);
        }
      }
    }
    assert SomeStageFails(source, req, inputs, platform);
  }

  // Instantiates the hypothesis at a value whose type Dafny knows only through a call.
  lemma RenderFailsOn<Pixels>(platform: Platform<Pixels>, p: Pixels)
    requires forall q :: platform.render(q).None?
    ensures platform.render(p).None?
  {
  }

  /**
   A fresh editor exporting a source that already fits, on a platform whose
   rotation by zero is the identity, draws the source with the identity CTM
   on a canvas of the source's own size.
   */
  lemma FreshSmallExportIsUntransformed(source: Size, pi: real, rotation: real -> Linear, p: Point)
    requires ValidSource(source) && pi > 0.0
    requires source.width <= MaxDimension && source.height <= MaxDimension
    requires rotation(0.0) == IdentityLinear
    ensures PrepareDraw(source, Initial().angle, pi, rotation).canvas == source
    ensures Apply(PrepareDraw(source, Initial().angle, pi, rotation).ctm, p) == p
  {
    assert Angles.RotationRadians(0.0, pi) == 0.0;
    ScaleRatioIsOneIff(source);
    SmallSourceUnrotatedIsIdentity(source, p);
  }
}
