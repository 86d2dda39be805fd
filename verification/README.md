# HueShift export geometry, in Dafny

HueShift is a photo editor: the user picks a photo and moves three sliders
(hue, saturation, brightness), then exports. The export (`createFinalImage`)
draws the photo onto a canvas of bounded size with a centred transform. It runs
the hue filter and then the saturation and brightness filter, and renders a
bitmap. If the drawn canvas cannot be read back, or the filters or the render
yield nothing, the result is an empty image.

This project models that export over exact reals:

- `Geometry`: points, sizes, and affine transforms laid out like
  `CGAffineTransform`. It also has the context operations `translateBy`,
  `scaleBy` and `rotate(by:)`. Each of these prepends its step to the current
  transform (CTM).
- `Canvas`: the 4000-point clamp on each axis, the uniform scale ratio, and the
  four-step drawing transform with its closed form `Placed`.
- `Angles`: the two degree-to-radian conversions, `angle * pi / 180` for the
  rotation and `hue / 180 * pi` for the hue filter. Pi is a parameter that is
  only required to be positive.
- `EditorState`: the editor state with its initial values, the three sliders
  with range and step, and the values handed to the filters.
- `Export`: the platform calls as function parameters that return `Option`,
  and the export as a pure function whose result is `Empty` or `Rendered`.

The rotation matrix is kept abstract. The platform supplies it as any linear
map (which always fixes the origin), so no trigonometry is involved.

The canvas is clamped on each axis separately. It is not scaled to the aspect
ratio of the source. So a 5000 x 3000 source gets a 4000 x 3000 canvas and a
ratio of 0.8. Its content is drawn at 4000 x 2400, with 300-point empty bands
above and below. The canvas is 4000 x 3000, not 4000 x 2400
(`HueShift/ImageEditorView.swift:33-38`). The model also follows the code where
it passes saturation and brightness to the filter unclamped, and where it does
not wrap the hue.

There is no error value: failure is an empty image. When the drawn canvas
cannot be read back (line 57), or the filter output or the bitmap is missing
(lines 71-72), `createFinalImage` returns an empty `UIImage()`. The model
follows that: the result is `Empty`.

## Model

| member | source | states |
|---|---|---|
| `Canvas.CanvasSize` | HueShift/ImageEditorView.swift:31-36 | Each canvas axis is at most 4000 and at most the source's axis. Each axis is either the source's axis or exactly 4000. |
| `Canvas.ScaleRatio` | HueShift/ImageEditorView.swift:38 | For positive source dimensions, the ratio is in (0, 1]. The source scaled by it fits the canvas on both axes, with equality on at least one axis. |
| `Canvas.ScaleRatioIsLargestFit` | HueShift/ImageEditorView.swift:38 | Every uniform ratio that keeps the scaled source inside the canvas is at most the chosen ratio. |
| `Canvas.ScaleRatioIsOneIff` | HueShift/ImageEditorView.swift:33-38 | The ratio is 1 exactly when both source dimensions are at most 4000. In that case the canvas equals the source size. |
| `Geometry.ThenApply` | HueShift/ImageEditorView.swift:48-51 | Concatenating two transforms by the coefficient product gives the composition of their point maps. |
| `Geometry.TranslateByApply` | HueShift/ImageEditorView.swift:48 | After `translateBy`, a user point is first shifted and then mapped by the previous CTM. |
| `Geometry.ScaleByApply` | HueShift/ImageEditorView.swift:49 | After `scaleBy`, a user point is first scaled and then mapped by the previous CTM. |
| `Geometry.RotateByApply` | HueShift/ImageEditorView.swift:50 | After `rotate(by:)`, a user point is first sent through the rotation's linear map and then mapped by the previous CTM. |
| `Canvas.CentredTransformPlaces` | HueShift/ImageEditorView.swift:46-51 | The four context steps send each point p to the canvas centre plus r times the rotated offset of p from the source centre, for any canvas, ratio and rotation. |
| `Canvas.DrawTransformPlaces` | HueShift/ImageEditorView.swift:33-51 | The export's CTM places each source point by that closed form, using the clamped canvas and the computed ratio. |
| `Canvas.CentrePreserved` | HueShift/ImageEditorView.swift:46-51 | For every rotation, the source centre (w/2, h/2) is sent to the canvas centre. |
| `Canvas.DrawnSize` | HueShift/ImageEditorView.swift:38-53 | The drawn content has positive size, fits in the canvas and fills it on at least one axis, and has the same aspect ratio as the source. |
| `Canvas.PlacedUnrotated` | HueShift/ImageEditorView.swift:46-51 | With the identity rotation, placement is a uniform scaling by r about the two centres. |
| `Canvas.PlacedUnrotatedCorners` | HueShift/ImageEditorView.swift:46-53 | With the identity rotation, the source corners (0,0) and (w,h) land at the canvas centre minus and plus half of (w·r, h·r). |
| `Canvas.CentredCorners` | HueShift/ImageEditorView.swift:46-53 | Without rotation, for any canvas and ratio, the four context steps send the source corners to the corners of the source shrunk by the ratio, centred on the canvas. |
| `Canvas.UnrotatedCorners` | HueShift/ImageEditorView.swift:33-53 | Without rotation, the source rectangle is drawn as the source shrunk by the computed ratio (the `DrawnSize` rectangle), centred on the clamped canvas. |
| `Canvas.PlacedUnrotatedInside` | HueShift/ImageEditorView.swift:46-53 | With the identity rotation and a ratio that fits, every point of the source rectangle lands inside the canvas rectangle. |
| `Canvas.CentredInside` | HueShift/ImageEditorView.swift:46-53 | Without rotation, for any canvas and any ratio that fits, the four context steps keep every point of the source rectangle on the canvas. |
| `Canvas.UnrotatedContentInsideCanvas` | HueShift/ImageEditorView.swift:33-53 | Without rotation, every point of the source rectangle lands on the canvas, so nothing is cropped. |
| `Canvas.SmallSourceUnrotatedIsIdentity` | HueShift/ImageEditorView.swift:33-51 | A source of at most 4000 x 4000 drawn without rotation is drawn with the identity transform. |
| `Canvas.ReexportIsUntransformed` | HueShift/ImageEditorView.swift:31-51 | Clamping is idempotent. A source already within 4000 on both axes (a canvas size, for one) is drawn unrotated with the identity transform. |
| `Canvas.PerAxisClampLetterboxes` | HueShift/ImageEditorView.swift:33-38 | If a source is wider than 4000 and at most 4000 tall, its canvas has a different aspect ratio. The content fills the width but is shorter than the canvas. |
| `Canvas.WideSourceExample` | HueShift/ImageEditorView.swift:31-53 | A 5000 x 3000 source gets a 4000 x 3000 canvas, ratio 0.8 and 4000 x 2400 content whose top-left corner is at (0, 300). |
| `Angles.ConversionsAgree` | HueShift/ImageEditorView.swift:50-64 | The rotation's `deg * pi / 180` and the hue's `deg / 180 * pi` are the same map. |
| `Angles.RoundTrip` | HueShift/ImageEditorView.swift:64 | Converting degrees to radians and back gives the original value, in both directions. |
| `Angles.Landmarks` | HueShift/ImageEditorView.swift:64 | The conversion sends 0, 180, -180 and 360 degrees to 0, pi, -pi and 2·pi. |
| `Angles.Linear` | HueShift/ImageEditorView.swift:50-64 | Both conversions, the rotation's and the hue's, are additive and homogeneous. |
| `Angles.StrictlyIncreasing` | HueShift/ImageEditorView.swift:64 | For positive pi, a larger angle in degrees gives a larger angle in radians. |
| `Angles.HalfTurnBounds` | HueShift/ImageEditorView.swift:64 | A hue in [-180, 180] degrees is handed to the hue filter as an angle in [-pi, pi]. |
| `EditorState.Initial` | HueShift/ImageEditorView.swift:8-12 | The initial state is one the sliders can produce. It has no rotation, and its hue converts to a zero angle whatever pi is. |
| `EditorState.InitialInputsNeutral` | HueShift/ImageEditorView.swift:8-10 | The initial state hands the filters angle 0, saturation 1 and brightness 0. |
| `EditorState.SliderEnds` | HueShift/ImageEditorView.swift:105-115 | The hue slider produces -180 and 180, and the saturation and brightness sliders produce 0 and 2. Neither of the last two produces a value outside [0, 2]. |
| `EditorState.HueSliderIsWholeDegrees` | HueShift/ImageEditorView.swift:105 | A hue the slider (range -180 to 180, step 1) can produce is a whole number of degrees. |
| `EditorState.FilterInputs` | HueShift/ImageEditorView.swift:64-69 | The hue angle converts back to the editor's hue. Saturation and brightness are passed on unclamped. For slider values, the angle is in [-pi, pi] and the other two are in [0, 2]. |
| `Export.PrepareDraw` | HueShift/ImageEditorView.swift:31-51 | The export draws on the clamped canvas, within 4000 on each axis and within the source. Its CTM places every point as `Placed` says for the computed ratio and the rotation by the editor's angle, and so sends the source centre to the canvas centre. |
| `Export.RunExport` | HueShift/ImageEditorView.swift:57-81 | The export is empty exactly when the read-back of the drawn canvas, the hue filter, the colour controls or the render yields nothing. |
| `Export.CreateFinalImage` | HueShift/ImageEditorView.swift:30-82 | With the editor's geometry and filter inputs, the result is empty exactly when some platform call yields nothing. |
| `Export.RenderedFollowsFilterOrder` | HueShift/ImageEditorView.swift:60-74 | A rendered result is the render of the colour controls, applied with the given saturation and brightness to the hue filter's output on the drawn canvas. |
| `Export.DrawFailureIsEmpty` | HueShift/ImageEditorView.swift:57-81 | When the drawn canvas cannot be read back, the export is empty, whatever the filters would do. |
| `Export.RenderFailureIsEmpty` | HueShift/ImageEditorView.swift:71-77 | When rendering never succeeds, the export is empty. It is never a partly processed image. This follows from `RunExport`'s contract. |
| `Export.FreshSmallExportIsUntransformed` | HueShift/ImageEditorView.swift:8-51 | Take the initial state, a source of at most 4000 x 4000, and a platform whose zero rotation is the identity. The export then draws on a canvas of the source's size with the identity CTM. |

## Left out

- Colour filtering: the hue and colour-controls filters are platform calls, and their per-pixel arithmetic is not visible in the code. They are uninterpreted functions here. Only their order (hue first) and their inputs are modelled.
- Rasterisation: drawing the source under the CTM and reading the context back (lines 40-57) form one platform call, a parameter that yields nothing only when the read-back at line 57 does. `draw(at:)` returns nothing to test and cannot fail. Wrapping the image and the two filters (lines 60-71) and `createCGImage` (line 72) are parameters that may yield nothing.
- Rotation matrix: the matrix `rotate(by:)` uses is a parameter, any linear map. No trigonometry is modelled, and pi is a parameter required only to be positive.
- Floating point: `CGFloat` and `Double` rounding is not modelled; all arithmetic is exact real arithmetic. So the two degree conversions agree exactly here, even though they may round differently on a device.
- Canvas.ScaleRatio: requires positive source dimensions. For a zero dimension, line 38 divides by zero and floating point gives an infinity or NaN, which reals cannot represent.
- Context coordinates: the context's own base transform (the UIKit flip and the screen scale factor from the `0.0` argument) is left out. The CTM starts at the identity in UIKit points.
- Missing image: `selectedImage!` crashes when no image is picked. The model always takes an image.
- Export.CreateFinalImage: the rotation angle comes from the editor state. No control in the editor changes it from 0, and the `scale` field is never read by the export.
- Export.CreateFinalImage: the model has no trap outcome. An image context that cannot be opened is nil at `UIGraphicsGetCurrentContext()!` (line 42), and the force-unwrap traps, like `selectedImage!`. The same holds for the `CIFilter(name:)!` unwraps at lines 62 and 66. The model assumes that none of these traps.
- Canvas.ReexportIsUntransformed: the re-export reading holds only for a 1x context. The exported `UIImage(cgImage:)` (line 73) has scale 1, but the context was opened at screen scale (the `0.0` at line 40). So on a 3x device a 4000 x 3000 canvas comes back as a 12000 x 9000 image, which the next export shrinks again. `Rendered` carries no size, so the model does not link this lemma to an exported image.
- Saving and the banner: `UIImageWriteToSavedPhotosAlbum` and the two-second banner (lines 15-28) are I/O and animation. In the code, an empty result is handed to the save call and the banner is shown like any other export.
- The `ImageSaver` photo-library flow is asynchronous platform callbacks and is not called by the editor. `ContentView` (navigation and pickers) and `DotMatrix` (a decorative animated grid) are user interface only. None of them are part of this model.
- Slider behaviour: how a slider snaps a drag to its step belongs to the platform. The model only states which values each slider can produce.
