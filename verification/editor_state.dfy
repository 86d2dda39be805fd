/**
 The editor's adjustable state and the three sliders that set it, and the
 values the export hands to the colour filters.
 */
module EditorState {
  import Angles

  /**
   The editor's state. `scale` and `angle` have no control of their own;
   `angle` is the rotation the export draws with, `scale` is never read by it.
   */
  datatype State = State(hue: real, saturation: real, brightness: real, scale: real, angle: real)

  /** A slider over [lower, upper] that moves in steps of `step` from `lower`. */
  datatype Slider = Slider(lower: real, upper: real, step: real)

  const HueSlider := Slider(-180.0, 180.0, 1.0)
  const SaturationSlider := Slider(0.0, 2.0, 0.01)
  const BrightnessSlider := Slider(0.0, 2.0, 0.01)

  /** True when `v` is a value the slider can produce: in range and a whole number of steps from `lower`. */
  predicate OnSlider(v: real, s: Slider)
    requires s.step > 0.0
  {
    var steps := (v - s.lower) / s.step;
    s.lower <= v <= s.upper && steps.Floor as real == steps
  }

  /** True when every slider-bound field holds a value its slider can produce. */
  predicate FromSliders(st: State) {
    && OnSlider(st.hue, HueSlider)
    && OnSlider(st.saturation, SaturationSlider)
    && OnSlider(st.brightness, BrightnessSlider)
  }

  /** The state a fresh editor starts in. */
  function Initial(): (st: State)
    ensures FromSliders(st)
    ensures st.angle == 0.0
    ensures forall pi :: Angles.HueRadians(st.hue, pi) == 0.0
  {
    State(0.0, 1.0, 0.0, 1.0, 0.0)
  }

  /** The values handed to the hue filter and to the colour-controls filter. */
  datatype ColorInputs = ColorInputs(hueAngle: real, saturation: real, brightness: real)

  /**
   The filter inputs for a state: the hue in radians, saturation and
   brightness passed on unclamped.
   */
  function FilterInputs(st: State, pi: real): (c: ColorInputs)
    requires pi > 0.0
    ensures Angles.Degrees(c.hueAngle, pi) == st.hue
    ensures c.saturation == st.saturation && c.brightness == st.brightness
    ensures FromSliders(st) ==> -pi <= c.hueAngle <= pi && 0.0 <= c.saturation <= 2.0 && 0.0 <= c.brightness <= 2.0
  {
    var angle := Angles.HueRadians(st.hue, pi);
    Angles.RoundTrip(st.hue, angle, pi);
    assert -180.0 <= st.hue <= 180.0 ==> -pi <= angle <= pi by {
      if -180.0 <= st.hue <= 180.0 {
        Angles.HalfTurnBounds(st.hue, pi);
      }
    }
    ColorInputs(angle, st.saturation, st.brightness)
  }

  /** The initial state asks the filters for no change: angle 0, saturation 1, brightness 0. */
  lemma InitialInputsNeutral(pi: real)
    requires pi > 0.0
    ensures FilterInputs(Initial(), pi) == ColorInputs(0.0, 1.0, 0.0)
  {
  }

  /** Both ends of every slider are values it can produce, and nothing outside them is. */
  lemma SliderEnds(v: real)
    ensures OnSlider(-180.0, HueSlider) && OnSlider(180.0, HueSlider)
    ensures OnSlider(0.0, SaturationSlider) && OnSlider(2.0, SaturationSlider)
    ensures OnSlider(0.0, BrightnessSlider) && OnSlider(2.0, BrightnessSlider)
    ensures v < 0.0 || v > 2.0 ==> !OnSlider(v, SaturationSlider) && !OnSlider(v, BrightnessSlider)
  {
    assert (2.0 - 0.0) / 0.01 == 200.0;
  }

  /** A hue the slider can produce is a whole number of degrees. */
  lemma HueSliderIsWholeDegrees(st: State)
    requires FromSliders(st)
    ensures st.hue.Floor as real == st.hue
  {
    var steps := (st.hue - HueSlider.lower) / HueSlider.step;
    assert steps == st.hue + 180.0;
    assert (st.hue + 180.0).Floor == st.hue.Floor + 180;
  }
}
