/**
 Degree-to-radian conversion. The export converts twice: the rotation angle is
 written `angle * pi / 180` and the hue angle `hue / 180 * pi`. The value of pi
 is kept abstract: every member takes it as a parameter and needs only that it
 is positive.
 */
module Angles {

  /** Radians for the context rotation, in the order the rotation writes it. */
  function RotationRadians(degrees: real, pi: real): real {
    degrees * pi / 180.0
  }

  /** Radians for the hue filter, in the order the hue adjustment writes it. */
  function HueRadians(degrees: real, pi: real): real {
    degrees / 180.0 * pi
  }

  /** The inverse conversion, radians back to degrees. */
  function Degrees(radians: real, pi: real): real
    requires pi > 0.0
  {
    radians * 180.0 / pi
  }

  /** Both spellings are the same map. */
  lemma ConversionsAgree(degrees: real, pi: real)
    ensures RotationRadians(degrees, pi) == HueRadians(degrees, pi)
  {
    assert degrees * pi / 180.0 == (degrees * pi) * (1.0 / 180.0);
    assert degrees / 180.0 * pi == (degrees * (1.0 / 180.0)) * pi;
  }

  /** Degrees to radians and back is the identity, in both directions. */
  lemma RoundTrip(degrees: real, radians: real, pi: real)
    requires pi > 0.0
    ensures Degrees(HueRadians(degrees, pi), pi) == degrees
    ensures HueRadians(Degrees(radians, pi), pi) == radians
  {
    var k := pi / 180.0;
    assert HueRadians(degrees, pi) == degrees * k;
    assert Degrees(degrees * k, pi) == degrees * (k * 180.0 / pi);
    assert k * 180.0 / pi == 1.0;
    assert HueRadians(Degrees(radians, pi), pi) == radians * (180.0 / pi) * k;
    assert (180.0 / pi) * k == 1.0;
  }

  /** The fixed points of the hue slider: no turn, and half a turn either way. */
  lemma Landmarks(pi: real)
    ensures HueRadians(0.0, pi) == 0.0
    ensures HueRadians(180.0, pi) == pi
    ensures HueRadians(-180.0, pi) == -pi
    ensures HueRadians(360.0, pi) == 2.0 * pi
  {
  }

  /** Both conversions are linear: additive and homogeneous. */
  lemma Linear(a: real, b: real, k: real, pi: real)
    ensures HueRadians(a + b, pi) == HueRadians(a, pi) + HueRadians(b, pi)
    ensures HueRadians(k * a, pi) == k * HueRadians(a, pi)
    ensures RotationRadians(a + b, pi) == RotationRadians(a, pi) + RotationRadians(b, pi)
    ensures RotationRadians(k * a, pi) == k * RotationRadians(a, pi)
  {
    assert HueRadians(k * a, pi) == k * (a / 180.0) * pi;
    assert RotationRadians(k * a, pi) == k * (a * pi) / 180.0;
  }

  /** For a positive pi the conversion is strictly increasing. */
  lemma StrictlyIncreasing(a: real, b: real, pi: real)
    requires pi > 0.0
    requires a < b
    ensures HueRadians(a, pi) < HueRadians(b, pi)
  {
    assert HueRadians(b, pi) - HueRadians(a, pi) == (b - a) / 180.0 * pi;
    assert (b - a) / 180.0 > 0.0;
  }

  /** The hue slider's range [-180, 180] maps onto [-pi, pi]. */
  lemma HalfTurnBounds(degrees: real, pi: real)
    requires pi > 0.0
    requires -180.0 <= degrees <= 180.0
    ensures -pi <= HueRadians(degrees, pi) <= pi
  {
    Landmarks(pi);
    if degrees > -180.0 {
      StrictlyIncreasing(-180.0, degrees, pi);
    }
    if degrees < 180.0 {
      StrictlyIncreasing(degrees, 180.0, pi);
    }
  }
}
