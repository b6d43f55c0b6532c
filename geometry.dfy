/** The geometric constants and formulas of the chart: the value of pi, how
    the ring radii follow from the view width, the ring band a tap must fall
    in, and how a four-quadrant arctangent is brought into (0, 2 pi]. */
module Geometry {

  /** A decimal approximation of `CGFloat(M_PI)`: the shortest decimal that
      rounds to the double nearest pi. */
  const Pi: real := 3.141592653589793

  /** Ring width as a fraction of the outer radius (`kDoughNutWidthFactor`). */
  const DoughNutWidthFactor: real := 0.55

  datatype Point = Point(x: real, y: real)

  /** The tap distance lies strictly between the inner and the outer edge of the ring. */
  predicate InRingBand(hypot: real, outerRadius: real, width: real) {
    hypot < outerRadius && hypot > outerRadius - width
  }

  /** The outer radius derived from the view width: the ring and a label
      margin on either side span the whole width. */
  function OuterRadius(rectWidth: real, labelMargin: real): (outer: real)
    ensures 2.0 * (outer + labelMargin) == rectWidth
  {
    (rectWidth - labelMargin * 2.0) / 2.0
  }

  /** The mid radius, at which arcs are stroked, lies strictly inside the ring
      band whenever the chart has a positive outer radius. */
  lemma MidRadiusInBand(outer: real)
    requires outer > 0.0
    ensures InRingBand(outer - outer * DoughNutWidthFactor / 2.0, outer, outer * DoughNutWidthFactor)
  {
  }

  /** `touchPointRadians`: the raw arctangent (in [-pi, pi]) is turned into
      degrees, a non-positive angle is moved up by 360 degrees, and the result
      is turned back into radians. With exact arithmetic the degree round trip
      is the identity, so a positive angle is kept and any other one gains 2 pi. */
  function TouchPointRadians(angleInRadiansInNegative: real): (t: real)
    ensures t == if angleInRadiansInNegative > 0.0 then angleInRadiansInNegative
                 else 2.0 * Pi + angleInRadiansInNegative
    ensures -Pi <= angleInRadiansInNegative <= Pi ==> 0.0 < t <= 2.0 * Pi
  {
    var angleInDegreesInNegative := angleInRadiansInNegative * (180.0 / Pi);
    var angleInDegrees360 :=
      if angleInDegreesInNegative > 0.0 then angleInDegreesInNegative
      else 360.0 + angleInDegreesInNegative;
    Pi / 180.0 * angleInDegrees360
  }
}
