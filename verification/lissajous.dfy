/** The state of one animated Lissajous curve and the points it samples.

    A Lissajous curve is the parametric curve
      x = A sin(a t + phi) + xCoord
      y = B sin(b t) + yCoord
    where A, B are the curve's relative width and height, a, b its numbers of
    horizontal and vertical tangents, and phi its rotation angle.  The sine
    itself is never interpreted here: every operation that evaluates the curve
    takes it as a parameter `sin`.
 */
module Lissajous {

  /** Number of samples drawn per frame: samples 0 .. Steps - 1. */
  const Steps: nat := 629

  /** Offset that places the phase range at [-Pi + DeltaAngle, Pi + DeltaAngle]. */
  const DeltaAngle: real := 0.5

  /** Increment of the curve parameter t before each sample. */
  const ParameterStep: real := 0.01

  /** Increment of the rotation angle at the end of each frame. */
  const RotationStep: real := 0.01

  /** The value of pi the curve uses, read as an exact real. */
  const Pi: real := 3.141592653589793

  /** Lower and upper end of the range the rotation angle wraps within. */
  const PhaseMin: real := -Pi + DeltaAngle
  const PhaseMax: real := Pi + DeltaAngle

  datatype Point = Point(x: real, y: real)

  /** The small circle that travels along the curve: the sample it will next
      be compared against, and the coordinates it was last placed at. */
  datatype OrbitalPoint = OrbitalPoint(index: int, x: real, y: real)

  /** One curve.  Fields keep the names of the object they model. */
  datatype Curve = Curve(
    heightOffset: real,
    screenWidth: real,
    screenHeight: real,
    relativeWidth: real,
    relativeHeight: real,
    numHorizontalTangents: int,
    numVerticalTangents: int,
    rotationAngle: real,
    parameter: real,
    xCoord: real,
    yCoord: real,
    color: string,
    orbit: OrbitalPoint)

  /** The point of curve `c` at parameter `t`. */
  function Evaluate(c: Curve, sin: real -> real, t: real): Point
  {
    Point(c.relativeWidth * sin(c.numHorizontalTangents as real * t + c.rotationAngle) + c.xCoord,
          c.relativeHeight * sin(c.numVerticalTangents as real * t) + c.yCoord)
  }

  /** The parameter sample `i` is evaluated at: t is advanced before it is used,
      so sample 0 already sits at t = 0.01. */
  function SampleParameter(i: nat): real
  {
    (i + 1) as real * ParameterStep
  }

  /** The point drawn as sample `i` of a frame of curve `c`. */
  function SamplePoint(c: Curve, sin: real -> real, i: nat): Point
  {
    Evaluate(c, sin, SampleParameter(i))
  }

  predicate OrbitIndexInRange(c: Curve)
  {
    0 <= c.orbit.index <= Steps - 1
  }

  predicate PhaseInRange(c: Curve)
  {
    PhaseMin <= c.rotationAngle <= PhaseMax
  }

  /** The state every curve is in between frames. */
  predicate Valid(c: Curve)
  {
    OrbitIndexInRange(c) && PhaseInRange(c)
  }

  /** The centre sits in the middle of the stored screen size. */
  predicate Centered(c: Curve)
  {
    2.0 * c.xCoord == c.screenWidth && 2.0 * c.yCoord == c.screenHeight
  }

  /** The stored screen size can be divided by. */
  predicate SizeNonZero(c: Curve)
  {
    c.screenWidth != 0.0 && c.screenHeight != 0.0
  }
}
