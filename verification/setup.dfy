/** Construction of a curve and of the ten nested curves drawn on screen.

    The screen size, which the source reads from its global state, is an
    explicit parameter here.
 */
module Setup {
  import opened Lissajous
  import Resize

  /** Screen size the default amplitudes were designed for. */
  const FullScreenWidth: real := 1346.0
  const FullScreenHeight: real := 644.0

  const NumOfNestedCurves: nat := 10
  const UnitOffset: real := 10.0
  const DefaultRelativeWidth: real := 200.0
  const DefaultRelativeHeight: real := 200.0
  const NumHorizontalTangents: int := 2
  const NumVerticalTangents: int := 1

  datatype Dimensions = Dimensions(w: real, h: real)

  /** The settings a curve is built from.  `rotationAngle` is passed in but
      not read by the constructor. */
  datatype CurveData = CurveData(
    heightOffset: real,
    relativeWidth: real,
    relativeHeight: real,
    numXTan: int,
    numYTan: int,
    rotationAngle: real,
    xCoord: real,
    yCoord: real,
    screenWidth: real,
    screenHeight: real,
    color: string)

  /** Amplitudes designed for the full screen, scaled to a screen of the
      given size. */
  function GetCurveDimensions(screenWidth: real, screenHeight: real,
                              inputRelativeWidth: real, inputRelativeHeight: real): (r: Dimensions)
    ensures r.w * FullScreenWidth == inputRelativeWidth * screenWidth
    ensures r.h * FullScreenHeight == inputRelativeHeight * screenHeight
    ensures screenWidth == FullScreenWidth && screenHeight == FullScreenHeight ==>
      r == Dimensions(inputRelativeWidth, inputRelativeHeight)
  {
    var dy := screenHeight / FullScreenHeight;
    var dx := screenWidth / FullScreenWidth;
    Dimensions(inputRelativeWidth * dx, inputRelativeHeight * dy)
  }

  /** The constructor: copies the settings, starts the phase at the lower
      end of its range whatever angle was passed in, and puts the orbit
      point at sample 0. */
  function NewCurve(d: CurveData): (r: Curve)
    ensures Valid(r)
    ensures r.rotationAngle == PhaseMin
    ensures r.orbit.index == 0 && r.parameter == 0.0
    ensures r.heightOffset == d.heightOffset && r.relativeWidth == d.relativeWidth &&
            r.relativeHeight == d.relativeHeight
    ensures r.numHorizontalTangents == d.numXTan && r.numVerticalTangents == d.numYTan
    ensures r.xCoord == d.xCoord && r.yCoord == d.yCoord
    ensures r.screenWidth == d.screenWidth && r.screenHeight == d.screenHeight
    ensures r.color == d.color && r.orbit == OrbitalPoint(0, 0.0, 0.0)
  {
    Curve(
      heightOffset := d.heightOffset,
      screenWidth := d.screenWidth,
      screenHeight := d.screenHeight,
      relativeWidth := d.relativeWidth,
      relativeHeight := d.relativeHeight,
      numHorizontalTangents := d.numXTan,
      numVerticalTangents := d.numYTan,
      rotationAngle := -Pi + DeltaAngle,
      parameter := 0.0,
      xCoord := d.xCoord,
      yCoord := d.yCoord,
      color := d.color,
      orbit := OrbitalPoint(0, 0.0, 0.0))
  }

  /** The settings of nested curve `j` on a screen of size `screenWidth` by
      `screenHeight`. */
  function NestedCurveData(screenWidth: real, screenHeight: real, j: nat): (r: CurveData)
    ensures r.heightOffset == 10.0 * j as real
    ensures 2.0 * r.xCoord == screenWidth && 2.0 * r.yCoord == screenHeight
    ensures r.numXTan == 2 && r.numYTan == 1 && r.color == "white"
    ensures r.screenWidth == screenWidth && r.screenHeight == screenHeight
  {
    var dimensions := GetCurveDimensions(screenWidth, screenHeight, DefaultRelativeWidth,
                                         DefaultRelativeHeight + j as real * UnitOffset);
    CurveData(
      heightOffset := j as real * UnitOffset,
      relativeWidth := dimensions.w,
      relativeHeight := dimensions.h,
      numXTan := NumHorizontalTangents,
      numYTan := NumVerticalTangents,
      rotationAngle := -Pi,
      xCoord := screenWidth / 2.0,
      yCoord := screenHeight / 2.0,
      screenWidth := screenWidth,
      screenHeight := screenHeight,
      color := "white")
  }

  /** The ten nested curves, innermost first. */
  function CreateCurves(screenWidth: real, screenHeight: real): (r: seq<Curve>)
    ensures |r| == NumOfNestedCurves
    ensures forall j :: 0 <= j < |r| ==>
      && r[j].heightOffset == 10.0 * j as real
      && r[j].relativeWidth * FullScreenWidth == 200.0 * screenWidth
      && r[j].relativeHeight * FullScreenHeight == (200.0 + 10.0 * j as real) * screenHeight
      && r[j].xCoord == screenWidth / 2.0 && r[j].yCoord == screenHeight / 2.0
      && r[j].numHorizontalTangents == 2 && r[j].numVerticalTangents == 1
      && r[j].screenWidth == screenWidth && r[j].screenHeight == screenHeight
      && r[j].orbit.index == 0
      && r[j].rotationAngle == PhaseMin
      && Valid(r[j]) && Centered(r[j])
    // on the design screen the amplitudes are the defaults, unscaled
    ensures screenWidth == FullScreenWidth && screenHeight == FullScreenHeight ==>
      forall j :: 0 <= j < |r| ==>
        r[j].relativeWidth == 200.0 && r[j].relativeHeight == 200.0 + 10.0 * j as real
  {
    seq(NumOfNestedCurves, j requires 0 <= j => NewCurve(NestedCurveData(screenWidth, screenHeight, j)))
  }

  /** The constructor never caps, so a cap can fire on an axis whose size did
      not change: on a screen twice as wide as the design screen the width
      starts at 400, and a change of height alone brings it down to 200. */
  lemma CapOnUnchangedAxis()
    ensures CreateCurves(2692.0, 644.0)[0].relativeWidth == 400.0
    ensures Resize.Resize(CreateCurves(2692.0, 644.0)[0], 2692.0, 700.0).relativeWidth == 200.0
  {
    var c := CreateCurves(2692.0, 644.0)[0];
    assert c.relativeWidth * FullScreenWidth == 200.0 * 2692.0;
  }

  /** One axis of a nested curve rescaled from screen size s1 to s2: the
      amplitude designed for `full` is the one designed directly for s2 and
      stays within its design value when s2 <= full; the centre stays at
      the middle. */
  lemma AxisScale(a: real, full: real, s1: real, s2: real)
    requires a > 0.0 && full > 0.0 && s1 != 0.0 && s2 <= full
    ensures a * (s1 / full) * (s2 / s1) == a * (s2 / full) <= a
    ensures (s1 / 2.0) * (s2 / s1) == s2 / 2.0
  {
    Resize.ScaleCompose(a, full, s1, s2);
    Resize.ScaleCompose(1.0, 2.0, s1, s2);
    assert s2 / full <= 1.0;
  }

  /** A resize in which neither cap fires only scales: the centre moves to
      (x, y) and the amplitudes become rw and rh, the scaled values. */
  lemma ResizeUncapped(c: Curve, w: real, h: real, x: real, y: real, rw: real, rh: real)
    requires SizeNonZero(c) && !Resize.SameSize(c, w, h)
    requires x == c.xCoord * (w / c.screenWidth) && y == c.yCoord * (h / c.screenHeight)
    requires rw == c.relativeWidth * (w / c.screenWidth) && rw <= Resize.MaxRelativeWidth
    requires rh == c.relativeHeight * (h / c.screenHeight) && rh <= Resize.BaseRelativeHeight + c.heightOffset
    ensures Resize.Resize(c, w, h) ==
      c.(screenWidth := w, screenHeight := h, xCoord := x, yCoord := y, relativeWidth := rw, relativeHeight := rh)
  {
  }

  /** Nested curve `j` built for one screen and resized to another is nested
      curve `j` built for the second screen, when no cap fires there. */
  lemma ResizeNested(w1: real, h1: real, w2: real, h2: real, j: nat)
    requires w1 != 0.0 && h1 != 0.0
    requires w2 <= FullScreenWidth && h2 <= FullScreenHeight
    ensures Resize.Resize(NewCurve(NestedCurveData(w1, h1, j)), w2, h2) ==
            NewCurve(NestedCurveData(w2, h2, j))
  {
    var c := NewCurve(NestedCurveData(w1, h1, j));
    var d := NewCurve(NestedCurveData(w2, h2, j));
    if !Resize.SameSize(c, w2, h2) {
      var hj := DefaultRelativeHeight + j as real * UnitOffset;
      AxisScale(DefaultRelativeWidth, FullScreenWidth, w1, w2);
      AxisScale(hj, FullScreenHeight, h1, h2);
      assert d == c.(screenWidth := w2, screenHeight := h2, xCoord := d.xCoord, yCoord := d.yCoord,
                     relativeWidth := d.relativeWidth, relativeHeight := d.relativeHeight);
      ResizeUncapped(c, w2, h2, d.xCoord, d.yCoord, d.relativeWidth, d.relativeHeight);
    } else {
      assert NestedCurveData(w1, h1, j) == NestedCurveData(w2, h2, j);
    }
  }

  /** Building the nested curves for one screen and resizing them to another
      gives the curves built for the second screen directly, as long as the
      second screen is no larger than the design screen, so that no cap
      fires. */
  lemma CreateThenResize(w1: real, h1: real, w2: real, h2: real, j: nat)
    requires w1 != 0.0 && h1 != 0.0 && j < NumOfNestedCurves
    requires w2 <= FullScreenWidth && h2 <= FullScreenHeight
    ensures Resize.Resize(CreateCurves(w1, h1)[j], w2, h2) == CreateCurves(w2, h2)[j]
  {
    ResizeNested(w1, h1, w2, h2, j);
  }
}
