/** A curve's response to a change of screen size.

    When the size differs from the stored one, the centre and the amplitudes
    are scaled by the ratio of new to old size on each axis, and the
    amplitudes are then capped: the relative width at 200, the relative
    height at 200 plus the curve's height offset.  The centre is never
    capped.  Scaling divides by the stored size, so that size must not be
    zero when it changes.
 */
module Resize {
  import opened Lissajous

  const MaxRelativeWidth: real := 200.0
  const BaseRelativeHeight: real := 200.0

  predicate SameSize(c: Curve, w: real, h: real)
  {
    w == c.screenWidth && h == c.screenHeight
  }

  /** The stored size can be divided by whenever a resize actually scales. */
  predicate CanResize(c: Curve, w: real, h: real)
  {
    !SameSize(c, w, h) ==> SizeNonZero(c)
  }

  function Cap(v: real, limit: real): real
  {
    if v > limit then limit else v
  }

  function Resize(c: Curve, w: real, h: real): (r: Curve)
    requires CanResize(c, w, h)
    ensures SameSize(c, w, h) ==> r == c
    ensures r.screenWidth == w && r.screenHeight == h
    // the centre moves proportionally with the screen, uncapped
    ensures !SameSize(c, w, h) ==>
      r.xCoord * c.screenWidth == c.xCoord * w && r.yCoord * c.screenHeight == c.yCoord * h
    // after an actual resize both amplitudes are within their caps ...
    ensures !SameSize(c, w, h) ==>
      r.relativeWidth <= MaxRelativeWidth && r.relativeHeight <= BaseRelativeHeight + c.heightOffset
    // ... and a cap only replaces a scaled amplitude that exceeds it
    ensures !SameSize(c, w, h) ==>
      var sw := c.relativeWidth * (w / c.screenWidth);
      var sh := c.relativeHeight * (h / c.screenHeight);
      && (r.relativeWidth == sw <==> sw <= MaxRelativeWidth)
      && (r.relativeWidth != sw ==> r.relativeWidth == MaxRelativeWidth)
      && (r.relativeHeight == sh <==> sh <= BaseRelativeHeight + c.heightOffset)
      && (r.relativeHeight != sh ==> r.relativeHeight == BaseRelativeHeight + c.heightOffset)
    // offset, tangents, colour, phase and orbit are untouched
    ensures r == c.(screenWidth := w, screenHeight := h, xCoord := r.xCoord, yCoord := r.yCoord,
                    relativeWidth := r.relativeWidth, relativeHeight := r.relativeHeight)
  {
    if SameSize(c, w, h) then c
    else
      var dy := h / c.screenHeight;
      var dx := w / c.screenWidth;
      c.(screenHeight := h, screenWidth := w,
         xCoord := c.xCoord * dx, yCoord := c.yCoord * dy,
         relativeWidth := Cap(c.relativeWidth * dx, MaxRelativeWidth),
         relativeHeight := Cap(c.relativeHeight * dy, BaseRelativeHeight + c.heightOffset))
  }

  lemma ScaleRoundTrip(v: real, a: real, b: real)
    requires a != 0.0 && b != 0.0
    ensures v * (b / a) * (a / b) == v
  {
    assert (b / a) * (a / b) == 1.0;
  }

  /** Resizing to (w, h) and back restores the curve when neither cap fires. */
  lemma ResizeRoundTrip(c: Curve, w: real, h: real)
    requires SizeNonZero(c) && w != 0.0 && h != 0.0
    requires c.relativeWidth * (w / c.screenWidth) <= MaxRelativeWidth
    requires c.relativeHeight * (h / c.screenHeight) <= BaseRelativeHeight + c.heightOffset
    requires c.relativeWidth <= MaxRelativeWidth
    requires c.relativeHeight <= BaseRelativeHeight + c.heightOffset
    ensures Resize(Resize(c, w, h), c.screenWidth, c.screenHeight) == c
  {
    if !SameSize(c, w, h) {
      var W, H := c.screenWidth, c.screenHeight;
      ScaleRoundTrip(c.xCoord, W, w);
      ScaleRoundTrip(c.yCoord, H, h);
      ScaleRoundTrip(c.relativeWidth, W, w);
      ScaleRoundTrip(c.relativeHeight, H, h);
    }
  }

  lemma ScaleCompose(v: real, a: real, b: real, d: real)
    requires a != 0.0 && b != 0.0
    ensures v * (b / a) * (d / b) == v * (d / a)
  {
    assert (b / a) * (d / b) == d / a;
  }

  /** With a non-zero stored size, the centre is scaled by the size ratios
      whether or not the size changed: an unchanged size has ratio 1. */
  lemma ResizeCenterFormula(c: Curve, w: real, h: real)
    requires SizeNonZero(c)
    ensures Resize(c, w, h).xCoord == c.xCoord * (w / c.screenWidth)
    ensures Resize(c, w, h).yCoord == c.yCoord * (h / c.screenHeight)
  {
    if SameSize(c, w, h) {
      assert w / c.screenWidth == 1.0;
      assert h / c.screenHeight == 1.0;
    }
  }

  /** The centre after two resizes is where one resize to the final size puts
      it: it does not depend on the sizes in between. */
  lemma ResizeCenterPathIndependent(c: Curve, w1: real, h1: real, w2: real, h2: real)
    requires SizeNonZero(c) && w1 != 0.0 && h1 != 0.0
    ensures Resize(Resize(c, w1, h1), w2, h2).xCoord == Resize(c, w2, h2).xCoord
    ensures Resize(Resize(c, w1, h1), w2, h2).yCoord == Resize(c, w2, h2).yCoord
  {
    var c1 := Resize(c, w1, h1);
    ResizeCenterFormula(c, w1, h1);
    ResizeCenterFormula(c1, w2, h2);
    ResizeCenterFormula(c, w2, h2);
    ScaleCompose(c.xCoord, c.screenWidth, w1, w2);
    ScaleCompose(c.yCoord, c.screenHeight, h1, h2);
  }

  /** A curve that stays centred on the screen stays centred after a resize. */
  lemma ResizeKeepsCentered(c: Curve, w: real, h: real)
    requires Centered(c) && CanResize(c, w, h)
    ensures Centered(Resize(c, w, h))
  {
    if !SameSize(c, w, h) {
      var W, H := c.screenWidth, c.screenHeight;
      assert (W / 2.0) * (w / W) == w / 2.0;
      assert (H / 2.0) * (h / H) == h / 2.0;
    }
  }

  /** Amplitudes 100 x 100 resized by factors 3 and 1: the width is capped
      from 300 to 200 and the height stays at 100. */
  lemma ResizeClampExample(c: Curve)
    requires c.screenWidth == 100.0 && c.screenHeight == 100.0 && c.heightOffset == 0.0
    requires c.relativeWidth == 100.0 && c.relativeHeight == 100.0
    ensures Resize(c, 300.0, 100.0).relativeWidth == 200.0
    ensures Resize(c, 300.0, 100.0).relativeHeight == 100.0
  {
  }
}
