/** One frame of a curve: what `draw` computes once its canvas calls are
    removed.

    Step states the frame declaratively; DrawFrame follows the sample loop
    statement by statement and is proved to compute the same thing.
 */
module Draw {
  import opened Lissajous
  import Orbit
  import Phase
  import Rods

  /** What a frame produces besides the updated curve: the sample indices
      kept as rod anchors and their points, the samples at which the orbit
      point was written, and the rods (None if the rod loop failed). */
  datatype Frame = Frame(
    anchorSamples: seq<nat>,
    anchors: seq<Point>,
    captures: seq<nat>,
    rods: Rods.Option<seq<Rods.Segment>>)

  datatype Drawn = Drawn(curve: Curve, frame: Frame)

  /** The orbital point after a frame whose sample loop captured `captures`. */
  function MovedOrbit(c: Curve, sin: real -> real, captures: seq<nat>): (r: OrbitalPoint)
    ensures OrbitIndexInRange(c) ==> 1 <= r.index <= Steps - 1
    // the point is that of the last capture; without one it stays put
    ensures |captures| > 0 ==> Point(r.x, r.y) == SamplePoint(c, sin, captures[|captures| - 1])
    ensures |captures| == 0 ==> r.x == c.orbit.x && r.y == c.orbit.y
  {
    var index := Orbit.NextIndex(c.orbit.index, Steps);
    if |captures| == 0 then OrbitalPoint(index, c.orbit.x, c.orbit.y)
    else
      var p := SamplePoint(c, sin, captures[|captures| - 1]);
      OrbitalPoint(index, p.x, p.y)
  }

  /** The curve after one frame: the phase is stepped, the orbit point moved
      to the captured sample and the orbit index advanced. */
  function NextCurve(c: Curve, sin: real -> real): (r: Curve)
    ensures c.rotationAngle + RotationStep <= PhaseMax ==> r.rotationAngle == c.rotationAngle + RotationStep
    ensures c.rotationAngle + RotationStep > PhaseMax ==> r.rotationAngle == PhaseMin
    ensures Valid(c) ==> Valid(r)
    ensures r == c.(rotationAngle := r.rotationAngle, parameter := r.parameter, orbit := r.orbit)
  {
    c.(rotationAngle := Phase.NextPhase(c.rotationAngle),
       parameter := Steps as real * ParameterStep,
       orbit := MovedOrbit(c, sin, Orbit.Captures(c.orbit.index, Steps)))
  }

  /** One frame of curve `c`. */
  function Step(c: Curve, sin: real -> real): (r: Drawn)
    // the anchors are the samples whose index is a multiple of 10, in order
    ensures forall i :: i in r.frame.anchorSamples <==> 0 <= i < Steps && i % 10 == 0
    ensures |r.frame.anchors| == |r.frame.anchorSamples| == 63
    ensures forall k :: 0 <= k < |r.frame.anchors| ==>
      r.frame.anchorSamples[k] == 10 * k && r.frame.anchors[k] == SamplePoint(c, sin, 10 * k)
    // exactly one orbit capture, never of the last sample; the next index is one past it
    ensures OrbitIndexInRange(c) ==>
      && |r.frame.captures| == 1
      && r.frame.captures[0] == (if c.orbit.index == Steps - 1 then 0 else c.orbit.index)
      && r.frame.captures[0] <= Steps - 2
      && r.curve.orbit.index == r.frame.captures[0] + 1
      && Point(r.curve.orbit.x, r.curve.orbit.y) == SamplePoint(c, sin, r.frame.captures[0])
    ensures OrbitIndexInRange(c) ==> OrbitIndexInRange(r.curve)
    // the phase either rises by exactly one step or wraps to its lower end
    ensures c.rotationAngle + RotationStep <= PhaseMax ==>
      r.curve.rotationAngle == c.rotationAngle + RotationStep
    ensures c.rotationAngle + RotationStep > PhaseMax ==> r.curve.rotationAngle == PhaseMin
    ensures PhaseInRange(c) ==> PhaseInRange(r.curve)
    ensures Valid(c) ==> Valid(r.curve)
    // the rod loop never reads outside the anchors and draws its 66 rods
    // between the anchors it pairs up
    ensures r.frame.rods == Rods.RodSegments(r.frame.anchors)
    ensures r.frame.rods.Some? && |r.frame.rods.value| == 66
    // nothing but the animation state changes
    ensures r.curve == c.(rotationAngle := r.curve.rotationAngle, parameter := r.curve.parameter,
                          orbit := r.curve.orbit)
  {
    var samples := Rods.AnchorIndices(Steps);
    Rods.AnchorIndicesSelect(Steps);
    Rods.RodPairsOfCurve();
    var anchors := seq(|samples|, k requires 0 <= k < |samples| => SamplePoint(c, sin, samples[k]));
    var captures := Orbit.Captures(c.orbit.index, Steps);
    Drawn(NextCurve(c, sin), Frame(samples, anchors, captures, Rods.RodSegments(anchors)))
  }

  /** After the first `i` samples, the anchors kept are those among them
      whose index is a multiple of 10, with their points. */
  predicate AnchorsSoFar(c: Curve, sin: real -> real, i: nat, samples: seq<nat>, anchors: seq<Point>)
  {
    && |samples| == |anchors| == Rods.AnchorCount(i)
    && (forall k :: 0 <= k < |samples| ==> samples[k] == 10 * k)
    && (forall k :: 0 <= k < |anchors| ==> anchors[k] == SamplePoint(c, sin, samples[k]))
  }

  lemma AnchorsStep(c: Curve, sin: real -> real, i: nat, samples: seq<nat>, anchors: seq<Point>)
    requires AnchorsSoFar(c, sin, i, samples, anchors)
    ensures i % 10 == 0 ==>
      AnchorsSoFar(c, sin, i + 1, samples + [i], anchors + [SamplePoint(c, sin, i)])
    ensures i % 10 != 0 ==> AnchorsSoFar(c, sin, i + 1, samples, anchors)
  {
    if i % 10 == 0 {
      assert i == 10 * Rods.AnchorCount(i);
    }
  }

  /** After the first `i` samples of a frame that started with orbit index
      `s`: the index, the captures made and the orbit point. */
  predicate OrbitSoFar(c: Curve, sin: real -> real, i: nat, index: int, captures: seq<nat>, orbit: Point)
  {
    var s := c.orbit.index;
    && index == (if s == Steps - 1 && i > 0 then 0 else s)
    && captures == (if s == Steps - 1 then (if i > 0 then [0] else [])
                    else if 0 <= s < i then [s]
                    else [])
    && (|captures| == 0 ==> orbit == Point(c.orbit.x, c.orbit.y))
    && (|captures| > 0 ==> orbit == SamplePoint(c, sin, captures[|captures| - 1]))
  }

  /** One iteration's orbit bookkeeping: reset first, then capture. */
  lemma OrbitStep(c: Curve, sin: real -> real, i: nat, index: int, captures: seq<nat>, orbit: Point)
    requires i < Steps && OrbitSoFar(c, sin, i, index, captures, orbit)
    ensures
      var index' := if index == Steps - 1 then 0 else index;
      var captures' := if index' == i then captures + [i] else captures;
      var orbit' := if index' == i then SamplePoint(c, sin, i) else orbit;
      OrbitSoFar(c, sin, i + 1, index', captures', orbit')
  {
  }

  /** The sample loop of `draw`: evaluates samples 0 .. Steps - 1, keeps
      every 10th as a rod anchor and moves the orbit point, testing for the
      index reset before testing for the capture. */
  method SampleLoop(c: Curve, sin: real -> real)
    returns (samples: seq<nat>, anchors: seq<Point>, captures: seq<nat>, index: int, orbit: Point, t: real)
    ensures samples == Rods.AnchorIndices(Steps)
    ensures |anchors| == |samples|
    ensures forall k :: 0 <= k < |anchors| ==> anchors[k] == SamplePoint(c, sin, samples[k])
    ensures captures == Orbit.Captures(c.orbit.index, Steps)
    ensures index == Orbit.IndexAfterLoop(c.orbit.index, Steps)
    ensures |captures| == 0 ==> orbit == Point(c.orbit.x, c.orbit.y)
    ensures |captures| > 0 ==> orbit == SamplePoint(c, sin, captures[|captures| - 1])
    ensures t == Steps as real * ParameterStep
  {
    samples, anchors, captures := [], [], [];
    index := c.orbit.index;
    orbit := Point(c.orbit.x, c.orbit.y);
    t := 0.0;
    var i := 0;
    while i < Steps
      invariant 0 <= i <= Steps
      invariant t == i as real * ParameterStep
      invariant AnchorsSoFar(c, sin, i, samples, anchors)
      invariant OrbitSoFar(c, sin, i, index, captures, orbit)
    {
      t := t + ParameterStep;
      var p := Evaluate(c, sin, t);
      assert p == SamplePoint(c, sin, i);
      AnchorsStep(c, sin, i, samples, anchors);
      OrbitStep(c, sin, i, index, captures, orbit);
      if i % 10 == 0 {
        samples := samples + [i];
        anchors := anchors + [p];
      }
      if index == Steps - 1 {
        index := 0;
      }
      if index == i {
        captures := captures + [i];
        orbit := p;
      }
      i := i + 1;
    }
    assert samples == Rods.AnchorIndices(Steps);
  }

  /** The whole of `draw` without its canvas calls: the sample loop, the
      index increment, the rod loop and the phase step, in source order. */
  method DrawFrame(c: Curve, sin: real -> real) returns (r: Drawn)
    ensures r == Step(c, sin)
  {
    var samples, anchors, captures, index, orbit, t := SampleLoop(c, sin);
    index := index + 1;
    var rods := Rods.RodSegments(anchors);
    var angle := c.rotationAngle + RotationStep;
    if angle > PhaseMax {
      angle := PhaseMin;
    }
    r := Drawn(c.(rotationAngle := angle, parameter := t, orbit := OrbitalPoint(index, orbit.x, orbit.y)),
               Frame(samples, anchors, captures, rods));
    var spec := Step(c, sin);
    assert anchors == spec.frame.anchors;
    assert r.curve.orbit == spec.curve.orbit;
  }
}
