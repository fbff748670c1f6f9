# Nested rotating Lissajous curves — a Dafny model

This project models the animation state behind a page that draws ten nested,
rotating Lissajous curves on a canvas (`app.js`). Each curve is the
parametric curve

    x = relativeWidth  * sin(numHorizontalTangents * t + rotationAngle) + xCoord
    y = relativeHeight * sin(numVerticalTangents * t) + yCoord

sampled 629 times per frame. The model leaves out the drawing. What remains is
the state logic of the `Lissajous` object and of the set-up code:

- `Lissajous` (`lissajous.dfy`) is the curve state. `Curve` carries the object's
  fields. `Evaluate`, `SampleParameter` and `SamplePoint` give the point drawn
  as sample `i`. The parameter is advanced before it is used, so sample `i`
  lies at `t = (i+1)·0.01`.
- `Orbit` (`orbit.dfy`) is the orbit-index state machine of the sample loop.
  In each iteration the reset test (`index == step-1`) runs before the
  capture test (`index == i`). The functions take the sample count `step` as
  a parameter.
- `Phase` (`phase.dfy`) steps the rotation angle and wraps it.
- `Rods` (`rods.dfy`) picks the rod anchors (every 10th sample). It also
  holds the rod loop with its early `break`, and the segments that loop joins.
- `Draw` (`draw.dfy`) is one call of `draw`. `Step` states the frame
  declaratively. `SampleLoop` and `DrawFrame` follow the source loop statement
  by statement and are proved equal to `Step`.
- `Resize` (`resize.dfy`) is `resize`: proportional scaling, then the caps.
- `Setup` (`setup.dfy`) holds the constructor, `getCurveDimensions` and
  `createCurves`. The screen size is an explicit parameter.
- `Animation` (`animation.dfy`) runs a sequence of frames and window resizes
  over the list of curves. It proves that the per-curve invariants hold
  throughout, and that only frames move the phase and the orbit index.

`Math.sin` is the parameter `sin: real -> real` and is never interpreted.
`Math.PI` is the exact real `3.141592653589793`. All arithmetic is exact:
`real` stands for the source's doubles, and `int` for its array indices.

Notes on what the code does, which a quick reading can get wrong:

- **Orbit index.** The orbit index does not cycle through all 629 samples.
  A stored index of 628 makes the frame capture sample 0, because the reset
  runs before the capture test. So sample 628 is never highlighted, and the
  index of the captured sample repeats every 628 frames
  (`Orbit.CaptureSchedule`). The orbit point's coordinates need not repeat
  with it, since they also depend on the angle, whose period is 629.
- **Phase period.** The angle wraps within `[-π+0.5, π+0.5]`, a range of
  width 2π: `deltaAngle` (0.5) shifts the range and does not set its width.
  In exact arithmetic the angle first returns to its start after 629 frames
  (`Phase.FirstWrap`).
- **Rod loop out of bounds.** A rod read at a negative anchor index gets
  `undefined`, and drawing from it throws. The code does not skip that line.
  `Rods.RodSegments` returns `None` in that case. Such an index is read
  exactly when there are between 1 and 10 anchors (`Rods.RodPairsInBounds`).
  It never happens with the 63 anchors of a 629-sample frame.
- **Construction.** The constructor does not check its arguments. It also
  ignores the `rotationAngle` passed to it and always starts at `-π+0.5`.

## Model

| member | source | states |
|---|---|---|
| Lissajous.Evaluate | app.js:85-91 | definition: the parametric point (relativeWidth·sin(numHorizontalTangents·t + rotationAngle) + xCoord, relativeHeight·sin(numVerticalTangents·t) + yCoord) |
| Lissajous.SamplePoint | app.js:83-91 | definition: sample i is evaluated at t = (i+1)·0.01, because the parameter is advanced before use |
| Orbit.IndexAfterLoop | app.js:97-100 | the sample loop changes the stored index only by resetting step-1 to 0, and an in-range index leaves the loop in [0, step-2] |
| Orbit.Captures | app.js:97-105 | for a stored index in range, the frame captures exactly one sample: the stored index, or 0 when it is step-1; the captured sample is never step-1 |
| Orbit.NextIndex | app.js:97-111 | the index stored for the next frame lies in [1, step-1] and is one past the sample this frame captured |
| Orbit.IndexAfter | app.js:42 | starting from 0, the stored index stays in [0, step-1] after any number of frames, and in [1, step-1] after at least one |
| Orbit.IndexAfterCounts | app.js:97-111 | during the first step frames the stored index equals the number of frames drawn |
| Orbit.IndexAfterPeriodic | app.js:97-111 | from the first frame on, the stored index repeats with period step-1 |
| Orbit.CaptureAtPeriodic | app.js:97-111 | the captured sample index repeats with period step-1 frames (the point's coordinates also depend on the angle and are not claimed to repeat) |
| Orbit.CaptureSchedule | app.js:97-111 | with 629 samples, frame n captures exactly sample n mod 628, so sample 628 is never highlighted |
| Phase.NextPhase | app.js:123-127 | the angle rises by exactly 0.01 when the raised value is at most π+0.5 and is reset to -π+0.5 otherwise; it never exceeds π+0.5 and never leaves the range from below |
| Phase.PhaseAfter | app.js:35 | starting at -π+0.5, the angle lies in [-π+0.5, π+0.5] after any number of frames |
| Phase.PhaseRamp | app.js:123-127 | during the first 629 frames the angle is the start plus 0.01 per frame |
| Phase.FirstWrap | app.js:123-127 | the angle rises strictly for 628 frames and frame 629 brings it back to its start |
| Phase.PhasePeriodic | app.js:123-127 | the angle repeats with period 629 frames |
| Phase.PhaseSchedule | app.js:123-127 | after n frames the angle is -π+0.5 + 0.01·(n mod 629) |
| Rods.AnchorIndices | app.js:93-96 | the anchor samples are kept in strictly increasing order, one for every 10 samples rounded up |
| Rods.AnchorIndicesSelect | app.js:83-96 | a sample is an anchor if and only if its index is below the sample count and a multiple of 10 |
| Rods.AnchorsOfCurve | app.js:39 | with 629 samples there are 63 anchors, the last at sample 620 |
| Rods.RodLoop | app.js:114-122 | the rod loop from iteration k starts by joining anchor k to its mirror len-1-k when k is below the anchor count, and emits nothing otherwise |
| Rods.RodPairs | app.js:114-122 | the full rod loop emits no pair without anchors, and otherwise its first rod joins the first anchor to the last |
| Rods.RodLoopShape | app.js:114-122 | the rod loop run from iteration k emits, per iteration j up to the last one, the pairs (j, len-1-j) then (j, len-5-j) |
| Rods.RodPairsShape | app.js:114-122 | the full rod loop emits 2·(last+1) pairs, where the last iteration is the first k above len/2 unless the anchors run out first |
| Rods.RodPairsInBounds | app.js:114-122 | every anchor index the rod loop reads exists if and only if there are no anchors or at least 11 |
| Rods.RodPairsOfCurve | app.js:114-122 | with 63 anchors the loop runs k = 0..32, emits 66 pairs and reads only existing anchors |
| Rods.RodSegments | app.js:114-122 | the rods are drawn if and only if the anchor count is 0 or at least 11; each rod joins the two anchors of its pair |
| Draw.MovedOrbit | app.js:101-105 | the orbit point moves to the last captured sample, stays put without a capture, and its next index is in [1, step-1] for an in-range stored index (the increment at line 111) |
| Draw.Step | app.js:76-128 | one frame: the 63 anchors are the samples whose index is a multiple of 10; an in-range orbit index gives exactly one capture (never sample 628), the orbit point moves there and the index becomes one past it; the angle rises by 0.01 unless that would exceed π+0.5, and wraps to -π+0.5 then; the rod loop stays in bounds and draws its 66 rods between the anchors it pairs (Rods.RodSegments); no other field changes |
| Draw.NextCurve | app.js:97-127 | after a frame the phase has risen by 0.01, or wrapped to -π+0.5 exactly when the raised value would exceed π+0.5; a valid curve stays valid, and only the phase, the parameter and the orbit point change |
| Draw.SampleLoop | app.js:83-106 | the sample loop keeps exactly the anchors, captures and orbit point the declarative frame describes, with the reset tested before the capture |
| Draw.DrawFrame | app.js:76-128 | the statement-by-statement frame computes the same curve and frame as Draw.Step |
| Resize.Resize | app.js:139-162 | the same size leaves the curve unchanged; otherwise the centre scales by the size ratios, the amplitudes scale and are each capped only if they exceed 200 and 200 + heightOffset; nothing else changes |
| Resize.ResizeRoundTrip | app.js:143-151 | resizing to a new size and back restores the curve when no cap fires |
| Resize.ResizeCenterPathIndependent | app.js:143-148 | the centre after two resizes equals the centre after one resize straight to the final size |
| Resize.ResizeKeepsCentered | app.js:143-148 | a curve centred on the screen stays centred after a resize |
| Resize.ResizeClampExample | app.js:150-159 | amplitudes 100 and 100 scaled by 3 and 1 become 200 (capped) and 100 |
| Setup.GetCurveDimensions | app.js:197-206 | the amplitudes scale by actual size over the 1346 by 644 design size, and are returned unchanged on the design screen |
| Setup.NewCurve | app.js:19-43 | a new curve is valid, starts its angle at -π+0.5 whatever angle was passed, copies the geometry, tangents and colour, and starts its orbit point at index 0 and (0, 0) |
| Setup.NestedCurveData | app.js:220-236 | the settings of nested curve j: height offset 10·j, centre at mid-screen, tangents 2:1, colour white, the given screen size |
| Setup.CreateCurves | app.js:207-240 | ten curves; curve j has height offset 10·j, amplitudes 200·W/1346 and (200+10·j)·H/644, centre (W/2, H/2), tangents 2:1; on the design screen the amplitudes are exactly 200 and 200+10·j |
| Setup.AxisScale | app.js:143-151 | on one axis, a design amplitude scaled to size s1 and rescaled to s2 is the amplitude designed for s2, within its design value when s2 is at most the design size; the centre stays mid-screen |
| Setup.ResizeUncapped | app.js:139-162 | a resize in which neither cap fires only scales the centre and the amplitudes and sets the new size |
| Setup.ResizeNested | app.js:139-162 | nested curve j built for one screen and resized to a screen no larger than 1346 by 644 equals nested curve j built for that screen |
| Setup.CreateThenResize | app.js:197-240 | building the ten curves for one screen and resizing them to another (at most 1346 by 644) gives the curves built for the second screen directly |
| Setup.CapOnUnchangedAxis | app.js:152-159 | a cap can fire on an axis whose size did not change, because construction never caps |
| Animation.ApplyOne | app.js:184-187 | a frame or a non-zero resize keeps a curve valid, centred and of non-zero size |
| Animation.Apply | app.js:259-262 | an event is forwarded to every curve in order, and every curve stays valid, centred and of non-zero size |
| Animation.Run | app.js:254-263 | through any sequence of frames and non-zero resizes every curve stays valid, centred and of non-zero size |
| Animation.RunCurve | app.js:254-263 | one curve run alone through any sequence of frames and non-zero resizes stays valid, centred and of non-zero size |
| Animation.RunPerCurve | app.js:184-187 | curves never read each other: forwarding each event to all curves leaves each where running it alone would |
| Animation.ApplyOneClock | app.js:259-262 | a frame advances a curve's angle and orbit index by one step each, and a resize leaves them alone |
| Animation.RunClock | app.js:254-263 | after any mix of frames and resizes, a curve's angle and orbit index are those reached by counting the frames only |
| Animation.CurvesThroughRun | app.js:241-265 | the ten curves built for a screen stay valid and centred through any run, and after N frames each angle is -π+0.5 + 0.01·(N mod 629) |

## Left out

- Canvas calls: `ctx.*`, `drawCircle` (the three concentric circles of radius 1, 3 and 6) and `drawLine`. These are host rendering. The model records the rod anchor pairs, the segments and the orbit point instead.
- `getColor` is a plain accessor for the `color` field and has no separate member.
- Host plumbing: `getBrowserWindowSize`, the canvas size set-up, `updateCanvas`, the `resize` event subscription and `requestAnimationFrame`. Window sizes arrive as the parameters of `Animation.WindowResized` events.
- Frame timing: `deltaTime` is computed but never used, so `Animation` has no timestamps.
- Floating point: `Math.sin` is an uninterpreted parameter, π is an exact real, and the rounding of repeated `+= 0.01` is not modelled. No claim is made about the shape or periodicity of the curve itself.
- `step`, `deltaAngle` and `fillStyle` are per-object fields in the source but never change. They are module constants here, and `fillStyle` is never read.
- Resize.Resize: requires a non-zero stored size whenever the size changes. The source would divide by zero there and store `Infinity` or `NaN`, which `real` cannot represent.
- Animation.Run: requires every resize event to report a non-zero size, for the same reason. Its invariant `Good` also requires a non-zero starting size, and `Animation.CurvesThroughRun` requires one of `Setup.CreateCurves`. The source only divides when the size changes, so frames alone on a zero-size screen would run there without error.
- Rods.RodSegments: when an anchor is missing, the source draws the rods before the failing one and then throws. That exception ends the frame before the phase step and stops the animation loop. The model returns `None` and does not record the partly drawn rods. This never happens with the 63 anchors a frame has.
- Setup.CreateThenResize: stated only for a target screen no larger than 1346 by 644. On a larger screen the caps can fire and the resized curve differs from the one built directly (`Setup.CapOnUnchangedAxis`).
- Orbit.CaptureSchedule: is stated for the source's 629 samples only. The period lemmas before it hold for any sample count of at least 2.
