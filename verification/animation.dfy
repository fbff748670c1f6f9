/** The collection of curves over a run of the animation: every frame draws
    each curve in turn, and every window resize is forwarded to each curve.
    Resizes arrive between frames, never during one.
 */
module Animation {
  import opened Lissajous
  import Draw
  import Resize
  import Orbit
  import Phase
  import Setup

  datatype Event = Tick | WindowResized(width: real, height: real)

  /** What holds of every curve between events. */
  predicate Good(c: Curve)
  {
    Valid(c) && Centered(c) && SizeNonZero(c)
  }

  predicate AllGood(curves: seq<Curve>)
  {
    forall i :: 0 <= i < |curves| ==> Good(curves[i])
  }

  predicate NonZeroEvent(e: Event)
  {
    e.WindowResized? ==> e.width != 0.0 && e.height != 0.0
  }

  /** Every resize in `events` reports a size that can be divided by. */
  predicate ResizesNonZero(events: seq<Event>)
  {
    forall k :: 0 <= k < |events| ==> NonZeroEvent(events[k])
  }

  lemma TailResizesNonZero(events: seq<Event>)
    requires |events| > 0 && ResizesNonZero(events)
    ensures NonZeroEvent(events[0]) && ResizesNonZero(events[1..])
  {
    forall k | 0 <= k < |events[1..]|
      ensures NonZeroEvent(events[1..][k])
    {
      assert events[1..][k] == events[k + 1];
    }
  }

  /** Number of frames among `events`. */
  function Ticks(events: seq<Event>): nat
  {
    if |events| == 0 then 0 else (if events[0].Tick? then 1 else 0) + Ticks(events[1..])
  }

  /** One event as one curve sees it. */
  function ApplyOne(c: Curve, sin: real -> real, e: Event): (r: Curve)
    requires Good(c) && NonZeroEvent(e)
    ensures Good(r)
  {
    match e
    case Tick => Draw.NextCurve(c, sin)
    case WindowResized(w, h) => Resize.ResizeKeepsCentered(c, w, h); Resize.Resize(c, w, h)
  }

  /** One event forwarded to every curve, in order. */
  function Apply(curves: seq<Curve>, sin: real -> real, e: Event): (r: seq<Curve>)
    requires AllGood(curves) && NonZeroEvent(e)
    ensures |r| == |curves|
    ensures forall i :: 0 <= i < |r| ==> r[i] == ApplyOne(curves[i], sin, e)
    ensures AllGood(r)
  {
    seq(|curves|, i requires 0 <= i < |curves| => ApplyOne(curves[i], sin, e))
  }

  /** The curves after `events`, in order. */
  function Run(curves: seq<Curve>, sin: real -> real, events: seq<Event>): (r: seq<Curve>)
    requires AllGood(curves) && ResizesNonZero(events)
    ensures |r| == |curves|
    ensures AllGood(r)
    decreases |events|
  {
    if |events| == 0 then curves
    else
      TailResizesNonZero(events);
      Run(Apply(curves, sin, events[0]), sin, events[1..])
  }

  /** One curve after `events`. */
  function RunCurve(c: Curve, sin: real -> real, events: seq<Event>): (r: Curve)
    requires Good(c) && ResizesNonZero(events)
    ensures Good(r)
    decreases |events|
  {
    if |events| == 0 then c
    else
      TailResizesNonZero(events);
      RunCurve(ApplyOne(c, sin, events[0]), sin, events[1..])
  }

  /** Curves never read each other: forwarding each event to every curve
      leaves each curve where running it alone through the events would. */
  lemma {:induction false} RunPerCurve(curves: seq<Curve>, sin: real -> real, events: seq<Event>, i: nat)
    requires AllGood(curves) && ResizesNonZero(events) && i < |curves|
    ensures Run(curves, sin, events)[i] == RunCurve(curves[i], sin, events)
    decreases |events|
  {
    if |events| > 0 {
      TailResizesNonZero(events);
      var next := Apply(curves, sin, events[0]);
      RunPerCurve(next, sin, events[1..], i);
    }
  }

  /** The curve shows the angle and orbit index reached after `n` frames. */
  predicate OnClock(c: Curve, n: nat)
  {
    c.rotationAngle == Phase.PhaseAfter(n) && c.orbit.index == Orbit.IndexAfter(n, Steps)
  }

  /** A frame advances the angle and the orbit index by one step; a resize
      leaves them alone. */
  lemma ApplyOneClock(c: Curve, sin: real -> real, e: Event, n: nat)
    requires Good(c) && NonZeroEvent(e) && OnClock(c, n)
    ensures OnClock(ApplyOne(c, sin, e), if e.Tick? then n + 1 else n)
  {
  }

  /** Frames alone drive the phase and the orbit index: after any mix of
      frames and resizes, a curve's angle and index are those reached by
      counting the frames only. */
  lemma {:induction false} RunClock(c: Curve, sin: real -> real, events: seq<Event>, n: nat)
    requires Good(c) && ResizesNonZero(events) && OnClock(c, n)
    ensures OnClock(RunCurve(c, sin, events), n + Ticks(events))
    decreases |events|
  {
    if |events| > 0 {
      TailResizesNonZero(events);
      ApplyOneClock(c, sin, events[0], n);
      RunClock(ApplyOne(c, sin, events[0]), sin, events[1..], if events[0].Tick? then n + 1 else n);
    }
  }

  /** The ten curves built for a screen stay valid and centred through any
      run; after a run holding N frames each one's angle is the start angle
      plus (N mod 629) steps and its orbit index is that of N frames. */
  lemma CurvesThroughRun(w: real, h: real, sin: real -> real, events: seq<Event>, i: nat)
    requires w != 0.0 && h != 0.0 && ResizesNonZero(events) && i < Setup.NumOfNestedCurves
    ensures AllGood(Setup.CreateCurves(w, h))
    ensures Valid(Run(Setup.CreateCurves(w, h), sin, events)[i])
    ensures Centered(Run(Setup.CreateCurves(w, h), sin, events)[i])
    ensures OnClock(Run(Setup.CreateCurves(w, h), sin, events)[i], Ticks(events))
    ensures Run(Setup.CreateCurves(w, h), sin, events)[i].rotationAngle ==
      PhaseMin + (Ticks(events) % Phase.PhasePeriod) as real * RotationStep
  {
    var curves := Setup.CreateCurves(w, h);
    assert OnClock(curves[i], 0);
    RunPerCurve(curves, sin, events, i);
    RunClock(curves[i], sin, events, 0);
    Phase.PhaseSchedule(Ticks(events));
  }
}
