/** The orbit-index state machine of the per-frame sample loop.

    Before a frame the curve stores an index `s`.  The loop runs over the
    samples i = 0 .. step - 1 and, in each iteration, first resets the index
    to 0 if it equals step - 1, then captures sample i as the orbit point if
    the index equals i.  After the loop the index is incremented once.
    The functions here are stated for any sample count `step`; a curve uses
    step = 629.
 */
module Orbit {

  /** The samples at which one frame writes the orbit point, in loop order. */
  function Captures(s: int, step: nat): (r: seq<nat>)
    ensures |r| <= 1
    ensures forall k :: 0 <= k < |r| ==> r[k] < step
    ensures step >= 2 && 0 <= s < step ==> |r| == 1 && r[0] <= step - 2
    ensures step >= 2 && 0 <= s < step - 1 ==> r == [s]
    ensures step >= 2 && s == step - 1 ==> r == [0]
  {
    if step == 0 then []
    else if s == step - 1 then [0]
    else if 0 <= s < step then [s]
    else []
  }

  /** The index the loop leaves behind: the reset of the first iteration is
      the only one that can fire, since the index is never changed otherwise. */
  function IndexAfterLoop(s: int, step: nat): (r: int)
    ensures r != s ==> s == step - 1 && r == 0
    ensures step >= 2 && 0 <= s < step ==> 0 <= r <= step - 2
  {
    if step > 0 && s == step - 1 then 0 else s
  }

  /** The index stored for the next frame. */
  function NextIndex(s: int, step: nat): (r: int)
    ensures step >= 2 && 0 <= s < step ==> 1 <= r <= step - 1
    ensures step >= 2 && 0 <= s < step ==> Captures(s, step) == [r - 1]
  {
    IndexAfterLoop(s, step) + 1
  }

  /** The index stored after `n` frames of a freshly built curve. */
  function IndexAfter(n: nat, step: nat): (r: int)
    ensures step >= 2 ==> 0 <= r < step
    ensures step >= 2 && n >= 1 ==> r >= 1
  {
    if n == 0 then 0 else NextIndex(IndexAfter(n - 1, step), step)
  }

  /** The samples captured by frame `n` (counting from 0) of a fresh curve. */
  function CaptureAt(n: nat, step: nat): seq<nat>
  {
    Captures(IndexAfter(n, step), step)
  }

  /** During the first pass the stored index simply counts the frames. */
  lemma {:induction false} IndexAfterCounts(n: nat, step: nat)
    requires step >= 2 && n < step
    ensures IndexAfter(n, step) == n
  {
    if n > 0 {
      IndexAfterCounts(n - 1, step);
    }
  }

  /** From the first frame on, the stored index repeats every step - 1 frames:
      it runs 1, 2, ..., step - 1 and then starts over at 1. */
  lemma {:induction false} IndexAfterPeriodic(n: nat, step: nat)
    requires step >= 2 && n >= 1
    ensures IndexAfter(n + (step - 1), step) == IndexAfter(n, step)
  {
    if n == 1 {
      IndexAfterCounts(step - 1, step);
    } else {
      IndexAfterPeriodic(n - 1, step);
    }
  }

  /** The captured sample index repeats every step - 1 frames.  The orbit
      point's coordinates need not: they also depend on the angle, whose
      period differs. */
  lemma {:induction false} CaptureAtPeriodic(n: nat, step: nat)
    requires step >= 2
    ensures CaptureAt(n + (step - 1), step) == CaptureAt(n, step)
  {
    if n == 0 {
      IndexAfterCounts(step - 1, step);
    } else {
      IndexAfterPeriodic(n, step);
    }
  }

  lemma ModShift628(p: nat)
    ensures (p + 628) % 628 == p % 628
  {
  }

  /** With the curve's 629 samples, frame n captures exactly one sample,
      sample n mod 628; the last sample, 628, is never captured. */
  lemma {:induction false} CaptureSchedule(n: nat)
    ensures CaptureAt(n, 629) == [n % 628]
    decreases n
  {
    if n < 628 {
      IndexAfterCounts(n, 629);
      assert n % 628 == n;
    } else {
      var p := n - 628;
      CaptureAtPeriodic(p, 629);
      CaptureSchedule(p);
      ModShift628(p);
    }
  }
}
