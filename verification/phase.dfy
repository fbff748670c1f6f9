/** Stepping and wrapping of a curve's rotation angle (its phase shift).

    Each frame adds RotationStep to the angle; an angle that then exceeds
    PhaseMax is put back to PhaseMin.  Arithmetic is exact: the rounding that
    accumulates when 0.01 is added repeatedly in floating point is not
    modelled.
 */
module Phase {
  import opened Lissajous

  /** Number of frames after which the angle returns to its start. */
  const PhasePeriod: nat := 629

  /** The angle after one frame. */
  function NextPhase(p: real): (r: real)
    ensures r == p + RotationStep || r == PhaseMin
    ensures r <= PhaseMax
    ensures PhaseMin <= p ==> PhaseMin <= r
    ensures r < p <==> p + RotationStep > PhaseMax
    // it rises whenever the raised angle is still in range, and wraps otherwise
    ensures p + RotationStep <= PhaseMax ==> r == p + RotationStep
    ensures p + RotationStep > PhaseMax ==> r == PhaseMin
  {
    if p + RotationStep > PhaseMax then PhaseMin else p + RotationStep
  }

  /** The angle after `n` frames of a freshly built curve. */
  function PhaseAfter(n: nat): (r: real)
    ensures PhaseMin <= r <= PhaseMax
  {
    if n == 0 then PhaseMin else NextPhase(PhaseAfter(n - 1))
  }

  /** During the first 629 frames the angle rises by exactly RotationStep
      per frame. */
  lemma {:induction false} PhaseRamp(n: nat)
    requires n < PhasePeriod
    ensures PhaseAfter(n) == PhaseMin + n as real * RotationStep
  {
    if n > 0 {
      PhaseRamp(n - 1);
    }
  }

  /** Frame 629 is the first at which the angle wraps, back to its start. */
  lemma FirstWrap()
    ensures PhaseAfter(PhasePeriod) == PhaseMin
    ensures forall n :: 0 < n < PhasePeriod ==> PhaseAfter(n) > PhaseAfter(n - 1)
  {
    PhaseRamp(PhasePeriod - 1);
    forall n | 0 < n < PhasePeriod
      ensures PhaseAfter(n) > PhaseAfter(n - 1)
    {
      PhaseRamp(n);
      PhaseRamp(n - 1);
    }
  }

  lemma {:induction false} PhasePeriodic(n: nat)
    ensures PhaseAfter(n + PhasePeriod) == PhaseAfter(n)
  {
    if n == 0 {
      FirstWrap();
    } else {
      PhasePeriodic(n - 1);
    }
  }

  lemma ModShift629(p: nat)
    ensures (p + 629) % 629 == p % 629
  {
  }

  /** After n frames the angle has advanced by n * RotationStep, taken modulo
      the wrap rule. */
  lemma {:induction false} PhaseSchedule(n: nat)
    ensures PhaseAfter(n) == PhaseMin + (n % PhasePeriod) as real * RotationStep
    decreases n
  {
    if n < PhasePeriod {
      PhaseRamp(n);
      assert n % PhasePeriod == n;
    } else {
      var p := n - PhasePeriod;
      PhasePeriodic(p);
      PhaseSchedule(p);
      ModShift629(p);
    }
  }
}
