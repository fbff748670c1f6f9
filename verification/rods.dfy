/** The rods: line segments drawn between sparse samples of the curve.

    Every 10th sample of a frame is kept as a rod anchor.  The rod loop then
    walks k = 0, 1, ... over the anchors, joins anchor k to anchor len-1-k and
    to anchor len-5-k, and leaves after the first k that exceeds len/2 (or
    when k reaches len).  Reading an anchor at a negative index yields no
    point, and drawing from it fails; RodSegments reports that as None.
 */
module Rods {
  import opened Lissajous

  datatype Option<T> = None | Some(value: T)

  datatype Segment = Segment(from: Point, to: Point)

  /** Number of samples among 0 .. step - 1 that are anchors. */
  function AnchorCount(step: nat): nat
  {
    (step + 9) / 10
  }

  /** The sample indices kept as anchors, in the order they are kept. */
  function AnchorIndices(step: nat): (r: seq<nat>)
    ensures |r| == AnchorCount(step)
    ensures forall k :: 0 < k < |r| ==> r[k - 1] < r[k]
  {
    seq(AnchorCount(step), k => 10 * k)
  }

  /** The anchors are exactly the samples whose index is a multiple of 10. */
  lemma AnchorIndicesSelect(step: nat)
    ensures forall i :: i in AnchorIndices(step) <==> 0 <= i < step && i % 10 == 0
  {
    var a := AnchorIndices(step);
    forall i | 0 <= i < step && i % 10 == 0
      ensures i in a
    {
      assert a[i / 10] == i;
    }
  }

  /** With 629 samples there are 63 anchors, at samples 0, 10, ..., 620. */
  lemma AnchorsOfCurve()
    ensures |AnchorIndices(Steps)| == 63
    ensures AnchorIndices(Steps)[62] == 620
  {
  }

  /** The anchor index pairs the rod loop joins, from iteration `k` on, for
      `len` anchors; two pairs per iteration. */
  function RodLoop(len: nat, k: nat): (r: seq<(int, int)>)
    // iteration k, when it runs, first joins anchor k to its mirror
    ensures k < len ==> |r| >= 2 && r[0] == (k, len - 1 - k)
    ensures k >= len ==> r == []
    decreases len - k
  {
    if k >= len then []
    else [(k, len - 1 - k), (k, len - 5 - k)] + (if 2 * k > len then [] else RodLoop(len, k + 1))
  }

  function RodPairs(len: nat): (r: seq<(int, int)>)
    // the first rod joins the first anchor to the last; no anchors, no rods
    ensures len > 0 ==> |r| >= 2 && r[0] == (0, len - 1)
    ensures len == 0 ==> r == []
  {
    RodLoop(len, 0)
  }

  /** The last iteration the rod loop runs: the first k above len/2, unless
      the anchors run out first; -1 when there are no anchors. */
  function LastRodIteration(len: nat): int
  {
    if len == 0 then -1
    else if len - 1 < len / 2 + 1 then len - 1
    else len / 2 + 1
  }

  /** Pair number `j` emitted by the rod loop when it starts at iteration
      `k`: iteration k + j/2 joins anchor k + j/2 first to the anchor at the
      mirrored position len-1-(k + j/2), then to the one four places before it. */
  function RodPairAt(len: int, k: int, j: nat): (int, int)
  {
    var m := k + j / 2;
    if j % 2 == 0 then (m, len - 1 - m) else (m, len - 5 - m)
  }

  /** Pair j + 2 from iteration k is pair j from iteration k + 1. */
  lemma RodPairAtShift(len: int, k: int, j: nat)
    requires j >= 2
    ensures RodPairAt(len, k + 1, j - 2) == RodPairAt(len, k, j)
  {
    assert (j - 2) / 2 == j / 2 - 1 && (j - 2) % 2 == j % 2;
  }

  lemma {:induction false} RodLoopShape(len: nat, k: nat)
    requires k <= LastRodIteration(len)
    ensures |RodLoop(len, k)| == 2 * (LastRodIteration(len) + 1 - k)
    ensures forall j :: 0 <= j < |RodLoop(len, k)| ==> RodLoop(len, k)[j] == RodPairAt(len, k, j)
    decreases len - k
  {
    var last := LastRodIteration(len);
    var s := RodLoop(len, k);
    if k < last {
      assert 2 * k <= len;
      RodLoopShape(len, k + 1);
      var rest := RodLoop(len, k + 1);
      assert s == [(k, len - 1 - k), (k, len - 5 - k)] + rest;
      forall j | 2 <= j < |s|
        ensures s[j] == RodPairAt(len, k, j)
      {
        RodPairAtShift(len, k, j);
        assert s[j] == rest[j - 2];
      }
    } else if 2 * k <= len {
      assert RodLoop(len, k + 1) == [];
    }
  }

  /** The rod loop joins anchors k and len-1-k, then k and len-5-k, for every
      k from 0 to LastRodIteration(len). */
  lemma RodPairsShape(len: nat)
    ensures |RodPairs(len)| == 2 * (LastRodIteration(len) + 1)
    ensures forall j :: 0 <= j < |RodPairs(len)| ==> RodPairs(len)[j] == RodPairAt(len, 0, j)
  {
    if len > 0 {
      RodLoopShape(len, 0);
    }
  }

  predicate PairsInBounds(ps: seq<(int, int)>, len: nat)
  {
    forall j :: 0 <= j < |ps| ==> 0 <= ps[j].0 < len && 0 <= ps[j].1 < len
  }

  /** Every anchor the rod loop reads exists exactly when there are none at
      all or at least 11 of them. */
  lemma RodPairsInBounds(len: nat)
    ensures PairsInBounds(RodPairs(len), len) <==> len == 0 || len >= 11
  {
    RodPairsShape(len);
    var ps := RodPairs(len);
    var last := LastRodIteration(len);
    if 0 < len < 11 {
      assert ps[2 * last + 1] == RodPairAt(len, 0, 2 * last + 1);
    } else if len >= 11 {
      forall j | 0 <= j < |ps|
        ensures 0 <= ps[j].0 < len && 0 <= ps[j].1 < len
      {
        assert ps[j] == RodPairAt(len, 0, j);
      }
    }
  }

  /** The curve's 63 anchors: the loop runs k = 0 .. 32 and stays in bounds. */
  lemma RodPairsOfCurve()
    ensures LastRodIteration(63) == 32
    ensures |RodPairs(63)| == 66
    ensures PairsInBounds(RodPairs(63), 63)
  {
    RodPairsShape(63);
    RodPairsInBounds(63);
  }

  /** The rods drawn between `anchors`, or None when the loop reads an anchor
      that does not exist. */
  function RodSegments(anchors: seq<Point>): (r: Option<seq<Segment>>)
    ensures r.Some? <==> |anchors| == 0 || |anchors| >= 11
    ensures r.Some? ==> |r.value| == |RodPairs(|anchors|)|
    ensures r.Some? ==> forall j :: 0 <= j < |r.value| ==>
      0 <= RodPairs(|anchors|)[j].0 < |anchors| && 0 <= RodPairs(|anchors|)[j].1 < |anchors| &&
      r.value[j] == Segment(anchors[RodPairs(|anchors|)[j].0], anchors[RodPairs(|anchors|)[j].1])
  {
    var ps := RodPairs(|anchors|);
    RodPairsInBounds(|anchors|);
    if PairsInBounds(ps, |anchors|) then
      Some(seq(|ps|, j requires 0 <= j < |ps| => Segment(anchors[ps[j].0], anchors[ps[j].1])))
    else
      None
  }
}
