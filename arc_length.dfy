/**
 * Arc-length parameterisation of a chain and the shaping of its weights:
 * the specification functions that the chain utilities and the twist-chain
 * binders are proved against.
 */
module ArcLength {
  import opened Transforms

  /** Sum of a sequence, accumulated from the front as the source's loops do. */
  function Sum(s: seq<real>): real {
    if s == [] then 0.0 else Sum(s[..|s| - 1]) + s[|s| - 1]
  }

  /** Per-joint segment lengths: 0 for the root, |localPosition| for every other joint. */
  ghost function SegmentLengths(h: Hierarchy, chain: seq<Node>): seq<real> {
    seq(|chain|, i requires 0 <= i < |chain| => if i == 0 then 0.0 else h.Magnitude(chain[i]))
  }

  ghost function TotalLength(h: Hierarchy, chain: seq<Node>): real {
    Sum(SegmentLengths(h, chain))
  }

  /** Step i is the length accumulated up to joint i, over the total. */
  ghost function Steps(lengths: seq<real>): seq<real>
    requires Sum(lengths) > 0.0
  {
    seq(|lengths|, i requires 0 <= i < |lengths| => Sum(lengths[..i + 1]) / Sum(lengths))
  }

  ghost predicate NonNegative(s: seq<real>) {
    forall i :: 0 <= i < |s| ==> s[i] >= 0.0
  }

  ghost predicate InUnitRange(s: seq<real>) {
    forall i :: 0 <= i < |s| ==> 0.0 <= s[i] <= 1.0
  }

  ghost predicate NonDecreasing(s: seq<real>) {
    forall i, j :: 0 <= i <= j < |s| ==> s[i] <= s[j]
  }

  /** Segment lengths start at 0 and are never negative. */
  lemma SegmentLengthsShape(h: Hierarchy, chain: seq<Node>)
    requires h.Valid()
    ensures |SegmentLengths(h, chain)| == |chain|
    ensures |chain| > 0 ==> SegmentLengths(h, chain)[0] == 0.0
    ensures NonNegative(SegmentLengths(h, chain))
  {
    var lengths := SegmentLengths(h, chain);
    forall i | 0 <= i < |chain| ensures lengths[i] >= 0.0 {
      if i > 0 {
        assert h.Magnitude(chain[i]) >= 0.0;
      }
    }
  }

  /** A sum of non-negative terms is non-negative. */
  lemma {:induction false} SumNonNegative(s: seq<real>)
    requires NonNegative(s)
    ensures Sum(s) >= 0.0
    decreases |s|
  {
    if s != [] {
      SumNonNegative(s[..|s| - 1]);
    }
  }

  /** With non-negative terms, a longer prefix never has a smaller sum. */
  lemma {:induction false} SumPrefixMonotone(s: seq<real>, i: nat, j: nat)
    requires NonNegative(s) && i <= j <= |s|
    ensures 0.0 <= Sum(s[..i]) <= Sum(s[..j])
    decreases j
  {
    if i == j {
      SumNonNegative(s[..i]);
    } else {
      assert s[..j][..j - 1] == s[..j - 1];
      SumPrefixMonotone(s, i, j - 1);
    }
  }

  lemma DivideMonotone(a: real, b: real, t: real)
    requires a <= b && t > 0.0
    ensures a / t <= b / t
  {
  }

  lemma DivideInUnitRange(a: real, t: real)
    requires 0.0 <= a <= t && t > 0.0
    ensures 0.0 <= a / t <= 1.0
  {
  }

  /** Every step lies in [0, 1]. */
  lemma StepInUnitRange(lengths: seq<real>, i: nat)
    requires NonNegative(lengths) && Sum(lengths) > 0.0 && i < |lengths|
    ensures 0.0 <= Steps(lengths)[i] <= 1.0
  {
    var total, partial := Sum(lengths), Sum(lengths[..i + 1]);
    SumPrefixMonotone(lengths, i + 1, |lengths|);
    assert lengths[..|lengths|] == lengths;
    assert 0.0 <= partial <= total;
    DivideInUnitRange(partial, total);
    assert Steps(lengths)[i] == partial / total;
  }

  /** Steps never decrease from root to tip. */
  lemma StepsMonotone(lengths: seq<real>, i: nat, j: nat)
    requires NonNegative(lengths) && Sum(lengths) > 0.0 && i <= j < |lengths|
    ensures Steps(lengths)[i] <= Steps(lengths)[j]
  {
    var total, a, b := Sum(lengths), Sum(lengths[..i + 1]), Sum(lengths[..j + 1]);
    SumPrefixMonotone(lengths, i + 1, j + 1);
    DivideMonotone(a, b, total);
    assert Steps(lengths)[i] == a / total && Steps(lengths)[j] == b / total;
  }

  /** The root's step is 0 and the tip's is 1. */
  lemma StepsEndpoints(lengths: seq<real>)
    requires |lengths| > 0 && lengths[0] == 0.0 && Sum(lengths) > 0.0
    ensures Steps(lengths)[0] == 0.0
    ensures Steps(lengths)[|lengths| - 1] == 1.0
  {
    var n, total := |lengths|, Sum(lengths);
    assert lengths[..1] == [lengths[0]] && [lengths[0]][..0] == [];
    assert Sum(lengths[..1]) == 0.0;
    assert Steps(lengths)[0] == 0.0 / total;
    assert lengths[..n] == lengths;
    assert Steps(lengths)[n - 1] == total / total;
    assert total / total == 1.0;
  }

  /**
   * With a positive total length, root length 0 and non-negative segments, the
   * steps are a non-decreasing sequence in [0, 1] from 0 at the root to 1 at the tip.
   */
  lemma StepsShape(lengths: seq<real>)
    requires |lengths| > 0 && lengths[0] == 0.0 && NonNegative(lengths)
    requires Sum(lengths) > 0.0
    ensures |Steps(lengths)| == |lengths|
    ensures Steps(lengths)[0] == 0.0
    ensures Steps(lengths)[|lengths| - 1] == 1.0
    ensures NonDecreasing(Steps(lengths))
    ensures InUnitRange(Steps(lengths))
  {
    var steps := Steps(lengths);
    StepsEndpoints(lengths);
    forall i, j | 0 <= i <= j < |steps| ensures steps[i] <= steps[j] {
      StepsMonotone(lengths, i, j);
    }
    forall i | 0 <= i < |steps| ensures 0.0 <= steps[i] <= 1.0 {
      StepInUnitRange(lengths, i);
    }
  }

  /** The steps of a chain whose total length is positive have the shape above. */
  lemma ChainStepsShape(h: Hierarchy, chain: seq<Node>)
    requires h.Valid() && |chain| > 0 && TotalLength(h, chain) > 0.0
    ensures |Steps(SegmentLengths(h, chain))| == |chain|
    ensures Steps(SegmentLengths(h, chain))[0] == 0.0
    ensures Steps(SegmentLengths(h, chain))[|chain| - 1] == 1.0
    ensures NonDecreasing(Steps(SegmentLengths(h, chain)))
    ensures InUnitRange(Steps(SegmentLengths(h, chain)))
  {
    SegmentLengthsShape(h, chain);
    StepsShape(SegmentLengths(h, chain));
  }

  /** Unity's `Mathf.Clamp01`. */
  function Clamp01(x: real): (r: real)
    ensures 0.0 <= r <= 1.0
    ensures 0.0 <= x <= 1.0 ==> r == x
    ensures x < 0.0 ==> r == 0.0
    ensures x > 1.0 ==> r == 1.0
  {
    if x < 0.0 then 0.0 else if x > 1.0 then 1.0 else x
  }

  /** The shaped weight table: each step mapped through the curve and clamped to [0, 1]. */
  ghost function Weights(curve: real -> real, steps: seq<real>): (weights: seq<real>)
    ensures |weights| == |steps|
    ensures InUnitRange(weights)
  {
    seq(|steps|, i requires 0 <= i < |steps| => Clamp01(curve(steps[i])))
  }

  /** An animation curve; `evaluate` is `AnimationCurve.Evaluate`, left uninterpreted. */
  datatype AnimationCurve = AnimationCurve(evaluate: real -> real)

  /**
   * `AnimationCurve.Linear(0, 0, 1, 1)` evaluated at `t`: the identity on [0, 1],
   * held at its end keys outside it.
   */
  function LinearCurve(t: real): (v: real)
    ensures 0.0 <= t <= 1.0 ==> v == t
    ensures 0.0 <= v <= 1.0
  {
    Clamp01(t)
  }

  /** With the linear curve, the weights are the steps themselves. */
  lemma {:induction false} LinearCurveWeightsAreSteps(steps: seq<real>)
    requires InUnitRange(steps)
    ensures Weights(LinearCurve, steps) == steps
  {
    var w := Weights(LinearCurve, steps);
    forall i | 0 <= i < |steps| ensures w[i] == steps[i] {
      assert LinearCurve(steps[i]) == steps[i];
      assert w[i] == Clamp01(LinearCurve(steps[i]));
    }
  }

  /** A weight is the curve value clamped to [0, 1]; a curve value already in range is kept exactly. */
  lemma WeightsClampExactly(curve: real -> real, steps: seq<real>, i: nat)
    requires i < |steps|
    ensures Weights(curve, steps)[i] == Clamp01(curve(steps[i]))
    ensures 0.0 <= curve(steps[i]) <= 1.0 ==> Weights(curve, steps)[i] == curve(steps[i])
  {
  }
}
