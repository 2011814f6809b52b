/**
 * Step 1 of the finished twist chain (Assets/Constraints/TwistChainStep1.cs):
 * no steps are stored; joint i of N is blended with the index weight
 * `InverseLerp(0, N - 1, i)`, and the job has no weight gate.
 */
module TwistChainStep1 {
  import opened Wrappers
  import opened Transforms
  import opened ArcLength
  import opened Animation
  import opened TwistBlend
  import ConstraintsUtils

  datatype TwistChainStep1Data = TwistChainStep1Data(
    root: Option<Node>,
    tip: Option<Node>,
    rootTarget: Option<Node>,
    tipTarget: Option<Node>)

  /** Every reference is set and `tip` lies under `root`. */
  function IsValid(h: Hierarchy, data: TwistChainStep1Data): (ok: bool)
    requires h.Valid()
    ensures ok <==> data.root.Some? && data.tip.Some? && data.rootTarget.Some? && data.tipTarget.Some?
                    && IsChildOf(h, data.tip.value, data.root.value)
    ensures ok ==> var chain := Path(h, data.root.value, data.tip.value);
                   chain[0] == data.root.value && chain[|chain| - 1] == data.tip.value && Linked(h, chain)
  {
    var ok := !(data.root.None? || data.tip.None? || !IsChildOf(h, data.tip.value, data.root.value)
                || data.rootTarget.None? || data.tipTarget.None?);
    if ok then PathLinkedAndDistinct(h, data.root.value, data.tip.value); ok else ok
  }

  /** No transforms; never valid. */
  function SetDefaultValues(): (data: TwistChainStep1Data)
    ensures data.root.None? && data.tip.None? && data.rootTarget.None? && data.tipTarget.None?
    ensures forall h: Hierarchy :: h.Valid() ==> !IsValid(h, data)
  {
    TwistChainStep1Data(None, None, None, None)
  }

  /** `Mathf.InverseLerp(a, b, value)`: where `value` lies from `a` to `b`, clamped; 0 when `a == b`. */
  function InverseLerp(a: real, b: real, value: real): (t: real)
    ensures 0.0 <= t <= 1.0
    ensures a == b ==> t == 0.0
    ensures a < b && a <= value <= b ==> t == (value - a) / (b - a)
  {
    if a != b then
      var r := (value - a) / (b - a);
      assert a < b && a <= value <= b ==> 0.0 <= r <= 1.0 by {
        if a < b && a <= value <= b {
          DivideInUnitRange(value - a, b - a);
        }
      }
      Clamp01(r)
    else 0.0
  }

  /** The weight table the job's loop computes for a chain of `count` joints. */
  function IndexWeights(count: nat): (weights: seq<real>)
    ensures |weights| == count
    ensures InUnitRange(weights)
  {
    seq(count, i requires 0 <= i < count => InverseLerp(0.0, (count - 1) as real, i as real))
  }

  /** Joint i of a chain of N >= 2 joints gets i / (N - 1). */
  lemma IndexWeightAt(count: nat, i: nat)
    requires 2 <= count && i < count
    ensures IndexWeights(count)[i] == i as real / (count - 1) as real
    ensures i == count - 1 ==> IndexWeights(count)[i] == 1.0
  {
    var d := (count - 1) as real;
    DivideInUnitRange(i as real, d);
    assert d / d == 1.0;
  }

  /**
   * Joint i of a chain of N >= 2 joints gets i / (N - 1): 0 at the root, 1 at
   * the tip, evenly spaced and non-decreasing. A single joint gets 0.
   */
  lemma IndexWeightsShape(count: nat)
    ensures count == 1 ==> IndexWeights(count) == [0.0]
    ensures count >= 2 ==> forall i :: 0 <= i < count ==> IndexWeights(count)[i] == i as real / (count - 1) as real
    ensures count >= 2 ==> IndexWeights(count)[0] == 0.0 && IndexWeights(count)[count - 1] == 1.0
    ensures NonDecreasing(IndexWeights(count))
  {
    var w := IndexWeights(count);
    if count >= 2 {
      forall i | 0 <= i < count ensures w[i] == i as real / (count - 1) as real {
        IndexWeightAt(count, i);
      }
      IndexWeightAt(count, count - 1);
      forall i, j | 0 <= i <= j < count ensures w[i] <= w[j] {
        IndexWeightsMonotone(count, i, j);
      }
    }
  }

  lemma IndexWeightsMonotone(count: nat, i: nat, j: nat)
    requires 2 <= count && i <= j < count
    ensures IndexWeights(count)[i] <= IndexWeights(count)[j]
  {
    IndexWeightAt(count, i);
    IndexWeightAt(count, j);
    DivideMonotone(i as real, j as real, (count - 1) as real);
  }

  /** Sum of lengths [0, L, L, ...] up to joint k: L for every joint after the root. */
  lemma {:induction false} SumEqualSegments(lengths: seq<real>, segment: real, k: nat)
    requires |lengths| >= 1 && lengths[0] == 0.0
    requires forall i :: 1 <= i < |lengths| ==> lengths[i] == segment
    requires k < |lengths|
    ensures Sum(lengths[..k + 1]) == k as real * segment
  {
    if k == 0 {
      assert lengths[..1] == [0.0] && [0.0][..0] == [];
    } else {
      SumEqualSegments(lengths, segment, k - 1);
      assert lengths[..k + 1][..k] == lengths[..k];
      assert Sum(lengths[..k + 1]) == Sum(lengths[..k]) + segment;
    }
  }

  /** i segments over `last` segments of one positive length is i / last. */
  lemma SegmentRatio(i: nat, last: nat, segment: real)
    requires 1 <= last && i <= last && segment > 0.0
    ensures last as real * segment > 0.0
    ensures (i as real * segment) / (last as real * segment) == i as real / last as real
  {
    var q := i as real / last as real;
    assert i as real == q * last as real;
    assert i as real * segment == q * (last as real * segment);
  }

  /** The arc-length step of joint i on equal segments is i / (N - 1). */
  lemma EqualSegmentsStepAt(lengths: seq<real>, segment: real, i: nat)
    requires |lengths| >= 2 && lengths[0] == 0.0 && segment > 0.0
    requires forall k :: 1 <= k < |lengths| ==> lengths[k] == segment
    requires i < |lengths|
    ensures Sum(lengths) > 0.0
    ensures Steps(lengths)[i] == i as real / (|lengths| - 1) as real
  {
    var last := |lengths| - 1;
    SumEqualSegments(lengths, segment, last);
    assert lengths[..last + 1] == lengths;
    SumEqualSegments(lengths, segment, i);
    SegmentRatio(i, last, segment);
  }

  /**
   * On a chain whose segments all have one positive length, the arc-length
   * steps of the other variants are exactly this variant's index weights.
   */
  lemma EqualSegmentsStepsAreIndexWeights(lengths: seq<real>, segment: real)
    requires |lengths| >= 2 && lengths[0] == 0.0 && segment > 0.0
    requires forall i :: 1 <= i < |lengths| ==> lengths[i] == segment
    ensures Sum(lengths) > 0.0
    ensures Steps(lengths) == IndexWeights(|lengths|)
  {
    var n := |lengths|;
    EqualSegmentsStepAt(lengths, segment, 0);
    IndexWeightsShape(n);
    forall i | 0 <= i < n ensures Steps(lengths)[i] == IndexWeights(n)[i] {
      EqualSegmentsStepAt(lengths, segment, i);
    }
  }

  class TwistChainStep1Job {
    const chain: array<Node>
    const rootTarget: Node
    const tipTarget: Node

    ghost predicate Valid() {
      chain.Length >= 1
    }

    constructor (count: nat, rootTarget: Node, tipTarget: Node)
      requires count >= 1
      ensures Valid() && chain.Length == count && fresh(chain)
      ensures this.rootTarget == rootTarget && this.tipTarget == tipTarget
    {
      chain := new Node[count];
      this.rootTarget := rootTarget;
      this.tipTarget := tipTarget;
    }

    /**
     * One frame, at any weight `w`: joint i is blended toward
     * `Lerp(rootRot, tipRot, InverseLerp(0, N - 1, i))` by `w`, in index order,
     * then the targets follow the chain ends.
     */
    method ProcessAnimation(stream: AnimationStream, w: real, qlerp: QuatLerp)
      requires Valid()
      requires stream.Binds(rootTarget) && stream.Binds(tipTarget)
      requires forall i :: 0 <= i < chain.Length ==> stream.Binds(chain[i])
      modifies stream
      ensures old(AllBound(chain[..], stream.rotation))
              && stream.rotation == BlendedRotations(old(stream.rotation), chain[..], IndexWeights(chain.Length),
                                                     old(stream.rotation[rootTarget]),
                                                     old(stream.rotation[tipTarget]), w, qlerp)
      ensures old(stream.Binds(chain[0]) && stream.Binds(chain[chain.Length - 1]))
              && stream.position == TrackTargets(old(stream.position), rootTarget, tipTarget,
                                                 chain[0], chain[chain.Length - 1])
    {
      assert AllBound(chain[..], stream.rotation) by {
        forall i | 0 <= i < chain.Length ensures chain[..][i] in stream.rotation {
          assert stream.Binds(chain[i]);
        }
      }
      var rootRotation := stream.GetRotation(rootTarget);
      var tipRotation := stream.GetRotation(tipTarget);
      ghost var weights := IndexWeights(chain.Length);

      for i := 0 to chain.Length
        invariant stream.rotation == BlendedRotations(old(stream.rotation), chain[..i], weights[..i],
                                                      rootRotation, tipRotation, w, qlerp)
        invariant stream.position == old(stream.position)
      {
        BlendedRotationsStep(old(stream.rotation), chain[..], weights, i, rootRotation, tipRotation, w, qlerp);
        var weight := InverseLerp(0.0, (chain.Length - 1) as real, i as real);
        var current := stream.GetRotation(chain[i]);
        stream.SetRotation(chain[i], qlerp(current, qlerp(rootRotation, tipRotation, weight), w));
      }
      assert chain[..chain.Length] == chain[..] && weights[..chain.Length] == weights;

      var first := stream.GetPosition(chain[0]);
      stream.SetPosition(rootTarget, first);
      var last := stream.GetPosition(chain[chain.Length - 1]);
      stream.SetPosition(tipTarget, last);
    }
  }

  /** Binds one handle per joint of the extracted chain, in order. */
  method Create(h: Hierarchy, data: TwistChainStep1Data) returns (job: TwistChainStep1Job)
    requires h.Valid() && IsValid(h, data)
    ensures fresh(job) && fresh(job.chain) && job.Valid()
    ensures job.chain[..] == Path(h, data.root.value, data.tip.value)
    ensures job.rootTarget == data.rootTarget.value && job.tipTarget == data.tipTarget.value
  {
    var chain := ConstraintsUtils.ExtractChain(h, data.root.value, data.tip.value);

    job := new TwistChainStep1Job(|chain|, data.rootTarget.value, data.tipTarget.value);
    for i := 0 to |chain|
      invariant job.chain[..i] == chain[..i]
    {
      job.chain[i] := chain[i];
      assert job.chain[..i + 1] == job.chain[..i] + [chain[i]];
    }
    assert job.chain[..] == job.chain[..|chain|];
  }

  /** `Update` is empty: the bound chain stays as it was. */
  method Update(job: TwistChainStep1Job, data: TwistChainStep1Data)
    ensures unchanged(job.chain)
  {
  }
}
