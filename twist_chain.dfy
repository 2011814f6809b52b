/**
 * The finished twist-chain constraint of Assets/Constraints/TwistChain.cs: a
 * binder that extracts the chain inline and precomputes steps and shaped
 * weights, and a job gated on its weight.
 */
module TwistChain {
  import opened Wrappers
  import opened Transforms
  import opened ArcLength
  import opened Animation
  import opened TwistBlend

  /** The constraint's persisted configuration; `None` is a null reference. */
  datatype TwistChainData = TwistChainData(
    root: Option<Node>,
    tip: Option<Node>,
    rootTarget: Option<Node>,
    tipTarget: Option<Node>,
    curve: Option<AnimationCurve>)

  /**
   * The configuration can be bound: every reference is set and `tip` lies
   * under `root`, so a chain from `root` to `tip` exists.
   */
  function IsValid(h: Hierarchy, data: TwistChainData): (ok: bool)
    requires h.Valid()
    ensures ok <==> data.root.Some? && data.tip.Some? && data.rootTarget.Some? && data.tipTarget.Some?
                    && data.curve.Some? && IsChildOf(h, data.tip.value, data.root.value)
    ensures ok ==> var chain := Path(h, data.root.value, data.tip.value);
                   chain[0] == data.root.value && chain[|chain| - 1] == data.tip.value && Linked(h, chain)
  {
    var ok := !(data.root.None? || data.tip.None? || !IsChildOf(h, data.tip.value, data.root.value)
                || data.rootTarget.None? || data.tipTarget.None? || data.curve.None?);
    if ok then PathLinkedAndDistinct(h, data.root.value, data.tip.value); ok else ok
  }

  /** `SetDefaultValues`: no transforms and the linear curve; such a configuration is never valid. */
  function SetDefaultValues(): (data: TwistChainData)
    ensures data.root.None? && data.tip.None? && data.rootTarget.None? && data.tipTarget.None?
    ensures data.curve.Some? && forall t :: data.curve.value.evaluate(t) == LinearCurve(t)
    ensures forall h: Hierarchy :: h.Valid() ==> !IsValid(h, data)
  {
    TwistChainData(None, None, None, None, Some(AnimationCurve(LinearCurve)))
  }

  /** The job: the chain's bound handles, its steps and weights, and the two target handles. */
  class TwistChainJob {
    const chain: array<Node>
    const steps: array<real>
    const weights: array<real>
    const rootTarget: Node
    const tipTarget: Node

    ghost predicate Valid() {
      chain.Length == steps.Length == weights.Length && chain.Length >= 1 && steps != weights
    }

    /** The three parallel arrays, allocated with one entry per joint. */
    constructor (count: nat, rootTarget: Node, tipTarget: Node)
      requires count >= 1
      ensures Valid() && chain.Length == count
      ensures fresh(chain) && fresh(steps) && fresh(weights)
      ensures this.rootTarget == rootTarget && this.tipTarget == tipTarget
    {
      chain := new Node[count];
      steps := new real[count];
      weights := new real[count];
      this.rootTarget := rootTarget;
      this.tipTarget := tipTarget;
    }

    /**
     * One frame. With weight `w > 0`: read both target rotations, blend every
     * joint in order toward `Lerp(rootRot, tipRot, weights[i])` by `w`, then move
     * the root target onto the first joint and the tip target onto the last.
     * Otherwise pass every joint through and leave the targets alone.
     */
    method ProcessAnimation(stream: AnimationStream, w: real, qlerp: QuatLerp)
      requires Valid()
      requires stream.Binds(rootTarget) && stream.Binds(tipTarget)
      requires forall i :: 0 <= i < chain.Length ==> stream.Binds(chain[i])
      modifies stream
      ensures w <= 0.0 ==> stream.rotation == old(stream.rotation) && stream.position == old(stream.position)
      ensures w > 0.0 ==> old(AllBound(chain[..], stream.rotation))
                          && stream.rotation == BlendedRotations(old(stream.rotation), chain[..], weights[..],
                                                                 old(stream.rotation[rootTarget]),
                                                                 old(stream.rotation[tipTarget]), w, qlerp)
      ensures w > 0.0 ==> old(stream.Binds(chain[0]) && stream.Binds(chain[chain.Length - 1]))
                          && stream.position == TrackTargets(old(stream.position), rootTarget, tipTarget,
                                                             chain[0], chain[chain.Length - 1])
    {
      if w > 0.0 {
        assert AllBound(chain[..], stream.rotation) by {
          forall i | 0 <= i < chain.Length ensures chain[..][i] in stream.rotation {
            assert stream.Binds(chain[i]);
          }
        }
        var rootRotation := stream.GetRotation(rootTarget);
        var tipRotation := stream.GetRotation(tipTarget);

        for i := 0 to chain.Length
          invariant stream.rotation == BlendedRotations(old(stream.rotation), chain[..i], weights[..i],
                                                        rootRotation, tipRotation, w, qlerp)
          invariant stream.position == old(stream.position)
        {
          BlendedRotationsStep(old(stream.rotation), chain[..], weights[..], i, rootRotation, tipRotation, w, qlerp);
          var current := stream.GetRotation(chain[i]);
          stream.SetRotation(chain[i], qlerp(current, qlerp(rootRotation, tipRotation, weights[i]), w));
        }
        assert chain[..chain.Length] == chain[..] && weights[..weights.Length] == weights[..];

        var first := stream.GetPosition(chain[0]);
        stream.SetPosition(rootTarget, first);
        var last := stream.GetPosition(chain[chain.Length - 1]);
        stream.SetPosition(tipTarget, last);
      } else {
        for i := 0 to chain.Length
          invariant stream.rotation == old(stream.rotation) && stream.position == old(stream.position)
        {
          stream.PassThrough(chain[i]);
        }
      }
    }
  }

  /**
   * Binds the job: walks from the tip up to the root, then fills the chain,
   * the steps (accumulated length over total length) and the weights (the
   * clamped curve at each step). The source divides by the total length
   * unguarded, so it is required to be positive.
   */
  method Create(h: Hierarchy, data: TwistChainData) returns (job: TwistChainJob)
    requires h.Valid() && IsValid(h, data)
    requires TotalLength(h, Path(h, data.root.value, data.tip.value)) > 0.0
    ensures fresh(job) && fresh(job.chain) && fresh(job.steps) && fresh(job.weights) && job.Valid()
    ensures job.chain[..] == Path(h, data.root.value, data.tip.value)
    ensures job.steps[..] == Steps(SegmentLengths(h, job.chain[..]))
    ensures job.weights[..] == Weights(data.curve.value.evaluate, job.steps[..])
    ensures job.rootTarget == data.rootTarget.value && job.tipTarget == data.tipTarget.value
  {
    var chain := WalkChain(h, data.root.value, data.tip.value);

    job := new TwistChainJob(|chain|, data.rootTarget.value, data.tipTarget.value);
    for i := 0 to |chain|
      invariant job.chain[..i] == chain[..i]
    {
      job.chain[i] := chain[i];
      assert job.chain[..i + 1] == job.chain[..i] + [chain[i]];
    }
    assert job.chain[..] == job.chain[..|chain|];

    var lengths, totalLength := ChainLengths(h, chain);
    FillStepsAndWeights(job, lengths[..], totalLength, data.curve.value.evaluate);
  }

  /** The chain loop of `Create`: from `tip` up to `root`, then reversed. */
  method WalkChain(h: Hierarchy, root: Node, tip: Node) returns (chain: seq<Node>)
    requires h.Valid() && IsChildOf(h, tip, root)
    ensures chain == Path(h, root, tip)
  {
    chain := [];
    var tmp := tip;
    while tmp != root
      invariant IsChildOf(h, tmp, root)
      invariant Path(h, root, tmp) + Reversed(chain) == Path(h, root, tip)
      decreases h.Depth(tmp)
    {
      WalkStep(h, root, tip, tmp, chain);
      chain := chain + [tmp];
      tmp := h.parent[tmp];
    }
    WalkEnd(h, root, tip, chain);
    chain := chain + [root];
    chain := Reversed(chain);
  }

  /** The steps-and-weights loop of `Create`. */
  method FillStepsAndWeights(job: TwistChainJob, lengths: seq<real>, totalLength: real, curve: real -> real)
    requires job.Valid() && |lengths| == job.steps.Length
    requires totalLength == Sum(lengths) && totalLength > 0.0
    modifies job.steps, job.weights
    ensures job.steps[..] == Steps(lengths)
    ensures job.weights[..] == Weights(curve, job.steps[..])
  {
    ghost var steps := Steps(lengths);
    var cumulativeLength := 0.0;
    for i := 0 to |lengths|
      invariant cumulativeLength == Sum(lengths[..i])
      invariant job.steps[..i] == steps[..i]
      invariant job.weights[..i] == Weights(curve, steps)[..i]
    {
      assert lengths[..i + 1][..i] == lengths[..i];
      cumulativeLength := cumulativeLength + lengths[i];
      var t := cumulativeLength / totalLength;
      job.steps[i] := t;
      job.weights[i] := Clamp01(curve(t));
      assert job.steps[..i + 1] == job.steps[..i] + [steps[i]];
      assert job.weights[..i + 1] == job.weights[..i] + [Weights(curve, steps)[i]];
    }
    assert job.steps[..] == job.steps[..|lengths|];
    assert job.weights[..] == job.weights[..|lengths|];
  }

  /**
   * The lengths loop of `Create`: 0 for the root, then each joint's
   * |localPosition|, summed into the total as they are written.
   */
  method ChainLengths(h: Hierarchy, chain: seq<Node>) returns (lengths: array<real>, totalLength: real)
    requires h.Valid() && |chain| >= 1
    ensures fresh(lengths)
    ensures lengths[..] == SegmentLengths(h, chain)
    ensures totalLength == TotalLength(h, chain)
  {
    lengths := new real[|chain|];
    lengths[0] := 0.0;
    totalLength := 0.0;
    assert lengths[..1] == [0.0] && [0.0][..0] == [];
    for i := 1 to |chain|
      invariant lengths[0] == 0.0
      invariant forall k :: 1 <= k < i ==> lengths[k] == h.Magnitude(chain[k])
      invariant totalLength == Sum(lengths[..i])
    {
      lengths[i] := h.Magnitude(chain[i]);
      assert lengths[..i + 1][..i] == lengths[..i];
      totalLength := totalLength + lengths[i];
    }
    assert lengths[..] == lengths[..|chain|];
    assert lengths[..] == SegmentLengths(h, chain);
  }

  /**
   * Rewrites every weight from the stored steps and the current curve, and
   * nothing else; when the weights already match, nothing changes, so a
   * second call is the same as one.
   */
  method Update(job: TwistChainJob, data: TwistChainData)
    requires job.Valid() && data.curve.Some?
    modifies job.weights
    ensures job.weights[..] == Weights(data.curve.value.evaluate, job.steps[..])
    ensures unchanged(job.steps) && unchanged(job.chain)
    ensures old(job.weights[..]) == Weights(data.curve.value.evaluate, job.steps[..]) ==> job.weights[..] == old(job.weights[..])
  {
    var curve := data.curve.value.evaluate;
    for i := 0 to job.weights.Length
      invariant job.weights[..i] == Weights(curve, job.steps[..])[..i]
    {
      job.weights[i] := Clamp01(curve(job.steps[i]));
      assert job.weights[..i + 1] == job.weights[..i] + [Weights(curve, job.steps[..])[i]];
    }
    assert job.weights[..] == job.weights[..job.weights.Length];
  }
}
