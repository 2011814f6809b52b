/**
 * Step 2 of the workshop twist chain (Assets/AnimationRiggingWorkshop/Constraints/TwistChainStep2.cs):
 * the blend parameter of each joint is its raw arc-length step; there is no curve.
 */
module WorkshopTwistChainStep2 {
  import opened Wrappers
  import opened Transforms
  import opened ArcLength
  import opened Animation
  import opened TwistBlend
  import WorkshopConstraintsUtils

  datatype TwistChainStep2Data = TwistChainStep2Data(
    root: Option<Node>,
    tip: Option<Node>,
    rootTarget: Option<Node>,
    tipTarget: Option<Node>)

  /** Every reference is set and `tip` lies under `root`. */
  function IsValid(h: Hierarchy, data: TwistChainStep2Data): (ok: bool)
    requires h.Valid()
    ensures ok <==> data.root.Some? && data.tip.Some? && data.rootTarget.Some? && data.tipTarget.Some?
                    && IsChildOf(h, data.tip.value, data.root.value)
    ensures ok ==> var chain := Path(h, data.root.value, data.tip.value);
                   chain[0] == data.root.value && chain[|chain| - 1] == data.tip.value && Linked(h, chain)
  {
    var ok := !(data.root.None? || data.tip.None? || !IsChildOf(h, data.tip.value, data.root.value)
                || data.rootTarget.None? || data.tipTarget.None?);
    if ok then PathLinkedAndDistinct(h, data.root.value, data.tip.value); ok else ok
  }

  /** No transforms; never valid. */
  function SetDefaultValues(): (data: TwistChainStep2Data)
    ensures data.root.None? && data.tip.None? && data.rootTarget.None? && data.tipTarget.None?
    ensures forall h: Hierarchy :: h.Valid() ==> !IsValid(h, data)
  {
    TwistChainStep2Data(None, None, None, None)
  }

  class TwistChainStep2Job {
    const chain: array<Node>
    const steps: array<real>
    const rootTarget: Node
    const tipTarget: Node

    ghost predicate Valid() {
      chain.Length == steps.Length && chain.Length >= 1
    }

    constructor (count: nat, rootTarget: Node, tipTarget: Node)
      requires count >= 1
      ensures Valid() && chain.Length == count
      ensures fresh(chain) && fresh(steps)
      ensures this.rootTarget == rootTarget && this.tipTarget == tipTarget
    {
      chain := new Node[count];
      steps := new real[count];
      this.rootTarget := rootTarget;
      this.tipTarget := tipTarget;
    }

    /**
     * One frame, at any weight `w`: every joint in order is blended toward
     * `Lerp(rootRot, tipRot, steps[i])` by `w`, then the targets follow the chain ends.
     */
    method ProcessAnimation(stream: AnimationStream, w: real, qlerp: QuatLerp)
      requires Valid()
      requires stream.Binds(rootTarget) && stream.Binds(tipTarget)
      requires forall i :: 0 <= i < chain.Length ==> stream.Binds(chain[i])
      modifies stream
      ensures old(AllBound(chain[..], stream.rotation))
              && stream.rotation == BlendedRotations(old(stream.rotation), chain[..], steps[..],
                                                     old(stream.rotation[rootTarget]),
                                                     old(stream.rotation[tipTarget]), w, qlerp)
      ensures old(stream.Binds(chain[0]) && stream.Binds(chain[chain.Length - 1]))
              && stream.position == TrackTargets(old(stream.position), rootTarget, tipTarget,
                                                 chain[0], chain[chain.Length - 1])
    {
      assert AllBound(chain[..], stream.rotation) by {
        forall i | 0 <= i < chain.Length ensures chain[..][i] in stream.rotation {
          assert stream.Binds(chain[i]);
        }
      }
      var rootRotation := stream.GetRotation(rootTarget);
      var tipRotation := stream.GetRotation(tipTarget);

      for i := 0 to chain.Length
        invariant stream.rotation == BlendedRotations(old(stream.rotation), chain[..i], steps[..i],
                                                      rootRotation, tipRotation, w, qlerp)
        invariant stream.position == old(stream.position)
      {
        BlendedRotationsStep(old(stream.rotation), chain[..], steps[..], i, rootRotation, tipRotation, w, qlerp);
        var current := stream.GetRotation(chain[i]);
        stream.SetRotation(chain[i], qlerp(current, qlerp(rootRotation, tipRotation, steps[i]), w));
      }
      assert chain[..chain.Length] == chain[..] && steps[..steps.Length] == steps[..];

      var first := stream.GetPosition(chain[0]);
      stream.SetPosition(rootTarget, first);
      var last := stream.GetPosition(chain[chain.Length - 1]);
      stream.SetPosition(tipTarget, last);
    }
  }

  /** Binds the job from the chain and steps the utilities return. */
  method Create(h: Hierarchy, data: TwistChainStep2Data) returns (job: TwistChainStep2Job)
    requires h.Valid() && IsValid(h, data)
    requires TotalLength(h, Path(h, data.root.value, data.tip.value)) > 0.0
    ensures fresh(job) && fresh(job.chain) && fresh(job.steps) && job.Valid()
    ensures job.chain[..] == Path(h, data.root.value, data.tip.value)
    ensures job.steps[..] == Steps(SegmentLengths(h, job.chain[..]))
    ensures job.rootTarget == data.rootTarget.value && job.tipTarget == data.tipTarget.value
  {
    var chain := WorkshopConstraintsUtils.ExtractChain(h, data.root.value, data.tip.value);
    var steps := WorkshopConstraintsUtils.ExtractSteps(h, chain);

    job := new TwistChainStep2Job(|chain|, data.rootTarget.value, data.tipTarget.value);
    for i := 0 to |chain|
      invariant job.chain[..i] == chain[..i]
      invariant job.steps[..i] == steps[..i]
    {
      job.chain[i] := chain[i];
      job.steps[i] := steps[i];
      assert job.chain[..i + 1] == job.chain[..i] + [chain[i]];
      assert job.steps[..i + 1] == job.steps[..i] + [steps[i]];
    }
    assert job.chain[..] == job.chain[..|chain|];
    assert job.steps[..] == job.steps[..|chain|];
  }

  /** `Update` is empty: the steps fixed at bind time are kept. */
  method Update(job: TwistChainStep2Job, data: TwistChainStep2Data)
    ensures unchanged(job.chain, job.steps)
  {
  }

  /**
   * Blending by the raw steps is what the final constraint does with the
   * linear curve: the two parameter tables coincide on every bound chain.
   */
  lemma StepsAreLinearCurveWeights(h: Hierarchy, chain: seq<Node>)
    requires h.Valid() && |chain| > 0 && TotalLength(h, chain) > 0.0
    ensures Weights(LinearCurve, Steps(SegmentLengths(h, chain))) == Steps(SegmentLengths(h, chain))
  {
    ChainStepsShape(h, chain);
    LinearCurveWeightsAreSteps(Steps(SegmentLengths(h, chain)));
  }
}
