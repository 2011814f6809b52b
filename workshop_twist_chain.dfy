/**
 * The workshop's final twist chain (Assets/AnimationRiggingWorkshop/Constraints/TwistChain.cs):
 * the binder calls the workshop chain utilities, and the job blends at any weight,
 * with no pass-through branch.
 */
module WorkshopTwistChain {
  import opened Wrappers
  import opened Transforms
  import opened ArcLength
  import opened Animation
  import opened TwistBlend
  import WorkshopConstraintsUtils

  datatype TwistChainData = TwistChainData(
    root: Option<Node>,
    tip: Option<Node>,
    rootTarget: Option<Node>,
    tipTarget: Option<Node>,
    curve: Option<AnimationCurve>)

  /** Every reference is set and `tip` lies under `root`. */
  function IsValid(h: Hierarchy, data: TwistChainData): (ok: bool)
    requires h.Valid()
    ensures ok <==> data.root.Some? && data.tip.Some? && data.rootTarget.Some? && data.tipTarget.Some?
                    && data.curve.Some? && IsChildOf(h, data.tip.value, data.root.value)
    ensures ok ==> var chain := Path(h, data.root.value, data.tip.value);
                   chain[0] == data.root.value && chain[|chain| - 1] == data.tip.value && Linked(h, chain)
  {
    var ok := !(data.root.None? || data.tip.None? || !IsChildOf(h, data.tip.value, data.root.value)
                || data.rootTarget.None? || data.tipTarget.None? || data.curve.None?);
    if ok then PathLinkedAndDistinct(h, data.root.value, data.tip.value); ok else ok
  }

  /** No transforms and the linear curve; never valid. */
  function SetDefaultValues(): (data: TwistChainData)
    ensures data.root.None? && data.tip.None? && data.rootTarget.None? && data.tipTarget.None?
    ensures data.curve.Some? && forall t :: data.curve.value.evaluate(t) == LinearCurve(t)
    ensures forall h: Hierarchy :: h.Valid() ==> !IsValid(h, data)
  {
    TwistChainData(None, None, None, None, Some(AnimationCurve(LinearCurve)))
  }

  class TwistChainJob {
    const chain: array<Node>
    const steps: array<real>
    const weights: array<real>
    const rootTarget: Node
    const tipTarget: Node

    ghost predicate Valid() {
      chain.Length == steps.Length == weights.Length && chain.Length >= 1 && steps != weights
    }

    constructor (count: nat, rootTarget: Node, tipTarget: Node)
      requires count >= 1
      ensures Valid() && chain.Length == count
      ensures fresh(chain) && fresh(steps) && fresh(weights)
      ensures this.rootTarget == rootTarget && this.tipTarget == tipTarget
    {
      chain := new Node[count];
      steps := new real[count];
      weights := new real[count];
      this.rootTarget := rootTarget;
      this.tipTarget := tipTarget;
    }

    /**
     * One frame, at any weight `w`: every joint in order is blended toward
     * `Lerp(rootRot, tipRot, weights[i])` by `w`, then the root target is moved
     * onto the first joint and the tip target onto the last.
     */
    method ProcessAnimation(stream: AnimationStream, w: real, qlerp: QuatLerp)
      requires Valid()
      requires stream.Binds(rootTarget) && stream.Binds(tipTarget)
      requires forall i :: 0 <= i < chain.Length ==> stream.Binds(chain[i])
      modifies stream
      ensures old(AllBound(chain[..], stream.rotation))
              && stream.rotation == BlendedRotations(old(stream.rotation), chain[..], weights[..],
                                                     old(stream.rotation[rootTarget]),
                                                     old(stream.rotation[tipTarget]), w, qlerp)
      ensures old(stream.Binds(chain[0]) && stream.Binds(chain[chain.Length - 1]))
              && stream.position == TrackTargets(old(stream.position), rootTarget, tipTarget,
                                                 chain[0], chain[chain.Length - 1])
    {
      assert AllBound(chain[..], stream.rotation) by {
        forall i | 0 <= i < chain.Length ensures chain[..][i] in stream.rotation {
          assert stream.Binds(chain[i]);
        }
      }
      var rootRotation := stream.GetRotation(rootTarget);
      var tipRotation := stream.GetRotation(tipTarget);

      for i := 0 to chain.Length
        invariant stream.rotation == BlendedRotations(old(stream.rotation), chain[..i], weights[..i],
                                                      rootRotation, tipRotation, w, qlerp)
        invariant stream.position == old(stream.position)
      {
        BlendedRotationsStep(old(stream.rotation), chain[..], weights[..], i, rootRotation, tipRotation, w, qlerp);
        var current := stream.GetRotation(chain[i]);
        stream.SetRotation(chain[i], qlerp(current, qlerp(rootRotation, tipRotation, weights[i]), w));
      }
      assert chain[..chain.Length] == chain[..] && weights[..weights.Length] == weights[..];

      var first := stream.GetPosition(chain[0]);
      stream.SetPosition(rootTarget, first);
      var last := stream.GetPosition(chain[chain.Length - 1]);
      stream.SetPosition(tipTarget, last);
    }
  }

  /**
   * Binds the job from the chain and steps the utilities return, writing each
   * joint's handle, step and clamped curve weight in one loop.
   */
  method Create(h: Hierarchy, data: TwistChainData) returns (job: TwistChainJob)
    requires h.Valid() && IsValid(h, data)
    requires TotalLength(h, Path(h, data.root.value, data.tip.value)) > 0.0
    ensures fresh(job) && fresh(job.chain) && fresh(job.steps) && fresh(job.weights) && job.Valid()
    ensures job.chain[..] == Path(h, data.root.value, data.tip.value)
    ensures job.steps[..] == Steps(SegmentLengths(h, job.chain[..]))
    ensures job.weights[..] == Weights(data.curve.value.evaluate, job.steps[..])
    ensures job.rootTarget == data.rootTarget.value && job.tipTarget == data.tipTarget.value
  {
    var chain := WorkshopConstraintsUtils.ExtractChain(h, data.root.value, data.tip.value);
    var steps := WorkshopConstraintsUtils.ExtractSteps(h, chain);

    job := new TwistChainJob(|chain|, data.rootTarget.value, data.tipTarget.value);
    var curve := data.curve.value.evaluate;
    for i := 0 to |chain|
      invariant job.chain[..i] == chain[..i]
      invariant job.steps[..i] == steps[..i]
      invariant job.weights[..i] == Weights(curve, steps)[..i]
    {
      job.chain[i] := chain[i];
      job.steps[i] := steps[i];
      job.weights[i] := Clamp01(curve(steps[i]));
      assert job.chain[..i + 1] == job.chain[..i] + [chain[i]];
      assert job.steps[..i + 1] == job.steps[..i] + [steps[i]];
      assert job.weights[..i + 1] == job.weights[..i] + [Weights(curve, steps)[i]];
    }
    assert job.chain[..] == job.chain[..|chain|];
    assert job.steps[..] == job.steps[..|chain|];
    assert job.weights[..] == job.weights[..|chain|];
  }

  /**
   * Rewrites every weight from the stored steps and the current curve, and
   * nothing else; when the weights already match, nothing changes.
   */
  method Update(job: TwistChainJob, data: TwistChainData)
    requires job.Valid() && data.curve.Some?
    modifies job.weights
    ensures job.weights[..] == Weights(data.curve.value.evaluate, job.steps[..])
    ensures unchanged(job.steps) && unchanged(job.chain)
    ensures old(job.weights[..]) == Weights(data.curve.value.evaluate, job.steps[..]) ==> job.weights[..] == old(job.weights[..])
  {
    var curve := data.curve.value.evaluate;
    for i := 0 to job.steps.Length
      invariant job.weights[..i] == Weights(curve, job.steps[..])[..i]
    {
      job.weights[i] := Clamp01(curve(job.steps[i]));
      assert job.weights[..i + 1] == job.weights[..i] + [Weights(curve, job.steps[..])[i]];
    }
    assert job.weights[..] == job.weights[..job.steps.Length];
  }
}
