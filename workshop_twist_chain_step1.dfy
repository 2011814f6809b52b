/**
 * Step 1 of the workshop twist chain (Assets/AnimationRiggingWorkshop/Constraints/TwistChainStep1.cs):
 * the binder is complete, but the job's evaluation is still an outline with no
 * statements, so a frame leaves the stream as it was.
 */
module WorkshopTwistChainStep1 {
  import opened Wrappers
  import opened Transforms
  import opened ArcLength
  import opened Animation
  import WorkshopConstraintsUtils

  datatype TwistChainStep1Data = TwistChainStep1Data(
    root: Option<Node>,
    tip: Option<Node>,
    rootTarget: Option<Node>,
    tipTarget: Option<Node>)

  /** Every reference is set and `tip` lies under `root`. */
  function IsValid(h: Hierarchy, data: TwistChainStep1Data): (ok: bool)
    requires h.Valid()
    ensures ok <==> data.root.Some? && data.tip.Some? && data.rootTarget.Some? && data.tipTarget.Some?
                    && IsChildOf(h, data.tip.value, data.root.value)
    ensures ok ==> var chain := Path(h, data.root.value, data.tip.value);
                   chain[0] == data.root.value && chain[|chain| - 1] == data.tip.value && Linked(h, chain)
  {
    var ok := !(data.root.None? || data.tip.None? || !IsChildOf(h, data.tip.value, data.root.value)
                || data.rootTarget.None? || data.tipTarget.None?);
    if ok then PathLinkedAndDistinct(h, data.root.value, data.tip.value); ok else ok
  }

  /** No transforms; never valid. */
  function SetDefaultValues(): (data: TwistChainStep1Data)
    ensures data.root.None? && data.tip.None? && data.rootTarget.None? && data.tipTarget.None?
    ensures forall h: Hierarchy :: h.Valid() ==> !IsValid(h, data)
  {
    TwistChainStep1Data(None, None, None, None)
  }

  class TwistChainStep1Job {
    const chain: array<Node>
    const steps: array<real>
    const rootTarget: Node
    const tipTarget: Node

    ghost predicate Valid() {
      chain.Length == steps.Length && chain.Length >= 1
    }

    constructor (count: nat, rootTarget: Node, tipTarget: Node)
      requires count >= 1
      ensures Valid() && chain.Length == count
      ensures fresh(chain) && fresh(steps)
      ensures this.rootTarget == rootTarget && this.tipTarget == tipTarget
    {
      chain := new Node[count];
      steps := new real[count];
      this.rootTarget := rootTarget;
      this.tipTarget := tipTarget;
    }

    /** The evaluation outline has no statements: the stream is left untouched. */
    method ProcessAnimation(stream: AnimationStream, w: real, qlerp: QuatLerp)
      ensures stream.rotation == old(stream.rotation) && stream.position == old(stream.position)
    {
    }
  }

  /** Binds the job from the chain and steps the utilities return. */
  method Create(h: Hierarchy, data: TwistChainStep1Data) returns (job: TwistChainStep1Job)
    requires h.Valid() && IsValid(h, data)
    requires TotalLength(h, Path(h, data.root.value, data.tip.value)) > 0.0
    ensures fresh(job) && fresh(job.chain) && fresh(job.steps) && job.Valid()
    ensures job.chain[..] == Path(h, data.root.value, data.tip.value)
    ensures job.steps[..] == Steps(SegmentLengths(h, job.chain[..]))
    ensures job.rootTarget == data.rootTarget.value && job.tipTarget == data.tipTarget.value
  {
    var chain := WorkshopConstraintsUtils.ExtractChain(h, data.root.value, data.tip.value);
    var steps := WorkshopConstraintsUtils.ExtractSteps(h, chain);

    job := new TwistChainStep1Job(|chain|, data.rootTarget.value, data.tipTarget.value);
    for i := 0 to |chain|
      invariant job.chain[..i] == chain[..i]
      invariant job.steps[..i] == steps[..i]
    {
      job.chain[i] := chain[i];
      job.steps[i] := steps[i];
      assert job.chain[..i + 1] == job.chain[..i] + [chain[i]];
      assert job.steps[..i + 1] == job.steps[..i] + [steps[i]];
    }
    assert job.chain[..] == job.chain[..|chain|];
    assert job.steps[..] == job.steps[..|chain|];
  }

  /** `Update` is empty: the job keeps what was bound. */
  method Update(job: TwistChainStep1Job, data: TwistChainStep1Data)
    ensures unchanged(job.chain, job.steps)
  {
  }
}
