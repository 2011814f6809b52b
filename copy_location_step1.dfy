/**
 * Step 1 of the finished copy-location constraint (Assets/Constraints/CopyLocationStep1.cs):
 * the mask is computed once from the data's flags when the job is bound and
 * stored in the job.
 */
module CopyLocationStep1 {
  import opened Wrappers
  import opened Transforms
  import opened Animation
  import opened CopyBlend

  /** The job: the two handles and the mask fixed at bind time. */
  datatype CopyLocationStep1Job = CopyLocationStep1Job(constrained: Node, source: Node, invertMask: Vec3)
  {
    /**
     * One frame with weight `w`: when `w > 0` the constrained position moves
     * toward `source * invertMask`; the job and everything else stay as they are.
     */
    method ProcessAnimation(stream: AnimationStream, w: real)
      requires stream.Binds(constrained) && stream.Binds(source)
      modifies stream
      ensures stream.position == CopyPosition(old(stream.position), constrained, source, invertMask, w)
      ensures stream.rotation == old(stream.rotation)
    {
      if w > 0.0 {
        var current := stream.GetPosition(constrained);
        var target := stream.GetPosition(source);
        stream.SetPosition(constrained, Lerp(current, Mul(target, invertMask), w));
      }
    }
  }

  datatype CopyLocationStep1Data = CopyLocationStep1Data(
    constrainedObject: Option<Node>,
    sourceObject: Option<Node>,
    xInvert: bool,
    yInvert: bool,
    zInvert: bool)

  /** Both objects are set. */
  function IsValid(data: CopyLocationStep1Data): (ok: bool)
    ensures ok <==> data.constrainedObject.Some? && data.sourceObject.Some?
  {
    !(data.constrainedObject.None? || data.sourceObject.None?)
  }

  /** No objects and every axis inverted. */
  function SetDefaultValues(): (data: CopyLocationStep1Data)
    ensures data.constrainedObject.None? && data.sourceObject.None?
    ensures data.xInvert && data.yInvert && data.zInvert
    ensures !IsValid(data)
  {
    CopyLocationStep1Data(None, None, true, true, true)
  }

  /**
   * Binds the job: each mask component is -1 where the data inverts that
   * axis and 1 elsewhere.
   */
  function Create(data: CopyLocationStep1Data): (job: CopyLocationStep1Job)
    requires IsValid(data)
    ensures job.constrained == data.constrainedObject.value && job.source == data.sourceObject.value
    ensures job.invertMask == InvertMask(data.xInvert, data.yInvert, data.zInvert)
    ensures (job.invertMask.x == -1.0 <==> data.xInvert) && (job.invertMask.x == 1.0 <==> !data.xInvert)
    ensures (job.invertMask.y == -1.0 <==> data.yInvert) && (job.invertMask.y == 1.0 <==> !data.yInvert)
    ensures (job.invertMask.z == -1.0 <==> data.zInvert) && (job.invertMask.z == 1.0 <==> !data.zInvert)
  {
    CopyLocationStep1Job(
      data.constrainedObject.value,
      data.sourceObject.value,
      Vec3(if data.xInvert then -1.0 else 1.0, if data.yInvert then -1.0 else 1.0, if data.zInvert then -1.0 else 1.0))
  }

  /**
   * With the default flags the bound mask is (-1, -1, -1): the job then
   * copies the negated source, as the step-0 and hello-world jobs do.
   */
  lemma DefaultMaskNegates(constrained: Node, source: Node, src: Vec3)
    ensures var d := SetDefaultValues().(constrainedObject := Some(constrained), sourceObject := Some(source));
      Create(d).invertMask == Vec3(-1.0, -1.0, -1.0) && Mul(src, Create(d).invertMask) == Neg(src)
  {
    MaskAllIsNegation(src);
  }
}
