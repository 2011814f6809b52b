/**
 * The finished copy-location constraint of Assets/Constraints/CopyLocation.cs:
 * three per-axis invert flags, resolved from the stream each frame, build a
 * ±1 mask applied to the source position.
 */
module CopyLocation {
  import opened Wrappers
  import opened Transforms
  import opened Animation
  import opened CopyBlend

  /** The job: the written handle, the read-only source handle. */
  datatype CopyLocationJob = CopyLocationJob(constrained: Node, source: Node)
  {
    /**
     * One frame with weight `w` and the three flags as the stream holds them:
     * the constrained position moves toward `source * mask` when `w > 0`;
     * the source and every rotation are left alone.
     */
    method ProcessAnimation(stream: AnimationStream, w: real, xInvert: bool, yInvert: bool, zInvert: bool)
      requires stream.Binds(constrained) && stream.Binds(source)
      modifies stream
      ensures stream.position == CopyPosition(old(stream.position), constrained, source,
                                              InvertMask(xInvert, yInvert, zInvert), w)
      ensures stream.rotation == old(stream.rotation)
    {
      if w > 0.0 {
        var invertMask := Vec3(AxisSign(xInvert), AxisSign(yInvert), AxisSign(zInvert));
        var current := stream.GetPosition(constrained);
        var target := stream.GetPosition(source);
        stream.SetPosition(constrained, Lerp(current, Mul(target, invertMask), w));
      }
    }
  }

  datatype CopyLocationData = CopyLocationData(
    constrainedObject: Option<Node>,
    sourceObject: Option<Node>,
    xInvert: bool,
    yInvert: bool,
    zInvert: bool)

  /** Both objects are set; the flags do not matter. */
  function IsValid(data: CopyLocationData): (ok: bool)
    ensures ok <==> data.constrainedObject.Some? && data.sourceObject.Some?
  {
    !(data.constrainedObject.None? || data.sourceObject.None?)
  }

  /** Validity does not depend on the invert flags. */
  lemma IsValidIgnoresFlags(data: CopyLocationData, x: bool, y: bool, z: bool)
    ensures IsValid(data.(xInvert := x, yInvert := y, zInvert := z)) == IsValid(data)
  {
  }

  /** No objects and no axis inverted: an invalid configuration whose mask is the identity. */
  function SetDefaultValues(): (data: CopyLocationData)
    ensures data.constrainedObject.None? && data.sourceObject.None?
    ensures !data.xInvert && !data.yInvert && !data.zInvert
    ensures !IsValid(data)
    ensures InvertMask(data.xInvert, data.yInvert, data.zInvert) == Vec3(1.0, 1.0, 1.0)
  {
    CopyLocationData(None, None, false, false, false)
  }

  /** With the default flags a full-weight frame copies the source position unchanged. */
  lemma DefaultFlagsCopySource(pos: map<Node, Vec3>, constrained: Node, source: Node)
    requires constrained in pos && source in pos
    ensures var d := SetDefaultValues();
      CopyPosition(pos, constrained, source, InvertMask(d.xInvert, d.yInvert, d.zInvert), 1.0)[constrained]
      == pos[source]
  {
    MaskNoneIsIdentity(pos[source]);
  }
}
