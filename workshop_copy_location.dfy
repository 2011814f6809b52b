/**
 * The workshop's copy-location constraint (Assets/AnimationRiggingWorkshop/Constraints/CopyLocation.cs):
 * the invert flags are one `Vector3Bool`, resolved from the stream each frame.
 */
module WorkshopCopyLocation {
  import opened Wrappers
  import opened Transforms
  import opened Animation
  import opened CopyBlend

  /** Unity's `Vector3Bool`: one flag per axis. */
  datatype Vector3Bool = Vector3Bool(x: bool, y: bool, z: bool)

  /** `new Vector3Bool(val)`: the same flag on every axis. */
  function Uniform(val: bool): (v: Vector3Bool)
    ensures v.x == val && v.y == val && v.z == val
  {
    Vector3Bool(val, val, val)
  }

  datatype CopyLocationJob = CopyLocationJob(constrained: Node, source: Node)
  {
    /**
     * One frame with weight `w` and `invert` as the stream holds it: when
     * `w > 0` the constrained position moves toward `source * mask`, the mask
     * being -1 on each inverted axis and 1 elsewhere; nothing else is written.
     */
    method ProcessAnimation(stream: AnimationStream, w: real, invert: Vector3Bool)
      requires stream.Binds(constrained) && stream.Binds(source)
      modifies stream
      ensures stream.position == CopyPosition(old(stream.position), constrained, source,
                                              InvertMask(invert.x, invert.y, invert.z), w)
      ensures stream.rotation == old(stream.rotation)
    {
      if w > 0.0 {
        var tmp := invert;
        var invertMask := Vec3(AxisSign(tmp.x), AxisSign(tmp.y), AxisSign(tmp.z));
        var current := stream.GetPosition(constrained);
        var target := stream.GetPosition(source);
        stream.SetPosition(constrained, Lerp(current, Mul(target, invertMask), w));
      }
    }
  }

  datatype CopyLocationData = CopyLocationData(
    constrainedObject: Option<Node>,
    sourceObject: Option<Node>,
    invert: Vector3Bool)

  /** Both objects are set; the flags do not matter. */
  function IsValid(data: CopyLocationData): (ok: bool)
    ensures ok <==> data.constrainedObject.Some? && data.sourceObject.Some?
  {
    !(data.constrainedObject.None? || data.sourceObject.None?)
  }

  /** Validity does not depend on the invert flags. */
  lemma IsValidIgnoresFlags(data: CopyLocationData, invert: Vector3Bool)
    ensures IsValid(data.(invert := invert)) == IsValid(data)
  {
  }

  /** No objects and `new Vector3Bool(false)`: invalid, and the mask is the identity. */
  function SetDefaultValues(): (data: CopyLocationData)
    ensures data.constrainedObject.None? && data.sourceObject.None?
    ensures data.invert == Vector3Bool(false, false, false)
    ensures !IsValid(data)
    ensures InvertMask(data.invert.x, data.invert.y, data.invert.z) == Vec3(1.0, 1.0, 1.0)
  {
    CopyLocationData(None, None, Uniform(false))
  }

  /** Inverting only x at full weight mirrors the source in x: (2, 3, 4) lands on (-2, 3, 4). */
  lemma InvertXOnlyMirrorsX(pos: map<Node, Vec3>, constrained: Node, source: Node)
    requires constrained in pos && source in pos && pos[source] == Vec3(2.0, 3.0, 4.0)
    ensures CopyPosition(pos, constrained, source, InvertMask(true, false, false), 1.0)[constrained]
            == Vec3(-2.0, 3.0, 4.0)
  {
  }
}
