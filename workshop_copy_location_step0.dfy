/**
 * Step 0 of the workshop copy-location constraint
 * (Assets/AnimationRiggingWorkshop/Constraints/CopyLocationStep0.cs): the
 * source position is negated on every axis; there are no flags yet.
 */
module WorkshopCopyLocationStep0 {
  import opened Wrappers
  import opened Transforms
  import opened Animation
  import opened CopyBlend

  datatype CopyLocationStep0Job = CopyLocationStep0Job(constrained: Node, source: Node)
  {
    /**
     * One frame with weight `w`: when `w > 0` the constrained position moves
     * toward `-source`, which is the copy with all three axes inverted.
     */
    method ProcessAnimation(stream: AnimationStream, w: real)
      requires stream.Binds(constrained) && stream.Binds(source)
      modifies stream
      ensures w > 0.0 ==> stream.position == old(stream.position)[constrained :=
                Lerp(old(stream.position[constrained]), Neg(old(stream.position[source])), w)]
      ensures stream.position == CopyPosition(old(stream.position), constrained, source,
                                              InvertMask(true, true, true), w)
      ensures stream.rotation == old(stream.rotation)
    {
      if w > 0.0 {
        var current := stream.GetPosition(constrained);
        var target := stream.GetPosition(source);
        MaskAllIsNegation(target);
        stream.SetPosition(constrained, Lerp(current, Neg(target), w));
      }
    }
  }

  datatype CopyLocationStep0Data = CopyLocationStep0Data(constrainedObject: Option<Node>, sourceObject: Option<Node>)

  /** Both objects are set. */
  function IsValid(data: CopyLocationStep0Data): (ok: bool)
    ensures ok <==> data.constrainedObject.Some? && data.sourceObject.Some?
  {
    !(data.constrainedObject.None? || data.sourceObject.None?)
  }

  /** No objects: invalid. */
  function SetDefaultValues(): (data: CopyLocationStep0Data)
    ensures data.constrainedObject.None? && data.sourceObject.None?
    ensures !IsValid(data)
  {
    CopyLocationStep0Data(None, None)
  }

  /** At full weight the constrained handle lands exactly on the negated source. */
  lemma FullWeightNegatesSource(pos: map<Node, Vec3>, constrained: Node, source: Node)
    requires constrained in pos && source in pos
    ensures CopyPosition(pos, constrained, source, InvertMask(true, true, true), 1.0)[constrained]
            == Neg(pos[source])
  {
    MaskAllIsNegation(pos[source]);
  }
}
