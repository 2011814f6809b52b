/**
 * The workshop's first constraint (Assets/AnimationRiggingWorkshop/Constraints/HelloWorld.cs):
 * the constrained position follows the negated source position.
 */
module WorkshopHelloWorld {
  import opened Wrappers
  import opened Transforms
  import opened Animation
  import opened CopyBlend

  datatype HelloWorldJob = HelloWorldJob(constrained: Node, source: Node)
  {
    /**
     * One frame with weight `w`: when `w > 0` the constrained position moves
     * toward `-source`; the source and every rotation are left alone.
     */
    method ProcessAnimation(stream: AnimationStream, w: real)
      requires stream.Binds(constrained) && stream.Binds(source)
      modifies stream
      ensures w > 0.0 ==> stream.position == old(stream.position)[constrained :=
                Lerp(old(stream.position[constrained]), Neg(old(stream.position[source])), w)]
      ensures stream.position == CopyPosition(old(stream.position), constrained, source,
                                              InvertMask(true, true, true), w)
      ensures stream.rotation == old(stream.rotation)
    {
      if w > 0.0 {
        var current := stream.GetPosition(constrained);
        var target := stream.GetPosition(source);
        MaskAllIsNegation(target);
        stream.SetPosition(constrained, Lerp(current, Neg(target), w));
      }
    }
  }

  datatype HelloWorldData = HelloWorldData(constrainedObject: Option<Node>, sourceObject: Option<Node>)

  /** Both objects are set. */
  function IsValid(data: HelloWorldData): (ok: bool)
    ensures ok <==> data.constrainedObject.Some? && data.sourceObject.Some?
  {
    !(data.constrainedObject.None? || data.sourceObject.None?)
  }

  /** No objects: invalid. */
  function SetDefaultValues(): (data: HelloWorldData)
    ensures data.constrainedObject.None? && data.sourceObject.None?
    ensures !IsValid(data)
  {
    HelloWorldData(None, None)
  }
}
