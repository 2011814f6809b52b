/**
 * `ConstraintsUtils` of the workshop constraints (Assets/AnimationRiggingWorkshop):
 * chain extraction into an array, segment lengths and arc-length steps.
 */
module WorkshopConstraintsUtils {
  import opened Transforms
  import opened ArcLength

  /**
   * Walks from `tip` up the parent relation to `root` and returns the joints
   * root first; the empty array when `tip` is neither `root` nor below it.
   */
  method ExtractChain(h: Hierarchy, root: Node, tip: Node) returns (chain: seq<Node>)
    requires h.Valid()
    ensures !IsChildOf(h, tip, root) ==> chain == []
    ensures IsChildOf(h, tip, root) ==> chain == Path(h, root, tip)
    ensures IsChildOf(h, tip, root) ==> chain[0] == root && chain[|chain| - 1] == tip
    ensures IsChildOf(h, tip, root) ==> |chain| == h.Depth(tip) - h.Depth(root) + 1
  {
    if !IsChildOf(h, tip, root) {
      return [];
    }
    var list: seq<Node> := [];
    var tmp := tip;
    while tmp != root
      invariant IsChildOf(h, tmp, root)
      invariant Path(h, root, tmp) + Reversed(list) == Path(h, root, tip)
      decreases h.Depth(tmp)
    {
      WalkStep(h, root, tip, tmp, list);
      list := list + [tmp];
      tmp := h.parent[tmp];
    }
    WalkEnd(h, root, tip, list);
    list := list + [root];
    list := Reversed(list);
    chain := list;
  }

  /** One length per joint: 0 for the root, then each joint's |localPosition|. */
  method ExtractLengths(h: Hierarchy, chain: seq<Node>) returns (lengths: seq<real>)
    requires h.Valid() && |chain| > 0
    ensures lengths == SegmentLengths(h, chain)
    ensures |lengths| == |chain| && lengths[0] == 0.0
    ensures forall i :: 1 <= i < |chain| ==> lengths[i] == h.Magnitude(chain[i])
    ensures NonNegative(lengths)
  {
    var a := new real[|chain|];
    a[0] := 0.0;
    for i := 1 to |chain|
      invariant a[0] == 0.0
      invariant forall k :: 1 <= k < i ==> a[k] == h.Magnitude(chain[k])
    {
      a[i] := h.Magnitude(chain[i]);
    }
    lengths := a[..];
    SegmentLengthsShape(h, chain);
  }

  /** `Array.ForEach(lengths, length => totalLength += length)`: the total of all lengths. */
  method SumAll(lengths: seq<real>) returns (totalLength: real)
    ensures totalLength == Sum(lengths)
  {
    totalLength := 0.0;
    for i := 0 to |lengths|
      invariant totalLength == Sum(lengths[..i])
    {
      assert lengths[..i + 1][..i] == lengths[..i];
      totalLength := totalLength + lengths[i];
    }
    assert lengths[..|lengths|] == lengths;
  }

  /** The loop of `ExtractSteps`: the length accumulated up to each joint over the total. */
  method AccumulateSteps(lengths: seq<real>, totalLength: real) returns (steps: seq<real>)
    requires totalLength == Sum(lengths) && totalLength > 0.0
    ensures steps == Steps(lengths)
  {
    var a := new real[|lengths|];
    var cumulativeLength := 0.0;
    for i := 0 to |lengths|
      invariant cumulativeLength == Sum(lengths[..i])
      invariant a[..i] == Steps(lengths)[..i]
    {
      assert lengths[..i + 1][..i] == lengths[..i];
      cumulativeLength := cumulativeLength + lengths[i];
      var t := cumulativeLength / totalLength;
      a[i] := t;
      assert a[..i + 1] == a[..i] + [Steps(lengths)[i]];
    }
    steps := a[..];
    assert a[..] == a[..|lengths|];
  }

  /**
   * Step i is the length accumulated from the root to joint i over the total
   * length. The source divides without a guard, so a positive total is required.
   */
  method ExtractSteps(h: Hierarchy, chain: seq<Node>) returns (steps: seq<real>)
    requires h.Valid() && |chain| > 0 && TotalLength(h, chain) > 0.0
    ensures steps == Steps(SegmentLengths(h, chain))
    ensures |steps| == |chain|
    ensures steps[0] == 0.0 && steps[|chain| - 1] == 1.0
    ensures NonDecreasing(steps) && InUnitRange(steps)
  {
    var lengths := ExtractLengths(h, chain);

    var totalLength := SumAll(lengths);

    steps := AccumulateSteps(lengths, totalLength);
    ChainStepsShape(h, chain);
  }
}
