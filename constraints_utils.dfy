/** `ConstraintsUtils` of the finished constraints (Assets/Constraints): chain extraction into a list. */
module ConstraintsUtils {
  import opened Transforms

  /**
   * Walks from `tip` up the parent relation to `root` and returns the joints
   * root first; the empty list when `tip` is neither `root` nor below it.
   */
  method ExtractChain(h: Hierarchy, root: Node, tip: Node) returns (chain: seq<Node>)
    requires h.Valid()
    ensures !IsChildOf(h, tip, root) ==> chain == []
    ensures IsChildOf(h, tip, root) ==> chain == Path(h, root, tip)
    ensures IsChildOf(h, tip, root) ==> chain[0] == root && chain[|chain| - 1] == tip
    ensures IsChildOf(h, tip, root) ==> |chain| == h.Depth(tip) - h.Depth(root) + 1
  {
    chain := [];
    if !IsChildOf(h, tip, root) {
      return;
    }
    var tmp := tip;
    while tmp != root
      invariant IsChildOf(h, tmp, root)
      invariant Path(h, root, tmp) + Reversed(chain) == Path(h, root, tip)
      decreases h.Depth(tmp)
    {
      WalkStep(h, root, tip, tmp, chain);
      chain := chain + [tmp];
      tmp := h.parent[tmp];
    }
    WalkEnd(h, root, tip, chain);
    chain := chain + [root];
    chain := Reversed(chain);
  }
}
