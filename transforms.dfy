/**
 * The transform hierarchy the rig constraints read: a finite forest given by a
 * parent relation, with the local-position magnitude of every transform.
 *
 * The `depth` map is the witness that the parent relation is acyclic: every
 * transform that has a parent sits exactly one level below it. Transforms
 * outside `depth` have no parent (they are scene roots).
 */
module Transforms {

  /** A transform, identified by an id. A bound transform handle is identified with its transform. */
  type Node = int

  datatype Hierarchy = Hierarchy(
    parent: map<Node, Node>,
    depth: map<Node, nat>,
    localMagnitude: map<Node, real>)  // |localPosition|, the offset of a transform from its parent
  {
    ghost predicate Valid() {
      && (forall n :: n in parent ==> n in depth && parent[n] in depth && depth[n] == depth[parent[n]] + 1)
      && (forall n :: n in localMagnitude ==> localMagnitude[n] >= 0.0)
    }

    /** A transform absent from `localMagnitude` sits at its parent's origin. */
    function Magnitude(n: Node): real {
      if n in localMagnitude then localMagnitude[n] else 0.0
    }

    function Depth(n: Node): nat {
      if n in depth then depth[n] else 0
    }
  }

  /** Unity's `Transform.IsChildOf`: `n` is `ancestor` itself or lies anywhere below it. */
  function IsChildOf(h: Hierarchy, n: Node, ancestor: Node): bool
    requires h.Valid()
    decreases h.Depth(n)
  {
    n == ancestor || (n in h.parent && IsChildOf(h, h.parent[n], ancestor))
  }

  /** The path from `root` down to `tip`, root first: what chain extraction must return. */
  ghost function Path(h: Hierarchy, root: Node, tip: Node): (p: seq<Node>)
    requires h.Valid() && IsChildOf(h, tip, root)
    ensures |p| >= 1
    ensures |p| == h.Depth(tip) - h.Depth(root) + 1
    ensures p[0] == root && p[|p| - 1] == tip
    decreases h.Depth(tip)
  {
    if tip == root then [root] else Path(h, root, h.parent[tip]) + [tip]
  }

  /** Every element after the first is a child of the element before it. */
  ghost predicate Linked(h: Hierarchy, c: seq<Node>) {
    forall i :: 1 <= i < |c| ==> c[i] in h.parent && h.parent[c[i]] == c[i - 1]
  }

  ghost predicate Distinct(c: seq<Node>) {
    forall i, j :: 0 <= i < j < |c| ==> c[i] != c[j]
  }

  /** Along the path, each joint is one level deeper than the one before it. */
  lemma {:induction false} PathDepths(h: Hierarchy, root: Node, tip: Node)
    requires h.Valid() && IsChildOf(h, tip, root)
    ensures forall i :: 0 <= i < |Path(h, root, tip)| ==> h.Depth(Path(h, root, tip)[i]) == h.Depth(root) + i
    decreases h.Depth(tip)
  {
    if tip != root {
      PathDepths(h, root, h.parent[tip]);
    }
  }

  /** The path follows the parent relation and never visits a transform twice. */
  lemma {:induction false} PathLinkedAndDistinct(h: Hierarchy, root: Node, tip: Node)
    requires h.Valid() && IsChildOf(h, tip, root)
    ensures Linked(h, Path(h, root, tip))
    ensures Distinct(Path(h, root, tip))
    decreases h.Depth(tip)
  {
    var p := Path(h, root, tip);
    PathDepths(h, root, tip);
    if tip != root {
      var q := Path(h, root, h.parent[tip]);
      PathLinkedAndDistinct(h, root, h.parent[tip]);
      assert p == q + [tip];
      forall i | 1 <= i < |p| ensures p[i] in h.parent && h.parent[p[i]] == p[i - 1] {
        if i < |q| {
          assert p[i] == q[i] && p[i - 1] == q[i - 1];
        }
      }
    }
    forall i, j | 0 <= i < j < |p| ensures p[i] != p[j] {
      assert h.Depth(p[i]) == h.Depth(root) + i;
      assert h.Depth(p[j]) == h.Depth(root) + j;
    }
  }

  /**
   * The path is the only linked sequence from `root` to `tip`; and a linked
   * sequence from `root` to `tip` exists only when `tip` lies under `root`.
   */
  lemma {:induction false} PathUnique(h: Hierarchy, root: Node, tip: Node, c: seq<Node>)
    requires h.Valid()
    requires |c| >= 1 && c[0] == root && c[|c| - 1] == tip && Linked(h, c)
    ensures IsChildOf(h, tip, root)
    ensures c == Path(h, root, tip)
    decreases |c|
  {
    if |c| == 1 {
      assert tip == root;
    } else {
      var c' := c[..|c| - 1];
      var up := h.parent[tip];
      assert c'[|c'| - 1] == up;
      assert Linked(h, c') by {
        forall i | 1 <= i < |c'| ensures c'[i] in h.parent && h.parent[c'[i]] == c'[i - 1] {
          assert c'[i] == c[i] && c'[i - 1] == c[i - 1];
        }
      }
      PathUnique(h, root, up, c');
      assert h.Depth(tip) == h.Depth(up) + 1;
      assert tip != root;
      assert c == c' + [tip];
    }
  }

  /** Models `List.Reverse`. */
  function Reversed<T>(s: seq<T>): (r: seq<T>)
    ensures |r| == |s|
    ensures forall i :: 0 <= i < |s| ==> r[i] == s[|s| - 1 - i]
  {
    if s == [] then [] else [s[|s| - 1]] + Reversed(s[..|s| - 1])
  }

  lemma ReversedSnoc<T>(s: seq<T>, x: T)
    ensures Reversed(s + [x]) == [x] + Reversed(s)
  {
    assert (s + [x])[..|s|] == s;
  }

  /**
   * One step of the walk `tmp = tmp.parent` used by chain extraction: if the
   * accumulated list, reversed, completes the path from `root` to `tmp` into the
   * path to `tip`, appending `tmp` and moving up keeps it so.
   */
  lemma WalkStep(h: Hierarchy, root: Node, tip: Node, tmp: Node, acc: seq<Node>)
    requires h.Valid() && IsChildOf(h, tip, root) && IsChildOf(h, tmp, root) && tmp != root
    requires Path(h, root, tmp) + Reversed(acc) == Path(h, root, tip)
    ensures tmp in h.parent && IsChildOf(h, h.parent[tmp], root)
    ensures h.Depth(h.parent[tmp]) < h.Depth(tmp)
    ensures Path(h, root, h.parent[tmp]) + Reversed(acc + [tmp]) == Path(h, root, tip)
  {
    ReversedSnoc(acc, tmp);
    assert Path(h, root, tmp) == Path(h, root, h.parent[tmp]) + [tmp];
  }

  /** The last step of the walk: appending `root` and reversing yields the path. */
  lemma WalkEnd(h: Hierarchy, root: Node, tip: Node, acc: seq<Node>)
    requires h.Valid() && IsChildOf(h, tip, root)
    requires Path(h, root, root) + Reversed(acc) == Path(h, root, tip)
    ensures Reversed(acc + [root]) == Path(h, root, tip)
  {
    ReversedSnoc(acc, root);
  }
}
