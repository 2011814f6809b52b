/**
 * What one evaluation of a twist-chain job does to the stream: the rotation of
 * every chain joint, in index order, blended toward an orientation between the
 * two target rotations, and then the two target handles moved onto the ends of
 * the chain. Each twist-chain variant feeds the blend a different parameter
 * per joint (shaped weights, raw steps, or index-uniform weights).
 */
module TwistBlend {
  import opened Transforms
  import opened Animation

  ghost predicate AllBound(chain: seq<Node>, rot: map<Node, Quat>) {
    forall i :: 0 <= i < |chain| ==> chain[i] in rot
  }

  /**
   * The rotations after `SetRotation(chain[i], Lerp(cur_i, Lerp(rootRot, tipRot, params[i]), w))`
   * has run for i = 0, 1, ... in order, where cur_i is joint i's rotation at that moment.
   */
  ghost function BlendedRotations(rot: map<Node, Quat>, chain: seq<Node>, params: seq<real>,
                                  rootRot: Quat, tipRot: Quat, w: real, qlerp: QuatLerp): (r: map<Node, Quat>)
    requires |params| == |chain| && AllBound(chain, rot)
    ensures r.Keys == rot.Keys
    decreases |chain|
  {
    if chain == [] then rot
    else
      var n := |chain| - 1;
      assert AllBound(chain[..n], rot) by {
        forall i | 0 <= i < n ensures chain[..n][i] in rot {
          assert chain[..n][i] == chain[i];
        }
      }
      var before := BlendedRotations(rot, chain[..n], params[..n], rootRot, tipRot, w, qlerp);
      before[chain[n] := qlerp(before[chain[n]], qlerp(rootRot, tipRot, params[n]), w)]
  }

  /** One more loop iteration extends the blended prefix by one joint. */
  lemma BlendedRotationsStep(rot: map<Node, Quat>, chain: seq<Node>, params: seq<real>, i: nat,
                             rootRot: Quat, tipRot: Quat, w: real, qlerp: QuatLerp)
    requires |params| == |chain| && AllBound(chain, rot) && i < |chain|
    ensures AllBound(chain[..i], rot) && AllBound(chain[..i + 1], rot)
    ensures var before := BlendedRotations(rot, chain[..i], params[..i], rootRot, tipRot, w, qlerp);
      BlendedRotations(rot, chain[..i + 1], params[..i + 1], rootRot, tipRot, w, qlerp)
      == before[chain[i] := qlerp(before[chain[i]], qlerp(rootRot, tipRot, params[i]), w)]
  {
    assert chain[..i + 1][..i] == chain[..i];
    assert params[..i + 1][..i] == params[..i];
    assert forall k :: 0 <= k < i + 1 ==> chain[..i + 1][k] == chain[k];
  }

  /** A handle outside the chain keeps its rotation, whether or not the chain repeats a joint. */
  lemma {:induction false} BlendedRotationsOutsideChain(rot: map<Node, Quat>, chain: seq<Node>, params: seq<real>,
                                                        rootRot: Quat, tipRot: Quat, w: real, qlerp: QuatLerp, h: Node)
    requires |params| == |chain| && AllBound(chain, rot)
    requires h in rot && h !in chain
    ensures BlendedRotations(rot, chain, params, rootRot, tipRot, w, qlerp)[h] == rot[h]
    decreases |chain|
  {
    if chain != [] {
      var n := |chain| - 1;
      assert AllBound(chain[..n], rot) by {
        forall i | 0 <= i < n ensures chain[..n][i] in rot {
          assert chain[..n][i] == chain[i];
        }
      }
      assert h !in chain[..n] by {
        forall i | 0 <= i < n ensures chain[..n][i] != h {
          assert chain[..n][i] == chain[i];
        }
      }
      BlendedRotationsOutsideChain(rot, chain[..n], params[..n], rootRot, tipRot, w, qlerp, h);
      assert h != chain[n];
    }
  }

  /**
   * On a chain without repeated joints, joint i ends at
   * `Lerp(its rotation before the call, Lerp(rootRot, tipRot, params[i]), w)`,
   * and every handle outside the chain keeps its rotation.
   */
  lemma {:induction false} BlendedRotationsAt(rot: map<Node, Quat>, chain: seq<Node>, params: seq<real>,
                                              rootRot: Quat, tipRot: Quat, w: real, qlerp: QuatLerp)
    requires |params| == |chain| && AllBound(chain, rot) && Distinct(chain)
    ensures var r := BlendedRotations(rot, chain, params, rootRot, tipRot, w, qlerp);
      forall i :: 0 <= i < |chain| ==> r[chain[i]] == qlerp(rot[chain[i]], qlerp(rootRot, tipRot, params[i]), w)
    ensures var r := BlendedRotations(rot, chain, params, rootRot, tipRot, w, qlerp);
      forall h :: h in rot && h !in chain ==> r[h] == rot[h]
    decreases |chain|
  {
    if chain != [] {
      var n := |chain| - 1;
      var c, p := chain[..n], params[..n];
      assert AllBound(c, rot) by {
        forall i | 0 <= i < n ensures c[i] in rot {
          assert c[i] == chain[i];
        }
      }
      assert Distinct(c) by {
        forall i, j | 0 <= i < j < n ensures c[i] != c[j] {
          assert c[i] == chain[i] && c[j] == chain[j];
        }
      }
      BlendedRotationsAt(rot, c, p, rootRot, tipRot, w, qlerp);
      var before := BlendedRotations(rot, c, p, rootRot, tipRot, w, qlerp);
      var r := BlendedRotations(rot, chain, params, rootRot, tipRot, w, qlerp);
      assert chain[n] !in c by {
        forall i | 0 <= i < n ensures c[i] != chain[n] {
          assert c[i] == chain[i];
        }
      }
      assert before[chain[n]] == rot[chain[n]];
      forall i | 0 <= i < |chain|
        ensures r[chain[i]] == qlerp(rot[chain[i]], qlerp(rootRot, tipRot, params[i]), w)
      {
        if i < n {
          assert c[i] == chain[i] && p[i] == params[i];
          assert chain[i] != chain[n];
        }
      }
      forall h | h in rot && h !in chain ensures r[h] == rot[h] {
        assert h != chain[n];
      }
    }
  }

  /**
   * If `Lerp(a, b, 1)` is `b`, a full-weight evaluation puts joint i exactly at
   * `Lerp(rootRot, tipRot, params[i])`, whatever its previous rotation.
   */
  lemma FullWeightReachesTargets(rot: map<Node, Quat>, chain: seq<Node>, params: seq<real>,
                                 rootRot: Quat, tipRot: Quat, qlerp: QuatLerp)
    requires |params| == |chain| && AllBound(chain, rot) && Distinct(chain)
    requires forall a: Quat, b: Quat :: qlerp(a, b, 1.0) == b
    ensures var r := BlendedRotations(rot, chain, params, rootRot, tipRot, 1.0, qlerp);
      forall i :: 0 <= i < |chain| ==> r[chain[i]] == qlerp(rootRot, tipRot, params[i])
  {
    BlendedRotationsAt(rot, chain, params, rootRot, tipRot, 1.0, qlerp);
  }

  /**
   * If `Lerp(a, b, 0)` is `a`, a zero-weight blend changes no rotation (so the
   * ungated jobs agree with a pass-through at weight 0 only under that law).
   */
  lemma {:induction false} ZeroWeightKeepsRotations(rot: map<Node, Quat>, chain: seq<Node>, params: seq<real>,
                                                    rootRot: Quat, tipRot: Quat, qlerp: QuatLerp)
    requires |params| == |chain| && AllBound(chain, rot)
    requires forall a: Quat, b: Quat :: qlerp(a, b, 0.0) == a
    ensures BlendedRotations(rot, chain, params, rootRot, tipRot, 0.0, qlerp) == rot
    decreases |chain|
  {
    if chain != [] {
      var n := |chain| - 1;
      assert AllBound(chain[..n], rot) by {
        forall i | 0 <= i < n ensures chain[..n][i] in rot {
          assert chain[..n][i] == chain[i];
        }
      }
      ZeroWeightKeepsRotations(rot, chain[..n], params[..n], rootRot, tipRot, qlerp);
      var before := BlendedRotations(rot, chain[..n], params[..n], rootRot, tipRot, 0.0, qlerp);
      assert before[chain[n] := before[chain[n]]] == before;
    }
  }

  /**
   * The positions after `rootTarget.SetPosition(chain[0]'s position)` and then
   * `tipTarget.SetPosition(chain[last]'s position)`, the second read taken after
   * the first write.
   */
  function TrackTargets(pos: map<Node, Vec3>, rootTarget: Node, tipTarget: Node,
                        first: Node, last: Node): (r: map<Node, Vec3>)
    requires rootTarget in pos && tipTarget in pos && first in pos && last in pos
    ensures r.Keys == pos.Keys
    ensures r[tipTarget] == if last == rootTarget then pos[first] else pos[last]
    ensures rootTarget != tipTarget ==> r[rootTarget] == pos[first]
    ensures forall h :: h in pos && h != rootTarget && h != tipTarget ==> r[h] == pos[h]
  {
    var moved := pos[rootTarget := pos[first]];
    moved[tipTarget := moved[last]]
  }
}
