/**
 * What one evaluation of a copy-location job does to the stream's positions:
 * under a positive weight, the constrained handle moves toward the source's
 * position multiplied by a per-axis mask; nothing else is written.
 */
module CopyBlend {
  import opened Transforms
  import opened Animation

  /**
   * The positions after `if (w > 0) constrained.SetPosition(lerp(constrained, source * mask, w))`,
   * both reads taken before the write.
   */
  function CopyPosition(pos: map<Node, Vec3>, constrained: Node, source: Node, mask: Vec3, w: real): (r: map<Node, Vec3>)
    requires constrained in pos && source in pos
    ensures r.Keys == pos.Keys
    ensures w <= 0.0 ==> r == pos
    ensures w > 0.0 ==> r[constrained] == Lerp(pos[constrained], Mul(pos[source], mask), w)
    ensures forall h :: h in pos && h != constrained ==> r[h] == pos[h]
  {
    if w > 0.0 then pos[constrained := Lerp(pos[constrained], Mul(pos[source], mask), w)] else pos
  }

  /** At full weight the constrained handle lands exactly on the masked source. */
  lemma FullWeightCopiesMaskedSource(pos: map<Node, Vec3>, constrained: Node, source: Node, mask: Vec3)
    requires constrained in pos && source in pos
    ensures CopyPosition(pos, constrained, source, mask, 1.0)[constrained] == Mul(pos[source], mask)
  {
  }

  /**
   * When the constrained handle is not the source, a second full-weight copy
   * changes nothing: the constraint is idempotent at weight 1.
   */
  lemma FullWeightCopyIdempotent(pos: map<Node, Vec3>, constrained: Node, source: Node, mask: Vec3)
    requires constrained in pos && source in pos && constrained != source
    ensures var once := CopyPosition(pos, constrained, source, mask, 1.0);
      CopyPosition(once, constrained, source, mask, 1.0) == once
  {
    var once := CopyPosition(pos, constrained, source, mask, 1.0);
    assert once[source] == pos[source];
    assert once[constrained := once[constrained]] == once;
  }

  /**
   * A handle constrained to itself at full weight is mirrored by the mask;
   * a second evaluation mirrors it back.
   */
  lemma {:induction false} SelfCopyTwiceRestores(pos: map<Node, Vec3>, h: Node, xInvert: bool, yInvert: bool, zInvert: bool)
    requires h in pos
    ensures var mask := InvertMask(xInvert, yInvert, zInvert);
      CopyPosition(CopyPosition(pos, h, h, mask, 1.0), h, h, mask, 1.0) == pos
  {
    var mask := InvertMask(xInvert, yInvert, zInvert);
    var once := CopyPosition(pos, h, h, mask, 1.0);
    MaskInvolution(xInvert, yInvert, zInvert, pos[h]);
    assert CopyPosition(once, h, h, mask, 1.0)[h] == pos[h];
    assert CopyPosition(once, h, h, mask, 1.0) == pos[h := pos[h]];
  }
}
