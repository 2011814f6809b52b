/**
 * The animation stream the jobs read and write each frame, and the vector
 * arithmetic of the position-copy constraints (`float3` and `math.lerp`).
 */
module Animation {
  import opened Transforms

  datatype Vec3 = Vec3(x: real, y: real, z: real)

  /** A rotation; its arithmetic stays abstract (blends are passed in as functions). */
  datatype Quat = Quat(x: real, y: real, z: real, w: real)

  /** `Quaternion.Lerp(a, b, t)`, left uninterpreted. */
  type QuatLerp = (Quat, Quat, real) -> Quat

  /** Component-wise product, `float3 * float3`. */
  function Mul(a: Vec3, b: Vec3): Vec3 {
    Vec3(a.x * b.x, a.y * b.y, a.z * b.z)
  }

  function Neg(a: Vec3): Vec3 {
    Vec3(-a.x, -a.y, -a.z)
  }

  /** `math.lerp(a, b, t)`: a + t (b - a), per component. */
  function Lerp(a: Vec3, b: Vec3, t: real): (r: Vec3)
    ensures t == 0.0 ==> r == a
    ensures t == 1.0 ==> r == b
    ensures a == b ==> r == a
  {
    Vec3(a.x + t * (b.x - a.x), a.y + t * (b.y - a.y), a.z + t * (b.z - a.z))
  }

  /** `math.select(1, -1, flag)`: the sign an axis is multiplied by. */
  function AxisSign(invert: bool): (s: real)
    ensures s == 1.0 || s == -1.0
    ensures s < 0.0 <==> invert
  {
    if invert then -1.0 else 1.0
  }

  /** The per-axis invert mask built from three flags. */
  function InvertMask(xInvert: bool, yInvert: bool, zInvert: bool): (m: Vec3)
    ensures m.x < 0.0 <==> xInvert
    ensures m.y < 0.0 <==> yInvert
    ensures m.z < 0.0 <==> zInvert
  {
    Vec3(AxisSign(xInvert), AxisSign(yInvert), AxisSign(zInvert))
  }

  /** Applying a mask twice gives back the original vector: the mask is an involution. */
  lemma MaskInvolution(xInvert: bool, yInvert: bool, zInvert: bool, v: Vec3)
    ensures Mul(Mul(v, InvertMask(xInvert, yInvert, zInvert)), InvertMask(xInvert, yInvert, zInvert)) == v
  {
    var m := InvertMask(xInvert, yInvert, zInvert);
    assert m.x * m.x == 1.0 && m.y * m.y == 1.0 && m.z * m.z == 1.0;
  }

  /** No flag set: the mask leaves the source as it is. */
  lemma MaskNoneIsIdentity(v: Vec3)
    ensures Mul(v, InvertMask(false, false, false)) == v
  {
  }

  /** All flags set: the mask negates the source. */
  lemma MaskAllIsNegation(v: Vec3)
    ensures Mul(v, InvertMask(true, true, true)) == Neg(v)
  {
  }

  /**
   * The animation stream: one rotation and one position per bound transform
   * handle. `Binds(h)` says the handle was bound into the stream.
   */
  class AnimationStream {
    var rotation: map<Node, Quat>
    var position: map<Node, Vec3>

    ghost predicate Binds(h: Node)
      reads this
    {
      h in rotation && h in position
    }

    constructor (rotation: map<Node, Quat>, position: map<Node, Vec3>)
      ensures this.rotation == rotation && this.position == position
    {
      this.rotation := rotation;
      this.position := position;
    }

    method GetRotation(h: Node) returns (q: Quat)
      requires Binds(h)
      ensures q == rotation[h]
    {
      q := rotation[h];
    }

    method SetRotation(h: Node, q: Quat)
      requires Binds(h)
      modifies this
      ensures rotation == old(rotation)[h := q] && position == old(position)
    {
      rotation := rotation[h := q];
    }

    method GetPosition(h: Node) returns (p: Vec3)
      requires Binds(h)
      ensures p == position[h]
    {
      p := position[h];
    }

    method SetPosition(h: Node, p: Vec3)
      requires Binds(h)
      modifies this
      ensures position == old(position)[h := p] && rotation == old(rotation)
    {
      position := position[h := p];
    }

    /** `AnimationRuntimeUtils.PassThrough`: writes the handle's own values back. */
    method PassThrough(h: Node)
      requires Binds(h)
      modifies this
      ensures rotation == old(rotation) && position == old(position)
    {
      rotation := rotation[h := rotation[h]];
      position := position[h := position[h]];
    }
  }
}
