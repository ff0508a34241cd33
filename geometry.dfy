/** Vectors of the GL maths library, as exact reals. */
module Geometry {

  datatype Vec2 = Vec2(x: real, y: real)

  datatype Vec3 = Vec3(x: real, y: real, z: real)

  const Zero: Vec3 := Vec3(0.0, 0.0, 0.0)

  /** The vector holding `a` in component p (0, 1 or 2) and zero in the others. */
  function OneHot(p: nat, a: real): Vec3
    requires p < 3
  {
    if p == 0 then Vec3(a, 0.0, 0.0)
    else if p == 1 then Vec3(0.0, a, 0.0)
    else Vec3(0.0, 0.0, a)
  }

  /** Barycentric coordinate of corner p of a triangle: (1,0,0), (0,1,0), (0,0,1). */
  function Barycentric(p: nat): Vec3
    requires p < 3
  {
    OneHot(p, 1.0)
  }

  function Dot(a: Vec3, b: Vec3): real
  {
    a.x * b.x + a.y * b.y + a.z * b.z
  }

  /** Squared length, `glm::length2`. */
  function Length2(v: Vec3): real
  {
    Dot(v, v)
  }

  function Add(a: Vec3, b: Vec3): Vec3
  {
    Vec3(a.x + b.x, a.y + b.y, a.z + b.z)
  }

  function Scale(v: Vec3, s: real): Vec3
  {
    Vec3(v.x * s, v.y * s, v.z * s)
  }

  /** A 2D coordinate lifted to homogeneous form (u, v, 1). */
  function Lift(c: Vec2): Vec3
  {
    Vec3(c.x, c.y, 1.0)
  }

  /** The barycentric buffer of t triangles: (1,0,0), (0,1,0), (0,0,1) per triangle. */
  function BaryCoords(t: nat): (r: seq<Vec3>)
    ensures |r| == 3 * t
  {
    seq(3 * t, q requires 0 <= q < 3 * t => Barycentric(q % 3))
  }

  /** One more triangle appends one more (1,0,0), (0,1,0), (0,0,1). */
  lemma BaryCoordsNext(t: nat)
    ensures BaryCoords(t + 1) == BaryCoords(t) + [Barycentric(0), Barycentric(1), Barycentric(2)]
  {
    var r := BaryCoords(t) + [Barycentric(0), Barycentric(1), Barycentric(2)];
    forall q | 0 <= q < 3 * (t + 1)
      ensures BaryCoords(t + 1)[q] == r[q]
    {
      if q >= 3 * t {
        assert q % 3 == q - 3 * t;
      }
    }
  }

  /** The scale factors of a quantity constructed without any: one zero per
      entry, pushed one by one. */
  method Zeros(n: nat) returns (r: seq<real>)
    ensures |r| == n
    ensures forall i :: 0 <= i < n ==> r[i] == 0.0
  {
    r := [];
    var i := 0;
    while i < n
      invariant 0 <= i <= n
      invariant |r| == i
      invariant forall k :: 0 <= k < i ==> r[k] == 0.0
    {
      r := r + [0.0];
      i := i + 1;
    }
  }

  /** Each vector passed through a vector mapper (the affine remapper that
      rescales vectors for display belongs to the rendering library). */
  function Mapped(vs: seq<Vec3>, mapVector: Vec3 -> Vec3): (r: seq<Vec3>)
    ensures |r| == |vs|
  {
    seq(|vs|, i requires 0 <= i < |vs| => mapVector(vs[i]))
  }
}
