/** Three-vectors over the reals, with the operations the converter applies to positions and directions. */
module Vectors {

  datatype Vec3 = Vec3(x: real, y: real, z: real)

  function Sub(a: Vec3, b: Vec3): Vec3 { Vec3(a.x - b.x, a.y - b.y, a.z - b.z) }

  function Neg(a: Vec3): Vec3 { Vec3(-a.x, -a.y, -a.z) }

  /** Component-wise division, as the source's `v[j] /= Norm` loops */
  function Div(a: Vec3, k: real): Vec3
    requires k != 0.0
  {
    Vec3(a.x / k, a.y / k, a.z / k)
  }

  function Dot(a: Vec3, b: Vec3): real { a.x * b.x + a.y * b.y + a.z * b.z }

  /** `TVector3::Cross` */
  function Cross(a: Vec3, b: Vec3): Vec3
  {
    Vec3(a.y * b.z - a.z * b.y, a.z * b.x - a.x * b.z, a.x * b.y - a.y * b.x)
  }

  /** The transcendental and root functions the converter calls, none of which is modelled:
      `sqrt` is `TMath::Sqrt`, `atan2` is the C library's, `angle` is `TVector3::Angle`,
      and `pi` is `TMath::Pi()`. */
  datatype Numerics = Numerics(
    sqrt: real -> real,
    atan2: (real, real) -> real,
    angle: (Vec3, Vec3) -> real,
    pi: real)

  /** Euclidean length computed as the source does, `Sqrt(x*x + y*y + z*z)` */
  function Norm(num: Numerics, v: Vec3): real { num.sqrt(Dot(v, v)) }

  /** The cross product is orthogonal to both of its arguments. */
  lemma CrossOrthogonal(a: Vec3, b: Vec3)
    ensures Dot(Cross(a, b), a) == 0.0 && Dot(Cross(a, b), b) == 0.0
  {
  }
}
