/** Injection-source frame (app/WCSIM_TreeConvert.cc, before the per-PMT loop): the light-injection
    source always points perpendicular to the wall it sits on, so its direction and two local axes
    follow from the event vertex alone. */
module SourceFrame {
  import opened Basics
  import opened Vectors

  datatype Frame = Frame(dir: Vec3, localX: Vec3, localY: Vec3)

  /** The injector's mounting: on the barrel wall, or on the top or bottom end-cap. */
  datatype Mounting = Barrel | TopEndcap | BottomEndcap

  /** The cut `GetWCCylLength()/2 * 0.9` that separates barrel from end-cap injectors */
  function EndcapZ(cylLength: real): real { cylLength / 2.0 * 0.9 }

  function Classify(vtx: Vec3, cylLength: real): (m: Mounting)
    ensures m == Barrel <==> Abs(vtx.z) < 9.0 * cylLength / 20.0
    ensures m == TopEndcap <==> m != Barrel && vtx.z > 9.0 * cylLength / 20.0
  {
    var endcapZ := EndcapZ(cylLength);
    if Abs(vtx.z) < endcapZ then Barrel
    else if vtx.z > endcapZ then TopEndcap
    else BottomEndcap
  }

  /** Cylindrical radius of the vertex, `sqrt(x*x + y*y)` */
  function Rho(num: Numerics, vtx: Vec3): real { num.sqrt(vtx.x * vtx.x + vtx.y * vtx.y) }

  /** The frame of an injector at `vtx`. A barrel injector looks at the detector axis; an end-cap
      injector looks along -z from the top and +z otherwise, with the local y-axis flipped so that
      localX x localY is the direction in every case. A barrel vertex on the axis itself (radius 0)
      is outside what the source can handle (it divides by the radius). */
  function SourceFrameOf(num: Numerics, vtx: Vec3, cylLength: real): (f: Frame)
    requires Classify(vtx, cylLength) == Barrel ==> Rho(num, vtx) != 0.0
    ensures Cross(f.localX, f.localY) == f.dir
    ensures Dot(f.localX, f.dir) == 0.0 && Dot(f.localY, f.dir) == 0.0 && Dot(f.localX, f.localY) == 0.0
    ensures Classify(vtx, cylLength) == TopEndcap ==>
              f == Frame(Vec3(0.0, 0.0, -1.0), Vec3(1.0, 0.0, 0.0), Vec3(0.0, -1.0, 0.0))
    ensures Classify(vtx, cylLength) == BottomEndcap ==>
              f == Frame(Vec3(0.0, 0.0, 1.0), Vec3(1.0, 0.0, 0.0), Vec3(0.0, 1.0, 0.0))
    ensures Classify(vtx, cylLength) == Barrel ==>
              f.localX == Vec3(0.0, 0.0, 1.0) && f.dir.z == 0.0 &&
              f.dir.x * vtx.y == f.dir.y * vtx.x &&
              f.dir.x * Rho(num, vtx) == -vtx.x && f.dir.y * Rho(num, vtx) == -vtx.y
  {
    if Classify(vtx, cylLength) == Barrel then
      var norm := Rho(num, vtx);
      Frame(Vec3(vtx.x / -norm, vtx.y / -norm, 0.0),
            Vec3(0.0, 0.0, 1.0),
            Vec3(-vtx.y / norm, vtx.x / norm, 0.0))
    else if vtx.z > EndcapZ(cylLength) then
      Frame(Vec3(0.0, 0.0, -1.0), Vec3(1.0, 0.0, 0.0), Vec3(0.0, -1.0, 0.0))
    else
      Frame(Vec3(0.0, 0.0, 1.0), Vec3(1.0, 0.0, 0.0), Vec3(0.0, 1.0, 0.0))
  }

  /** The boundary itself is an end-cap position: a vertex exactly at z == endcapZ (for a positive
      length) is not barrel, is not strictly above the cut, and so gets the +z direction. */
  lemma BoundaryVertexPointsUp(num: Numerics, vtx: Vec3, cylLength: real)
    requires cylLength > 0.0 && vtx.z == EndcapZ(cylLength)
    ensures Classify(vtx, cylLength) == BottomEndcap
    ensures SourceFrameOf(num, vtx, cylLength).dir == Vec3(0.0, 0.0, 1.0)
  {
  }
}
