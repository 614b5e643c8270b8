/** The per-PMT geometry table and the reweight caches (app/WCSIM_TreeConvert.cc, the loop over
    PMT types and PMT indices before the event loop). For every PMT of every type the converter
    records its position relative to the source, angles, solid angle and combined reweight factor,
    and keeps the two reweight factors per PMT so that the hit loops can look them up. */
module PmtTable {
  import opened Basics
  import opened Vectors
  import opened SourceFrame
  import opened ConvertOptions

  /** 0: 20-inch B&L PMTs; 1: 3-inch PMTs grouped into mPMT modules */
  type PmtType = t: int | 0 <= t < 2

  /** `nPMTpermPMT`; the last sub-id of a module, 18, is its central PMT */
  const PmtsPerModule := 19
  const CentralSubId := PmtsPerModule - 1

  datatype Pmt = Pmt(position: Vec3, orientation: Vec3)

  /** What `WCSimRootGeom` provides: the PMTs of each type, the PMT radius of each type and the
      length of the detector cylinder. */
  datatype Geometry = Geometry(pmts0: seq<Pmt>, pmts1: seq<Pmt>, radius0: real, radius1: real, cylLength: real)

  /** The constructor arguments of `AttenuationZ`: wavelength, source z, slope, ABWFF, RAYFF */
  datatype AttenuationSetup = AttenuationSetup(wavelength: real, z0: real, slope: real, abwff: real, rayff: real)

  /** Collaborators whose code is not part of this model: `CalcGroupVelocity` (m/s),
      `LEDProfile::GetLEDWeight(cosths, phis)`, `AttenuationZ::GetAttenuationZWeight(R, dz)`, and the
      two ad-hoc digitizers, each a map (nPE, time) -> (nPE', time'). */
  datatype Physics = Physics(
    groupVelocity: real -> real,
    ledWeight: (real, real) -> real,
    attenuationWeight: (AttenuationSetup, real, real) -> real,
    digitize0: (real, real) -> (real, real),
    digitize1: (real, real) -> (real, real))

  /** Everything the per-PMT and per-hit computations read: the geometry, the diffuser position
      taken from the first event, its frame, the options, `vg` (the group velocity at the chosen
      wavelength, converted from m/s to m/ns), and the collaborators. */
  datatype Setup = Setup(geo: Geometry, vtx: Vec3, frame: Frame, opts: Options, vg: real, num: Numerics, phys: Physics)

  function Pmts(g: Geometry, t: PmtType): seq<Pmt> { if t == 0 then g.pmts0 else g.pmts1 }

  function Radius(g: Geometry, t: PmtType): real { if t == 0 then g.radius0 else g.radius1 }

  /** `nPMTs_type0` / `nPMTs_type1`: mPMTs are counted only in a hybrid run */
  function NumPmts(s: Setup, t: PmtType): nat
  {
    if t == 0 then |s.geo.pmts0| else if s.opts.hybrid then |s.geo.pmts1| else 0
  }

  function AttenSetupOf(s: Setup): AttenuationSetup
  {
    AttenuationSetup(s.opts.wavelength, s.vtx.z, s.opts.slopeA, s.opts.abwff, s.opts.rayff)
  }

  // ---- module indexing ----

  /** `mPMT_id`: 0 for a B&L PMT, otherwise the position of the PMT inside its 19-PMT module */
  function SubId(t: PmtType, id: nat): (m: nat)
    ensures t == 0 ==> m == 0
    ensures t == 1 ==> m < PmtsPerModule && m <= id && (id - m) % PmtsPerModule == 0
  {
    if t == 0 then 0 else id % PmtsPerModule
  }

  /** `idx_centralpmt`: the central PMT of the module holding `id`, the last index of its block */
  function CentralIndex(id: nat): (c: nat)
    ensures c / PmtsPerModule == id / PmtsPerModule
    ensures SubId(1, c) == CentralSubId
    ensures id <= c && c - id == CentralSubId - SubId(1, id)
  {
    (id / PmtsPerModule) * PmtsPerModule + PmtsPerModule - 1
  }

  /** With whole modules only, the central PMT of any mPMT PMT exists. */
  lemma CentralIndexInRange(id: nat, n: nat)
    requires id < n && n % PmtsPerModule == 0
    ensures CentralIndex(id) < n
  {
    var b := id / PmtsPerModule;
    assert id == b * PmtsPerModule + id % PmtsPerModule;
    assert n == (n / PmtsPerModule) * PmtsPerModule;
    assert b < n / PmtsPerModule;
  }

  // ---- geometry seen from the source ----

  /** A PMT the source can see: the converter divides by the PMT's distance and by the length of
      its orientation, and by the root in the solid-angle formula. */
  ghost predicate Usable(s: Setup, t: PmtType, p: Pmt)
  {
    var d := Norm(s.num, Sub(p.position, s.vtx));
    d != 0.0 && Norm(s.num, p.orientation) != 0.0 &&
    SolidAngleRoot(s.num, Radius(s.geo, t), d) != 0.0
  }

  /** What `main` relies on without checking it: every PMT can be seen, and a hybrid geometry
      holds whole mPMT modules. */
  ghost predicate ValidSetup(s: Setup)
  {
    && (forall i :: 0 <= i < |s.geo.pmts0| ==> Usable(s, 0, s.geo.pmts0[i]))
    && (s.opts.hybrid ==> forall i :: 0 <= i < |s.geo.pmts1| ==> Usable(s, 1, s.geo.pmts1[i]))
    && (s.opts.hybrid ==> |s.geo.pmts1| % PmtsPerModule == 0)
  }

  /** Distance, unit vector towards the PMT, unit orientation, and the three source angles */
  datatype Sight = Sight(dist: real, u: Vec3, o: Vec3, costh: real, cosths: real, phis: real)

  function SightOf(s: Setup, t: PmtType, p: Pmt): Sight
    requires Usable(s, t, p)
  {
    var rel := Sub(p.position, s.vtx);
    var dist := Norm(s.num, rel);
    var u := Div(rel, dist);
    var o := Div(p.orientation, Norm(s.num, p.orientation));
    Sight(dist, u, o, -Dot(u, o), Dot(u, s.frame.dir),
          s.num.atan2(Dot(u, s.frame.localY), Dot(u, s.frame.localX)))
  }

  /** `CalcSolidAngle(r, R, costh)`: solid angle of a disc of radius r seen face-on from distance R.
      The incidence cosine is an argument the formula does not use. */
  function CalcSolidAngle(num: Numerics, r: real, dist: real, costh: real): real
    requires SolidAngleRoot(num, r, dist) != 0.0
  {
    2.0 * num.pi * (1.0 - dist / SolidAngleRoot(num, r, dist))
  }

  /** The solid angle does not depend on the incidence cosine: the weighting by it is commented out. */
  lemma SolidAngleIgnoresIncidence(num: Numerics, r: real, dist: real, costh: real, costh': real)
    requires SolidAngleRoot(num, r, dist) != 0.0
    ensures CalcSolidAngle(num, r, dist, costh) == CalcSolidAngle(num, r, dist, costh')
    ensures dist == SolidAngleRoot(num, r, dist) ==> CalcSolidAngle(num, r, dist, costh) == 0.0
  { }

  /** `sqrt(R*R + r*r)` */
  function SolidAngleRoot(num: Numerics, r: real, dist: real): real { num.sqrt(dist * dist + r * r) }

  /** `costhm` and `phim` of an mPMT PMT that is not its module's centre: the incidence cosine on the
      central PMT's orientation, and the angle between orientation x (central - here) and
      orientation x (-u), i.e. the photon's azimuth around the PMT axis measured from the centre. */
  function ModuleAngles(s: Setup, p: Pmt, central: Pmt, v: Sight): (real, real)
  {
    var toCentral := Sub(central.position, p.position);
    (-Dot(v.u, central.orientation),
     s.num.angle(Cross(v.o, toCentral), Cross(v.o, Neg(v.u))))
  }

  /** `phim` is an azimuth around the PMT's own axis: both vectors whose angle it is are
      perpendicular to the PMT's orientation. */
  lemma PhimIsAzimuth(s: Setup, p: Pmt, central: Pmt, v: Sight)
    ensures var toCentral := Cross(v.o, Sub(central.position, p.position));
            var toPhoton := Cross(v.o, Neg(v.u));
            && Dot(toCentral, v.o) == 0.0 && Dot(toPhoton, v.o) == 0.0
            && ModuleAngles(s, p, central, v).1 == s.num.angle(toCentral, toPhoton)
  {
    CrossOrthogonal(v.o, Sub(central.position, p.position));
    CrossOrthogonal(v.o, Neg(v.u));
  }

  // ---- weights ----

  /** `weight`: starts at 1 and is multiplied by the LED factor, then by the attenuation factor,
      each only when its reweight is enabled. */
  function ChainWeights(diffuser: bool, led: real, zreweight: bool, atten: real): real
  {
    var w0 := 1.0;
    var w1 := if diffuser then Weighted(w0, led) else w0;
    if zreweight then Weighted(w1, atten) else w1
  }

  /** `x *= weight` */
  function Weighted(x: real, weight: real): real { x * weight }

  /** The chained weight is the product of exactly the enabled factors, and 1 when none is. */
  lemma ChainWeightsProduct(diffuser: bool, led: real, zreweight: bool, atten: real)
    ensures ChainWeights(diffuser, led, zreweight, atten) ==
            (if diffuser then led else 1.0) * (if zreweight then atten else 1.0)
    ensures !diffuser && !zreweight ==> ChainWeights(diffuser, led, zreweight, atten) == 1.0
  {
  }

  /** The value a cache entry holds: the factor when its reweight is enabled, else the -1 it was
      created with. */
  function CacheEntry(enabled: bool, factor: real): real { if enabled then factor else -1.0 }

  function LedFactor(s: Setup, t: PmtType, i: nat): real
    requires ValidSetup(s) && i < NumPmts(s, t)
  {
    var v := SightOf(s, t, Pmts(s.geo, t)[i]);
    s.phys.ledWeight(v.cosths, v.phis)
  }

  function AttenFactor(s: Setup, t: PmtType, i: nat): real
    requires ValidSetup(s) && i < NumPmts(s, t)
  {
    var p := Pmts(s.geo, t)[i];
    s.phys.attenuationWeight(AttenSetupOf(s), SightOf(s, t, p).dist, p.position.z - s.vtx.z)
  }

  // ---- the table ----

  /** One entry of `pmt_type0` / `pmt_type1` */
  datatype PmtRow = PmtRow(
    dist: real, costh: real, cosths: real, phis: real, costhm: real, phim: real,
    omega: real, dz: real, pmtId: int, mpmtId: int, weight: real)

  /** The row the loop fills for PMT `i` of type `t` (its properties: PmtRowFacts). */
  function PmtRowOf(s: Setup, t: PmtType, i: nat): PmtRow
    requires ValidSetup(s) && i < NumPmts(s, t)
  {
    var p := Pmts(s.geo, t)[i];
    var v := SightOf(s, t, p);
    var m := SubId(t, i);
    var angles := if t == 1 && m != CentralSubId then
                    CentralIndexInRange(i, |s.geo.pmts1|);
                    ModuleAngles(s, p, s.geo.pmts1[CentralIndex(i)], v)
                  else (v.costh, 0.0);
    PmtRow(v.dist, v.costh, v.cosths, v.phis, angles.0, angles.1,
           CalcSolidAngle(s.num, Radius(s.geo, t), v.dist, v.costh),
           p.position.z - s.vtx.z, i, m,
           ChainWeights(s.opts.diffuserProfile, LedFactor(s, t, i), s.opts.zreweight, AttenFactor(s, t, i)))
  }

  /** What a table row says: `PMT_id` is the index, `mPMT_id` its module sub-id, `dz` the height
      above the source; a B&L PMT or a module's central PMT keeps costhm = costh and phim = 0,
      every other mPMT PMT is measured against the central PMT of its own module; and the weight is
      the product of exactly the enabled factors. */
  lemma PmtRowFacts(s: Setup, t: PmtType, i: nat)
    requires ValidSetup(s) && i < NumPmts(s, t)
    ensures var r := PmtRowOf(s, t, i);
      && r.pmtId == i && r.mpmtId == SubId(t, i)
      && r.dz == Pmts(s.geo, t)[i].position.z - s.vtx.z
      && r.dist == Norm(s.num, Sub(Pmts(s.geo, t)[i].position, s.vtx))
      && (t == 0 || SubId(t, i) == CentralSubId ==> r.costhm == r.costh && r.phim == 0.0)
      && (t == 1 && SubId(t, i) != CentralSubId ==>
            CentralIndex(i) < NumPmts(s, 1) && SubId(1, CentralIndex(i)) == CentralSubId &&
            (r.costhm, r.phim) == ModuleAngles(s, Pmts(s.geo, 1)[i], Pmts(s.geo, 1)[CentralIndex(i)],
                                               SightOf(s, 1, Pmts(s.geo, 1)[i])))
      && r.weight == (if s.opts.diffuserProfile then LedFactor(s, t, i) else 1.0) *
                     (if s.opts.zreweight then AttenFactor(s, t, i) else 1.0)
  {
    if t == 1 {
      CentralIndexInRange(i, |s.geo.pmts1|);
    }
    ChainWeightsProduct(s.opts.diffuserProfile, LedFactor(s, t, i), s.opts.zreweight, AttenFactor(s, t, i));
  }

  /** The body of the inner loop for PMT `i`: computes its row with the shared `weight` variable
      and writes the enabled factors into slot `i` of the caches. */
  method FillPmt(s: Setup, t: PmtType, i: nat, led: array<real>, att: array<real>) returns (row: PmtRow)
    requires ValidSetup(s) && i < NumPmts(s, t)
    requires led.Length == NumPmts(s, t) && att.Length == NumPmts(s, t) && led != att
    modifies led, att
    ensures row == PmtRowOf(s, t, i)
    ensures led[i] == (if s.opts.diffuserProfile then LedFactor(s, t, i) else old(led[i]))
    ensures att[i] == (if s.opts.zreweight then AttenFactor(s, t, i) else old(att[i]))
    ensures forall k :: 0 <= k < led.Length && k != i ==> led[k] == old(led[k])
    ensures forall k :: 0 <= k < att.Length && k != i ==> att[k] == old(att[k])
  {
    var p := Pmts(s.geo, t)[i];
    var mpmtId := SubId(t, i);
    var v := SightOf(s, t, p);
    var weight := 1.0;
    if s.opts.diffuserProfile {
      var wgt := s.phys.ledWeight(v.cosths, v.phis);
      weight := Weighted(weight, wgt);
      led[i] := wgt;
    }
    var omega := CalcSolidAngle(s.num, Radius(s.geo, t), v.dist, v.costh);
    var costhm, phim := v.costh, 0.0;
    if t == 1 && mpmtId != CentralSubId {
      CentralIndexInRange(i, |s.geo.pmts1|);
      var angles := ModuleAngles(s, p, s.geo.pmts1[CentralIndex(i)], v);
      costhm, phim := angles.0, angles.1;
    }
    var dz := p.position.z - s.vtx.z;
    if s.opts.zreweight {
      var wgt := s.phys.attenuationWeight(AttenSetupOf(s), v.dist, dz);
      weight := Weighted(weight, wgt);
      att[i] := wgt;
    }
    assert weight == ChainWeights(s.opts.diffuserProfile, LedFactor(s, t, i), s.opts.zreweight, AttenFactor(s, t, i));
    row := PmtRow(v.dist, v.costh, v.cosths, v.phis, costhm, phim, omega, dz, i, mpmtId, weight);
  }

  /** The state of the inner loop after the first `i` PMTs: their rows, their cache entries, and
      -1 in every later cache slot */
  ghost predicate Filled(s: Setup, t: PmtType, rows: seq<PmtRow>, led: seq<real>, att: seq<real>, i: nat)
    requires ValidSetup(s) && i <= NumPmts(s, t)
  {
    && |rows| == i && |led| == NumPmts(s, t) && |att| == NumPmts(s, t)
    && (forall k :: 0 <= k < i ==> rows[k] == PmtRowOf(s, t, k))
    && (forall k :: 0 <= k < i ==> led[k] == CacheEntry(s.opts.diffuserProfile, LedFactor(s, t, k)))
    && (forall k :: 0 <= k < i ==> att[k] == CacheEntry(s.opts.zreweight, AttenFactor(s, t, k)))
    && (forall k :: i <= k < |led| ==> led[k] == -1.0)
    && (forall k :: i <= k < |att| ==> att[k] == -1.0)
  }

  lemma FilledStep(s: Setup, t: PmtType, rows: seq<PmtRow>, led: seq<real>, att: seq<real>, i: nat,
                   row: PmtRow, led': seq<real>, att': seq<real>)
    requires ValidSetup(s) && i < NumPmts(s, t) && Filled(s, t, rows, led, att, i)
    requires row == PmtRowOf(s, t, i)
    requires |led'| == |led| && led'[i] == (if s.opts.diffuserProfile then LedFactor(s, t, i) else led[i])
    requires |att'| == |att| && att'[i] == (if s.opts.zreweight then AttenFactor(s, t, i) else att[i])
    requires forall k :: 0 <= k < |led| && k != i ==> led'[k] == led[k]
    requires forall k :: 0 <= k < |att| && k != i ==> att'[k] == att[k]
    ensures Filled(s, t, rows + [row], led', att', i + 1)
  {
  }

  /** The inner loop for one PMT type: appends one row per PMT and stores each enabled factor in
      its cache; a disabled cache keeps -1 everywhere. */
  method FillPmtType(s: Setup, t: PmtType, led: array<real>, att: array<real>) returns (rows: seq<PmtRow>)
    requires ValidSetup(s)
    requires led.Length == NumPmts(s, t) && att.Length == NumPmts(s, t) && led != att
    requires forall k :: 0 <= k < led.Length ==> led[k] == -1.0
    requires forall k :: 0 <= k < att.Length ==> att[k] == -1.0
    modifies led, att
    ensures |rows| == NumPmts(s, t)
    ensures forall i :: 0 <= i < |rows| ==> rows[i] == PmtRowOf(s, t, i)
    ensures IsCache(s, t, led[..], att[..])
  {
    var n := NumPmts(s, t);
    rows := [];
    var i := 0;
    while i < n
      invariant 0 <= i <= n
      invariant Filled(s, t, rows, led[..], att[..], i)
    {
      ghost var led0, att0 := led[..], att[..];
      var row := FillPmt(s, t, i, led, att);
      FilledStep(s, t, rows, led0, att0, i, row, led[..], att[..]);
      rows := rows + [row];
      i := i + 1;
    }
  }

  /** Both caches of both types and both geometry tables, as `main` builds them. */
  method BuildPmtTables(s: Setup)
    returns (led0: array<real>, led1: array<real>, att0: array<real>, att1: array<real>,
             rows0: seq<PmtRow>, rows1: seq<PmtRow>)
    requires ValidSetup(s)
    ensures fresh(led0) && fresh(led1) && fresh(att0) && fresh(att1)
    ensures led0.Length == att0.Length == NumPmts(s, 0) && led1.Length == att1.Length == NumPmts(s, 1)
    ensures |rows0| == NumPmts(s, 0) && |rows1| == NumPmts(s, 1)
    ensures forall i :: 0 <= i < |rows0| ==> rows0[i] == PmtRowOf(s, 0, i)
    ensures forall i :: 0 <= i < |rows1| ==> rows1[i] == PmtRowOf(s, 1, i)
    ensures IsCache(s, 0, led0[..], att0[..]) && IsCache(s, 1, led1[..], att1[..])
  {
    led0 := new real[NumPmts(s, 0)](_ => -1.0);
    led1 := new real[NumPmts(s, 1)](_ => -1.0);
    att0 := new real[NumPmts(s, 0)](_ => -1.0);
    att1 := new real[NumPmts(s, 1)](_ => -1.0);
    rows0 := FillPmtType(s, 0, led0, att0);
    rows1 := FillPmtType(s, 1, led1, att1);
  }

  /** The caches of type `t` as the table loop leaves them */
  ghost predicate IsCache(s: Setup, t: PmtType, led: seq<real>, att: seq<real>)
    requires ValidSetup(s)
  {
    && |led| == NumPmts(s, t) && |att| == NumPmts(s, t)
    && (forall i :: 0 <= i < |led| ==> led[i] == CacheEntry(s.opts.diffuserProfile, LedFactor(s, t, i)))
    && (forall i :: 0 <= i < |att| ==> att[i] == CacheEntry(s.opts.zreweight, AttenFactor(s, t, i)))
  }

  /** The weight a hit on PMT `id` gets from the caches. A cache is read only when its reweight is
      enabled, so a disabled cache's -1 never enters a weight. */
  function HitWeight(opts: Options, led: seq<real>, att: seq<real>, id: int): (w: real)
    requires opts.diffuserProfile ==> 0 <= id < |led|
    requires opts.zreweight ==> 0 <= id < |att|
    ensures !opts.diffuserProfile && !opts.zreweight ==> w == 1.0
  {
    var w0 := 1.0;
    var w1 := if opts.diffuserProfile then Weighted(w0, led[id]) else w0;
    if opts.zreweight then Weighted(w1, att[id]) else w1
  }

  /** The per-hit weight looked up in the caches is the weight the table recorded for that PMT:
      caching changes nothing. */
  lemma HitWeightIsTableWeight(s: Setup, t: PmtType, led: seq<real>, att: seq<real>, id: nat)
    requires ValidSetup(s) && IsCache(s, t, led, att) && id < NumPmts(s, t)
    ensures HitWeight(s.opts, led, att, id) == PmtRowOf(s, t, id).weight
  {
    var r := PmtRowOf(s, t, id);
    if s.opts.diffuserProfile {
      assert led[id] == LedFactor(s, t, id);
    }
    if s.opts.zreweight {
      assert att[id] == AttenFactor(s, t, id);
    }
  }
}
