/** The rows of the two hit trees `hitRate_pmtType0` / `hitRate_pmtType1`
    (app/WCSIM_TreeConvert.cc, the raw-hit and the digitized-hit loops). */
module HitRows {
  import opened Vectors
  import opened ConvertOptions
  import opened PmtTable

  // ---- the simulation's event record, as far as the converter reads it ----

  /** A raw Cherenkov hit: the tube (1-based), the index of its first photon in the hit-time
      array (`GetTotalPe(0)`) and its photon count (`GetTotalPe(1)`). */
  datatype RawHit = RawHit(tubeNumber: int, timeArrayIndex: int, peForTube: int)

  /** One photon of a raw hit: true time, start time and its scattering history counters. */
  datatype HitTime = HitTime(trueTime: real, photonStartTime: real, reflection: int, rayScattering: int, mieScattering: int)

  /** A digitized hit: the tube (1-based), the charge and the time. */
  datatype DigiHit = DigiHit(tubeId: int, q: real, t: real)

  /** Trigger 0 of one detector's super-event. */
  datatype TriggerData = TriggerData(vtx: Vec3, info: seq<real>, rawHits: seq<RawHit>, hitTimes: seq<HitTime>, digiHits: seq<DigiHit>)

  /** One entry of the simulation tree: the B&L detector's trigger and the mPMT detector's trigger
      (the latter read only in a hybrid run). */
  datatype Event = Event(trigger0: TriggerData, trigger1: TriggerData)

  /** A row of a hit tree. Digitized runs have only the first five branches. */
  datatype HitRow =
    | DigitizedRow(nHits: real, nPE: real, timetof: real, pmtId: int, weight: real)
    | RawRow(nHits: real, nPE: real, timetof: real, pmtId: int, weight: real,
             nReflec: int, nRaySct: int, nMieSct: int, photonStartTime: real,
             nPEDigi: real, timetofDigi: real)

  // ---- scattering counters ----

  datatype Scatter = Reflection | Rayleigh | Mie

  predicate Has(h: HitTime, k: Scatter)
  {
    match k
    case Reflection => h.reflection > 0
    case Rayleigh => h.rayScattering > 0
    case Mie => h.mieScattering > 0
  }

  /** The number of photons in `s` whose counter of kind `k` is positive */
  function Tally(s: seq<HitTime>, k: Scatter): (n: nat)
    ensures n <= |s|
    decreases |s|
  {
    if s == [] then 0
    else Tally(s[..|s| - 1], k) + (if Has(s[|s| - 1], k) then 1 else 0)
  }

  /** The count is 0 exactly when no photon has the flag, and |s| exactly when all have it. */
  lemma {:induction false} TallyExtremes(s: seq<HitTime>, k: Scatter)
    ensures Tally(s, k) == 0 <==> forall i :: 0 <= i < |s| ==> !Has(s[i], k)
    ensures Tally(s, k) == |s| <==> forall i :: 0 <= i < |s| ==> Has(s[i], k)
    decreases |s|
  {
    if s != [] {
      var front := s[..|s| - 1];
      assert forall i :: 0 <= i < |front| ==> front[i] == s[i];
      TallyExtremes(front, k);
    }
  }

  /** Counting is additive over a split of the photon list. */
  lemma {:induction false} TallyAppend(a: seq<HitTime>, b: seq<HitTime>, k: Scatter)
    ensures Tally(a + b, k) == Tally(a, k) + Tally(b, k)
    decreases |b|
  {
    if b == [] {
      assert a + b == a;
    } else {
      var b' := b[..|b| - 1];
      assert (a + b)[..|a + b| - 1] == a + b';
      TallyAppend(a, b', k);
    }
  }

  /** The loop over the photons of one hit, `idx` from `timeArrayIndex` to
      `timeArrayIndex + peForTube`. */
  method CountScatters(times: seq<HitTime>, lo: int, n: int) returns (nReflec: int, nRaySct: int, nMieSct: int)
    requires 0 <= lo && 0 <= n && lo + n <= |times|
    ensures nReflec == Tally(times[lo..lo + n], Reflection)
    ensures nRaySct == Tally(times[lo..lo + n], Rayleigh)
    ensures nMieSct == Tally(times[lo..lo + n], Mie)
  {
    nReflec, nRaySct, nMieSct := 0, 0, 0;
    var idx := lo;
    while idx < lo + n
      invariant lo <= idx <= lo + n
      invariant nReflec == Tally(times[lo..idx], Reflection)
      invariant nRaySct == Tally(times[lo..idx], Rayleigh)
      invariant nMieSct == Tally(times[lo..idx], Mie)
    {
      var cht := times[idx];
      assert times[lo..idx + 1][..idx - lo] == times[lo..idx];
      if cht.reflection > 0 { nReflec := nReflec + 1; }
      if cht.rayScattering > 0 { nRaySct := nRaySct + 1; }
      if cht.mieScattering > 0 { nMieSct := nMieSct + 1; }
      idx := idx + 1;
    }
  }

  // ---- timing ----

  /** Time of flight from the diffuser to PMT `id`: positions are in cm, hence the factor 1e-2 */
  function Tof(s: Setup, t: PmtType, id: nat): real
    requires id < NumPmts(s, t) && s.vg != 0.0
  {
    Norm(s.num, Sub(Pmts(s.geo, t)[id].position, s.vtx)) * 0.01 / s.vg
  }

  /** The ad-hoc digitizer of type `t` */
  function Digitize(s: Setup, t: PmtType, nPE: real, time: real): (real, real)
  {
    if t == 0 then s.phys.digitize0(nPE, time) else s.phys.digitize1(nPE, time)
  }

  /** The weight caches of type `t` have one entry per PMT. */
  predicate CacheShape(s: Setup, t: PmtType, led: seq<real>, att: seq<real>)
  {
    |led| == NumPmts(s, t) && |att| == NumPmts(s, t)
  }

  /** The weight lookup both hit loops share: 1, times the LED cache entry when the diffuser
      profile is on, times the attenuation cache entry when z-reweighting is on. */
  method CacheWeight(opts: Options, led: array<real>, att: array<real>, pmtId: int) returns (weight: real)
    requires opts.diffuserProfile ==> 0 <= pmtId < led.Length
    requires opts.zreweight ==> 0 <= pmtId < att.Length
    ensures weight == HitWeight(opts, led[..], att[..], pmtId)
  {
    weight := 1.0;
    if opts.diffuserProfile {
      weight := Weighted(weight, led[pmtId]);
    }
    if opts.zreweight {
      weight := Weighted(weight, att[pmtId]);
    }
  }

  // ---- raw hits ----

  /** What the raw-hit loop dereferences: the tube exists and the photon window lies inside the
      hit-time array. */
  predicate RawHitInRange(s: Setup, t: PmtType, times: seq<HitTime>, h: RawHit)
  {
    && 1 <= h.tubeNumber <= NumPmts(s, t)
    && 0 <= h.timeArrayIndex < |times|
    && 0 <= h.peForTube && h.timeArrayIndex + h.peForTube <= |times|
  }

  /** The row the raw-hit loop fills for one hit. */
  function RawRowOf(s: Setup, t: PmtType, times: seq<HitTime>, h: RawHit, led: seq<real>, att: seq<real>): HitRow
    requires s.vg != 0.0 && CacheShape(s, t, led, att) && RawHitInRange(s, t, times, h)
  {
    var id := h.tubeNumber - 1;
    var first := times[h.timeArrayIndex];
    var window := times[h.timeArrayIndex..h.timeArrayIndex + h.peForTube];
    var timetof := first.trueTime - Tof(s, t, id);
    var nPE := h.peForTube as real;
    var digi := Digitize(s, t, nPE, timetof);
    var w := HitWeight(s.opts, led, att, id);
    RawRow(1.0, Weighted(nPE, w), timetof, id, w,
           Tally(window, Reflection), Tally(window, Rayleigh), Tally(window, Mie),
           first.photonStartTime, Weighted(digi.0, w), digi.1)
  }

  /** What a raw row says: one hit on PMT `tubeNumber - 1`; each scattering counter is at most the
      hit's photon count; the time is the first photon's true time minus the time of flight; the
      photon count is weighted by the cache weight. */
  lemma RawRowFacts(s: Setup, t: PmtType, times: seq<HitTime>, h: RawHit, led: seq<real>, att: seq<real>)
    requires s.vg != 0.0 && CacheShape(s, t, led, att) && RawHitInRange(s, t, times, h)
    ensures var r := RawRowOf(s, t, times, h, led, att);
      && r.RawRow? && r.nHits == 1.0 && r.pmtId == h.tubeNumber - 1
      && 0 <= r.nReflec <= h.peForTube && 0 <= r.nRaySct <= h.peForTube && 0 <= r.nMieSct <= h.peForTube
      && r.timetof + Tof(s, t, h.tubeNumber - 1) == times[h.timeArrayIndex].trueTime
      && r.photonStartTime == times[h.timeArrayIndex].photonStartTime
      && r.weight == HitWeight(s.opts, led, att, h.tubeNumber - 1)
      && r.nPE == h.peForTube as real * r.weight
  {
  }

  /** The body of the raw-hit loop for one hit. */
  method RawHitRow(s: Setup, t: PmtType, times: seq<HitTime>, h: RawHit, led: array<real>, att: array<real>)
    returns (row: HitRow)
    requires s.vg != 0.0 && CacheShape(s, t, led[..], att[..]) && RawHitInRange(s, t, times, h)
    ensures row == RawRowOf(s, t, times, h, led[..], att[..])
  {
    var pmtId := h.tubeNumber - 1;
    var tof := Tof(s, t, pmtId);
    var time := times[h.timeArrayIndex].trueTime;
    var photonStartTime := times[h.timeArrayIndex].photonStartTime;
    var nReflec, nRaySct, nMieSct := CountScatters(times, h.timeArrayIndex, h.peForTube);
    var timetof := time - tof;
    var nHits, nPE := 1.0, h.peForTube as real;
    var digi := Digitize(s, t, nPE, timetof);
    var nPEDigi, timetofDigi := digi.0, digi.1;
    var weight := CacheWeight(s.opts, led, att, pmtId);
    nPE := Weighted(nPE, weight);
    nPEDigi := Weighted(nPEDigi, weight);
    row := RawRow(nHits, nPE, timetof, pmtId, weight, nReflec, nRaySct, nMieSct, photonStartTime, nPEDigi, timetofDigi);
  }

  /** The digitized charge is weighted by the same factor as the true photon count, and the
      digitizer sees the unweighted count and the time after subtracting the time of flight. */
  lemma RawDigitizedBranches(s: Setup, t: PmtType, times: seq<HitTime>, h: RawHit, led: seq<real>, att: seq<real>)
    requires s.vg != 0.0 && CacheShape(s, t, led, att) && RawHitInRange(s, t, times, h)
    ensures var r := RawRowOf(s, t, times, h, led, att);
            var d := Digitize(s, t, h.peForTube as real, r.timetof);
            r.nPEDigi == d.0 * r.weight && r.timetofDigi == d.1
  {
  }

  /** For a single-photon hit the three counters are exactly that photon's scattering flags. */
  lemma SinglePhotonCounters(s: Setup, t: PmtType, times: seq<HitTime>, h: RawHit, led: seq<real>, att: seq<real>)
    requires s.vg != 0.0 && CacheShape(s, t, led, att) && RawHitInRange(s, t, times, h)
    requires h.peForTube == 1
    ensures var r := RawRowOf(s, t, times, h, led, att);
            var p := times[h.timeArrayIndex];
            && r.nReflec == (if p.reflection > 0 then 1 else 0)
            && r.nRaySct == (if p.rayScattering > 0 then 1 else 0)
            && r.nMieSct == (if p.mieScattering > 0 then 1 else 0)
  {
    var window := times[h.timeArrayIndex..h.timeArrayIndex + h.peForTube];
    assert window == [times[h.timeArrayIndex]];
  }

  // ---- digitized hits ----

  predicate DigiHitInRange(s: Setup, t: PmtType, h: DigiHit)
  {
    1 <= h.tubeId <= NumPmts(s, t)
  }

  /** The row the digitized-hit loop fills for one hit: the hit time is moved by the trigger
      time minus the trigger shift of its PMT type. */
  function DigiRowOf(s: Setup, t: PmtType, h: DigiHit, triggerShift: real, triggerTime: real, led: seq<real>, att: seq<real>): HitRow
    requires s.vg != 0.0 && CacheShape(s, t, led, att) && DigiHitInRange(s, t, h)
  {
    var id := h.tubeId - 1;
    var w := HitWeight(s.opts, led, att, id);
    DigitizedRow(1.0, Weighted(h.q, w), h.t - Tof(s, t, id) + triggerTime - triggerShift, id, w)
  }

  /** What a digitized row says: one hit on PMT `tubeId - 1`; time of flight removed and the hit
      moved onto its type's trigger (time minus shift); the charge weighted by the cache weight. */
  lemma DigiRowFacts(s: Setup, t: PmtType, h: DigiHit, triggerShift: real, triggerTime: real, led: seq<real>, att: seq<real>)
    requires s.vg != 0.0 && CacheShape(s, t, led, att) && DigiHitInRange(s, t, h)
    ensures var r := DigiRowOf(s, t, h, triggerShift, triggerTime, led, att);
      && r.DigitizedRow? && r.nHits == 1.0 && r.pmtId == h.tubeId - 1
      && r.timetof + Tof(s, t, h.tubeId - 1) + triggerShift == h.t + triggerTime
      && r.weight == HitWeight(s.opts, led, att, h.tubeId - 1)
      && r.nPE == h.q * r.weight
  {
  }

  /** The body of the digitized-hit loop for one hit. */
  method DigiHitRow(s: Setup, t: PmtType, h: DigiHit, triggerShift: real, triggerTime: real, led: array<real>, att: array<real>)
    returns (row: HitRow)
    requires s.vg != 0.0 && CacheShape(s, t, led[..], att[..]) && DigiHitInRange(s, t, h)
    ensures row == DigiRowOf(s, t, h, triggerShift, triggerTime, led[..], att[..])
  {
    var pmtId := h.tubeId - 1;
    var tof := Tof(s, t, pmtId);
    var timetof := h.t - tof + triggerTime - triggerShift;
    var nHits, nPE := 1.0, h.q;
    var weight := CacheWeight(s.opts, led, att, pmtId);
    nPE := Weighted(nPE, weight);
    row := DigitizedRow(nHits, nPE, timetof, pmtId, weight);
  }

  // ---- weights ----

  /** With the caches the table loop built, a raw hit's weight is the weight recorded in the PMT
      table for its tube; with both reweights off the photon count is unweighted. */
  lemma RawRowWeight(s: Setup, t: PmtType, times: seq<HitTime>, h: RawHit, led: seq<real>, att: seq<real>)
    requires ValidSetup(s) && IsCache(s, t, led, att) && s.vg != 0.0 && RawHitInRange(s, t, times, h)
    ensures var r := RawRowOf(s, t, times, h, led, att);
            0 <= r.pmtId < NumPmts(s, t) && r.weight == PmtRowOf(s, t, r.pmtId).weight
    ensures !s.opts.diffuserProfile && !s.opts.zreweight ==>
              RawRowOf(s, t, times, h, led, att).nPE == h.peForTube as real
  {
    RawRowFacts(s, t, times, h, led, att);
    HitWeightIsTableWeight(s, t, led, att, h.tubeNumber - 1);
  }

  /** The same for a digitized hit and its charge. */
  lemma DigiRowWeight(s: Setup, t: PmtType, h: DigiHit, shift: real, time: real, led: seq<real>, att: seq<real>)
    requires ValidSetup(s) && IsCache(s, t, led, att) && s.vg != 0.0 && DigiHitInRange(s, t, h)
    ensures var r := DigiRowOf(s, t, h, shift, time, led, att);
            0 <= r.pmtId < NumPmts(s, t) && r.weight == PmtRowOf(s, t, r.pmtId).weight
    ensures !s.opts.diffuserProfile && !s.opts.zreweight ==> DigiRowOf(s, t, h, shift, time, led, att).nPE == h.q
  {
    DigiRowFacts(s, t, h, shift, time, led, att);
    HitWeightIsTableWeight(s, t, led, att, h.tubeId - 1);
  }
}
