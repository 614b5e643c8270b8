/** src/AnaEvent.hh: one PMT hit (or one PMT of the geometry) as the fitter sees it, with its
    source angles, photon counts, timing, efficiency, weights and parameter bookkeeping. */
module AnaEvents {
  import opened Basics

  /** Every field of an `AnaEvent`, as a value: `std::vector<AnaEvent>` holds copies, so a sample
      stores these. */
  datatype EventRecord = EventRecord(
    evid: Int64,
    sample: Int16,
    bin: Int32,
    pmtid: Int32,
    mpmtid: Int32,
    cosths: real,
    phis: real,
    costh: real,
    costhm: real,
    phim: real,
    omega: real,
    dz: real,
    z0: real,
    R: real,
    nPE: real,
    nPEIndirect: real,
    nPEIndirectErr: real,
    timetof: real,
    eff: real,
    wght: real,
    wghtMC: real,
    timetofNom: seq<real>,
    timetofNomSig2: seq<real>,
    timetofPred: seq<real>,
    parList: seq<Int32>,
    recoVar: seq<real>)

  // ---- weights ----

  /** `AddEvWght(val)`: `m_wght *= val` */
  function AddedWeight(e: EventRecord, val: real): EventRecord
  {
    e.(wght := e.wght * val)
  }

  /** `ResetEvWght()`: the weight goes back to the MC weight and the prediction to the nominal one */
  function ResetWeight(e: EventRecord): EventRecord
  {
    e.(wght := e.wghtMC, timetofPred := e.timetofNom)
  }

  /** The event after `AddEvWght(vals[0])`, `AddEvWght(vals[1])`, ... in turn */
  function AddedWeights(e: EventRecord, vals: seq<real>): EventRecord
    decreases |vals|
  {
    if vals == [] then e else AddedWeight(AddedWeights(e, vals[..|vals| - 1]), vals[|vals| - 1])
  }

  function Product(vals: seq<real>): real
    decreases |vals|
  {
    if vals == [] then 1.0 else Product(vals[..|vals| - 1]) * vals[|vals| - 1]
  }

  /** One reweight scales the weight and touches nothing else, the MC weight included. */
  lemma AddedWeightOnlyScales(e: EventRecord, val: real)
    ensures AddedWeight(e, val).wght == e.wght * val
    ensures AddedWeight(e, val).(wght := e.wght) == e
    ensures AddedWeight(e, val).wghtMC == e.wghtMC
  {
  }

  /** Successive reweights compose as a product, and leave everything but the weight alone. */
  lemma {:induction false} AddedWeightsIsProduct(e: EventRecord, vals: seq<real>)
    ensures AddedWeights(e, vals).wght == e.wght * Product(vals)
    ensures AddedWeights(e, vals).(wght := e.wght) == e
    decreases |vals|
  {
    if vals != [] {
      var init := vals[..|vals| - 1];
      var last := vals[|vals| - 1];
      AddedWeightsIsProduct(e, init);
      calc {
        AddedWeights(e, vals).wght;
        AddedWeights(e, init).wght * last;
        (e.wght * Product(init)) * last;
        e.wght * (Product(init) * last);
        e.wght * Product(vals);
      }
    }
  }

  /** After a reset the weight is the MC weight; resetting twice is resetting once; a reset
      followed by `AddEvWght(1)` still leaves the MC weight. */
  lemma ResetWeightFacts(e: EventRecord)
    ensures ResetWeight(e).wght == e.wghtMC && ResetWeight(e).wghtMC == e.wghtMC
    ensures ResetWeight(e).timetofPred == e.timetofNom
    ensures ResetWeight(ResetWeight(e)) == ResetWeight(e)
    ensures AddedWeight(ResetWeight(e), 1.0).wght == e.wghtMC
  {
  }

  /** A reset discards every earlier reweight: what follows starts again from the MC weight. */
  lemma ResetAfterReweights(e: EventRecord, before: seq<real>, after: seq<real>)
    ensures AddedWeights(ResetWeight(AddedWeights(e, before)), after).wght == e.wghtMC * Product(after)
  {
    AddedWeightsIsProduct(e, before);
    AddedWeightsIsProduct(ResetWeight(AddedWeights(e, before)), after);
  }

  // ---- parameter list ----

  /** The event after `AddPar(vals[0])`, `AddPar(vals[1])`, ... in turn */
  function AddedPars(e: EventRecord, vals: seq<Int32>): EventRecord
    decreases |vals|
  {
    if vals == [] then e else AddedPars(e, vals[..|vals| - 1]).(parList := AddedPars(e, vals[..|vals| - 1]).parList + [vals[|vals| - 1]])
  }

  /** The list holds the parameters in insertion order, after the ones it held before. */
  lemma {:induction false} AddedParsInOrder(e: EventRecord, vals: seq<Int32>)
    ensures AddedPars(e, vals).parList == e.parList + vals
    ensures AddedPars(e, vals).(parList := e.parList) == e
    decreases |vals|
  {
    if vals != [] {
      var init := vals[..|vals| - 1];
      AddedParsInOrder(e, init);
      assert init + [vals[|vals| - 1]] == vals;
    }
  }

  // ---- GetEventVar ----

  /** The variables `GetEventVar` knows, in the order its chain tests them */
  datatype EventVar = VarR | VarCosth | VarCosthm | VarCosths | VarPhis | VarPhim | VarTimetof | VarNPE
                    | VarNPEIndirect | VarNPEIndirectErr | VarSample | VarOmega | VarDz | VarZ0
                    | VarPmtId | VarMpmtId | VarEff

  /** The key each variable is asked for by */
  function KeyOf(v: EventVar): string
  {
    match v
    case VarR => "R"
    case VarCosth => "costh"
    case VarCosthm => "costhm"
    case VarCosths => "cosths"
    case VarPhis => "phis"
    case VarPhim => "phim"
    case VarTimetof => "timetof"
    case VarNPE => "nPE"
    case VarNPEIndirect => "m_nPE_indirect"
    case VarNPEIndirectErr => "m_nPE_indirect_err"
    case VarSample => "sample"
    case VarOmega => "omega"
    case VarDz => "dz"
    case VarZ0 => "z0"
    case VarPmtId => "PMT_id"
    case VarMpmtId => "mPMT_id"
    case VarEff => "Eff"
  }

  /** The field each variable names, converted to `double` */
  function ValueOf(e: EventRecord, v: EventVar): real
  {
    match v
    case VarR => e.R
    case VarCosth => e.costh
    case VarCosthm => e.costhm
    case VarCosths => e.cosths
    case VarPhis => e.phis
    case VarPhim => e.phim
    case VarTimetof => e.timetof
    case VarNPE => e.nPE
    case VarNPEIndirect => e.nPEIndirect
    case VarNPEIndirectErr => e.nPEIndirectErr
    case VarSample => e.sample as real
    case VarOmega => e.omega
    case VarDz => e.dz
    case VarZ0 => e.z0
    case VarPmtId => e.pmtid as real
    case VarMpmtId => e.mpmtid as real
    case VarEff => e.eff
  }

  /** The keys of the chain */
  const EventKeys: set<string> := {"R", "costh", "costhm", "cosths", "phis", "phim", "timetof", "nPE",
                                   "m_nPE_indirect", "m_nPE_indirect_err", "sample", "omega", "dz", "z0",
                                   "PMT_id", "mPMT_id", "Eff"}

  /** `AnaEvent::GetEventVar`: the chain of key tests, -1 for a key it does not know */
  function GetEventVar(e: EventRecord, key: string): real
  {
    if key == "R" then e.R
    else if key == "costh" then e.costh
    else if key == "costhm" then e.costhm
    else if key == "cosths" then e.cosths
    else if key == "phis" then e.phis
    else if key == "phim" then e.phim
    else if key == "timetof" then e.timetof
    else if key == "nPE" then e.nPE
    else if key == "m_nPE_indirect" then e.nPEIndirect
    else if key == "m_nPE_indirect_err" then e.nPEIndirectErr
    else if key == "sample" then e.sample as real
    else if key == "omega" then e.omega
    else if key == "dz" then e.dz
    else if key == "z0" then e.z0
    else if key == "PMT_id" then e.pmtid as real
    else if key == "mPMT_id" then e.mpmtid as real
    else if key == "Eff" then e.eff
    else -1.0
  }

  /** The 17 keys are distinct, so each one names exactly one variable. */
  lemma KeysDistinct(v: EventVar, w: EventVar)
    ensures KeyOf(v) == KeyOf(w) ==> v == w
  {
  }

  /** Each key reaches the field it names: no earlier test in the chain catches it. */
  lemma GetEventVarByKey(e: EventRecord, v: EventVar)
    ensures GetEventVar(e, KeyOf(v)) == ValueOf(e, v)
  {
  }

  /** Every variable's key is in the chain. */
  lemma VariableKeysAreEventKeys(v: EventVar)
    ensures KeyOf(v) in EventKeys
  {
  }

  /** Any other key gives -1, whatever the event holds. */
  lemma GetEventVarUnknownKey(e: EventRecord, key: string)
    ensures key !in EventKeys ==> GetEventVar(e, key) == -1.0
  {
  }

  /** Near misses are not keys: the indirect light needs its `m_` prefix, and neither the sample
      bin nor the weights can be looked up. */
  lemma NearMissKeys(e: EventRecord)
    ensures "dz_" !in EventKeys && "bin" !in EventKeys && "wght" !in EventKeys && "nPE_indirect" !in EventKeys
    ensures GetEventVar(e, "dz_") == GetEventVar(e, "bin") == GetEventVar(e, "wght") == -1.0
    ensures GetEventVar(e, "nPE_indirect") == -1.0
  {
  }

  /** The object: the fields the setters assign one at a time. */
  class AnaEvent {
    var evid: Int64
    var sample: Int16
    var bin: Int32
    var pmtid: Int32
    var mpmtid: Int32
    var cosths: real
    var phis: real
    var costh: real
    var costhm: real
    var phim: real
    var omega: real
    var dz: real
    var z0: real
    var R: real
    var nPE: real
    var nPEIndirect: real
    var nPEIndirectErr: real
    var timetof: real
    var eff: real
    var wght: real
    var wghtMC: real
    var timetofNom: seq<real>
    var timetofNomSig2: seq<real>
    var timetofPred: seq<real>
    var parList: seq<Int32>
    var recoVar: seq<real>

    /** A copy of the object, as `push_back` takes it */
    function Snapshot(): EventRecord
      reads this
    {
      EventRecord(evid, sample, bin, pmtid, mpmtid, cosths, phis, costh, costhm, phim, omega, dz, z0,
                  R, nPE, nPEIndirect, nPEIndirectErr, timetof, eff, wght, wghtMC,
                  timetofNom, timetofNomSig2, timetofPred, parList, recoVar)
    }

    /** `AnaEvent(evid)`: the id, then -99 for the integer identifiers, -999 for the measured
        quantities, 0 for the offsets and the indirect light, 1 for efficiency and weights */
    constructor (id: Int64)
      ensures GetEvId() == id
      ensures GetSampleType() == -99 && GetSampleBin() == -99 && GetPMTID() == -99 && GetmPMTID() == -99
      ensures GetCosths() == GetPhis() == GetCosth() == GetCosthm() == GetPhim() == GetOmega() == -999.0
      ensures GetR() == GetPE() == GetTimetof() == -999.0
      ensures GetDz() == GetZ0() == GetPEIndirect() == GetPEIndirectErr() == 0.0
      ensures GetEff() == GetEvWght() == GetEvWghtMC() == 1.0
      ensures GetTimetofNom() == GetTimetofNomSig2() == GetTimetofPred() == [] && GetParList() == [] && GetRecoVar() == []
    {
      evid := id;
      sample := -99;
      bin := -99;
      pmtid := -99;
      mpmtid := -99;
      cosths := -999.0;
      phis := -999.0;
      costh := -999.0;
      costhm := -999.0;
      phim := -999.0;
      omega := -999.0;
      dz := 0.0;
      z0 := 0.0;
      R := -999.0;
      nPE := -999.0;
      nPEIndirect := 0.0;
      nPEIndirectErr := 0.0;
      timetof := -999.0;
      eff := 1.0;
      wght := 1.0;
      wghtMC := 1.0;
      timetofNom := [];
      timetofNomSig2 := [];
      timetofPred := [];
      parList := [];
      recoVar := [];
    }

    // The getters; there is no setter for the id.
    function GetEvId(): Int64 reads this { evid }
    function GetSampleType(): Int16 reads this { sample }
    function GetSampleBin(): Int32 reads this { bin }
    function GetPMTID(): Int32 reads this { pmtid }
    function GetmPMTID(): Int32 reads this { mpmtid }
    function GetCosths(): real reads this { cosths }
    function GetPhis(): real reads this { phis }
    function GetCosth(): real reads this { costh }
    function GetCosthm(): real reads this { costhm }
    function GetPhim(): real reads this { phim }
    function GetOmega(): real reads this { omega }
    function GetDz(): real reads this { dz }
    function GetZ0(): real reads this { z0 }
    function GetR(): real reads this { R }
    function GetPE(): real reads this { nPE }
    function GetPEIndirect(): real reads this { nPEIndirect }
    function GetPEIndirectErr(): real reads this { nPEIndirectErr }
    function GetTimetof(): real reads this { timetof }
    function GetEff(): real reads this { eff }
    function GetTimetofNom(): seq<real> reads this { timetofNom }
    function GetTimetofNomSig2(): seq<real> reads this { timetofNomSig2 }
    function GetTimetofPred(): seq<real> reads this { timetofPred }
    function GetEvWght(): real reads this { wght }
    function GetEvWghtMC(): real reads this { wghtMC }
    function GetRecoVar(): seq<real> reads this { recoVar }
    function GetParList(): seq<Int32> reads this { parList }

    /** The `const` lookup by name */
    function GetEventVarOf(key: string): real
      reads this
    {
      GetEventVar(Snapshot(), key)
    }

    // Each setter assigns its own field and no other.

    method SetSampleType(val: Int16)
      modifies this
      ensures GetSampleType() == val && Snapshot() == old(Snapshot()).(sample := val)
    {
      sample := val;
    }

    method SetSampleBin(val: Int32)
      modifies this
      ensures GetSampleBin() == val && Snapshot() == old(Snapshot()).(bin := val)
    {
      bin := val;
    }

    method SetPMTID(val: Int32)
      modifies this
      ensures GetPMTID() == val && Snapshot() == old(Snapshot()).(pmtid := val)
    {
      pmtid := val;
    }

    method SetmPMTID(val: Int32)
      modifies this
      ensures GetmPMTID() == val && Snapshot() == old(Snapshot()).(mpmtid := val)
    {
      mpmtid := val;
    }

    method SetCosths(val: real)
      modifies this
      ensures GetCosths() == val && Snapshot() == old(Snapshot()).(cosths := val)
    {
      cosths := val;
    }

    method SetPhis(val: real)
      modifies this
      ensures GetPhis() == val && Snapshot() == old(Snapshot()).(phis := val)
    {
      phis := val;
    }

    method SetCosth(val: real)
      modifies this
      ensures GetCosth() == val && Snapshot() == old(Snapshot()).(costh := val)
    {
      costh := val;
    }

    method SetCosthm(val: real)
      modifies this
      ensures GetCosthm() == val && Snapshot() == old(Snapshot()).(costhm := val)
    {
      costhm := val;
    }

    method SetPhim(val: real)
      modifies this
      ensures GetPhim() == val && Snapshot() == old(Snapshot()).(phim := val)
    {
      phim := val;
    }

    method SetOmega(val: real)
      modifies this
      ensures GetOmega() == val && Snapshot() == old(Snapshot()).(omega := val)
    {
      omega := val;
    }

    method SetDz(val: real)
      modifies this
      ensures GetDz() == val && Snapshot() == old(Snapshot()).(dz := val)
    {
      dz := val;
    }

    method SetZ0(val: real)
      modifies this
      ensures GetZ0() == val && Snapshot() == old(Snapshot()).(z0 := val)
    {
      z0 := val;
    }

    method SetR(val: real)
      modifies this
      ensures GetR() == val && Snapshot() == old(Snapshot()).(R := val)
    {
      R := val;
    }

    method SetPE(val: real)
      modifies this
      ensures GetPE() == val && Snapshot() == old(Snapshot()).(nPE := val)
    {
      nPE := val;
    }

    method SetPEIndirect(val: real)
      modifies this
      ensures GetPEIndirect() == val && Snapshot() == old(Snapshot()).(nPEIndirect := val)
    {
      nPEIndirect := val;
    }

    method SetPEIndirectErr(val: real)
      modifies this
      ensures GetPEIndirectErr() == val && Snapshot() == old(Snapshot()).(nPEIndirectErr := val)
    {
      nPEIndirectErr := val;
    }

    method SetTimetof(val: real)
      modifies this
      ensures GetTimetof() == val && Snapshot() == old(Snapshot()).(timetof := val)
    {
      timetof := val;
    }

    method SetEff(val: real)
      modifies this
      ensures GetEff() == val && Snapshot() == old(Snapshot()).(eff := val)
    {
      eff := val;
    }

    method SetTimetofNom(val: seq<real>)
      modifies this
      ensures GetTimetofNom() == val && Snapshot() == old(Snapshot()).(timetofNom := val)
    {
      timetofNom := val;
    }

    method SetTimetofNomSig2(val: seq<real>)
      modifies this
      ensures GetTimetofNomSig2() == val && Snapshot() == old(Snapshot()).(timetofNomSig2 := val)
    {
      timetofNomSig2 := val;
    }

    method SetTimetofPred(val: seq<real>)
      modifies this
      ensures GetTimetofPred() == val && Snapshot() == old(Snapshot()).(timetofPred := val)
    {
      timetofPred := val;
    }

    method SetEvWght(val: real)
      modifies this
      ensures GetEvWght() == val && Snapshot() == old(Snapshot()).(wght := val)
    {
      wght := val;
    }

    method SetEvWghtMC(val: real)
      modifies this
      ensures GetEvWghtMC() == val && Snapshot() == old(Snapshot()).(wghtMC := val)
    {
      wghtMC := val;
    }

    method SetRecoVar(vec: seq<real>)
      modifies this
      ensures GetRecoVar() == vec && Snapshot() == old(Snapshot()).(recoVar := vec)
    {
      recoVar := vec;
    }

    /** `m_wght *= val` */
    method AddEvWght(val: real)
      modifies this
      ensures Snapshot() == AddedWeight(old(Snapshot()), val)
    {
      wght := wght * val;
    }

    method ResetEvWght()
      modifies this
      ensures Snapshot() == ResetWeight(old(Snapshot()))
    {
      wght := wghtMC;
      timetofPred := timetofNom;
    }

    method ResetParList()
      modifies this
      ensures GetParList() == [] && Snapshot() == old(Snapshot()).(parList := [])
    {
      parList := [];
    }

    /** `par_list.push_back(val)` */
    method AddPar(val: Int32)
      modifies this
      ensures Snapshot() == AddedPars(old(Snapshot()), [val])
    {
      parList := parList + [val];
    }
  }
}
