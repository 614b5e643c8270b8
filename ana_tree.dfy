/** `AnaTree::GetEventVar` in src/AnaTree.hh: the lookup by name over the leaves of the entry
    last read from the hit tree. */
module AnaTrees {
  import opened Basics
  import opened AnaEvents

  /** The leaf values of the current entry */
  datatype Leaves = Leaves(
    nHits: real,
    nPE: real,
    R: real,
    costh: real,
    cosths: real,
    phis: real,
    costhm: real,
    phim: real,
    omega: real,
    dz: real,
    timetof: real,
    pmtId: Int32,
    mPmtId: Int32,
    weight: real)

  /** The keys the tree lookup knows */
  const TreeKeys: set<string> := {"R", "costh", "costhm", "cosths", "phis", "phim", "timetof", "nPE",
                                  "omega", "PMT_id", "mPMT_id"}

  /** The variables the tree lookup shares with `AnaEvent` */
  predicate InTree(v: EventVar)
  {
    v in {VarR, VarCosth, VarCosthm, VarCosths, VarPhis, VarPhim, VarTimetof, VarNPE, VarOmega, VarPmtId, VarMpmtId}
  }

  /** The leaf a shared variable names, converted to `double` */
  function LeafOf(l: Leaves, v: EventVar): real
    requires InTree(v)
  {
    match v
    case VarR => l.R
    case VarCosth => l.costh
    case VarCosthm => l.costhm
    case VarCosths => l.cosths
    case VarPhis => l.phis
    case VarPhim => l.phim
    case VarTimetof => l.timetof
    case VarNPE => l.nPE
    case VarOmega => l.omega
    case VarPmtId => l.pmtId as real
    case VarMpmtId => l.mPmtId as real
  }

  /** `AnaTree::GetEventVar`: the chain of key tests, -1 for a key it does not know */
  function GetEventVar(l: Leaves, key: string): real
  {
    if key == "R" then l.R
    else if key == "costh" then l.costh
    else if key == "costhm" then l.costhm
    else if key == "cosths" then l.cosths
    else if key == "phis" then l.phis
    else if key == "phim" then l.phim
    else if key == "timetof" then l.timetof
    else if key == "nPE" then l.nPE
    else if key == "omega" then l.omega
    else if key == "PMT_id" then l.pmtId as real
    else if key == "mPMT_id" then l.mPmtId as real
    else -1.0
  }

  /** Each of the 11 keys reaches the same-named leaf. */
  lemma GetEventVarByKey(l: Leaves, v: EventVar)
    requires InTree(v)
    ensures KeyOf(v) in TreeKeys
    ensures GetEventVar(l, KeyOf(v)) == LeafOf(l, v)
  {
  }

  /** Any other key gives -1, whatever the leaves hold. */
  lemma GetEventVarUnknownKey(l: Leaves, key: string)
    ensures key !in TreeKeys ==> GetEventVar(l, key) == -1.0
  {
  }

  /** `dz`, `weight` and `nHits` are leaves of the tree, yet the lookup does not offer them. */
  lemma UnofferedLeaves(l: Leaves)
    ensures "dz" !in TreeKeys && "weight" !in TreeKeys && "nHits" !in TreeKeys
    ensures GetEventVar(l, "dz") == GetEventVar(l, "weight") == GetEventVar(l, "nHits") == -1.0
  {
  }

  /** Every key the tree knows, `AnaEvent` knows too: its own 17 keys are a strict superset. */
  lemma TreeKeysAreEventKeys()
    ensures TreeKeys < EventKeys
  {
    assert "dz" in EventKeys - TreeKeys;
  }

  /** An event filled from the leaves of an entry answers every tree key as the tree does. */
  lemma {:induction false} TreeAgreesWithEvent(l: Leaves, e: EventRecord, key: string)
    requires forall v :: InTree(v) ==> LeafOf(l, v) == ValueOf(e, v)
    requires key in TreeKeys
    ensures GetEventVar(l, key) == AnaEvents.GetEventVar(e, key)
  {
    var v :=
      if key == "R" then VarR
      else if key == "costh" then VarCosth
      else if key == "costhm" then VarCosthm
      else if key == "cosths" then VarCosths
      else if key == "phis" then VarPhis
      else if key == "phim" then VarPhim
      else if key == "timetof" then VarTimetof
      else if key == "nPE" then VarNPE
      else if key == "omega" then VarOmega
      else if key == "PMT_id" then VarPmtId
      else VarMpmtId;
    GetEventVarByKey(l, v);
    AnaEvents.GetEventVarByKey(e, v);
  }
}
