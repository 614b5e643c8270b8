/** The inline members of `AnaSample` in src/AnaSample.hh: the event and PMT lists of one sample,
    its cuts, its normalisation and its PMT masking settings. */
module AnaSamples {
  import opened Basics
  import opened AnaEvents

  /** `std::vector::size()` returned as `int`: the value modulo 2^32, read as a signed number */
  function SizeAsInt(n: nat): (r: Int32)
    ensures n < 0x8000_0000 ==> r == n
    ensures (r - n) % 0x1_0000_0000 == 0
  {
    var m := n % 0x1_0000_0000;
    if m < 0x8000_0000 then m else m - 0x1_0000_0000
  }

  /** Every field the inline members touch, as a value */
  datatype SampleRecord = SampleRecord(
    sampleId: Int32,
    nbins: Int32,
    norm: real,
    pmtType: Int32,
    pmtMask: Int32,
    nPMTpermPMT: Int32,
    cutVar: seq<string>,
    cutLow: seq<real>,
    cutHigh: seq<real>,
    name: string,
    events: seq<EventRecord>,
    pmts: seq<EventRecord>)

  class AnaSample {
    var sampleId: Int32
    var nbins: Int32
    var norm: real
    var pmtType: Int32
    var pmtMask: Int32
    var nPMTpermPMT: Int32
    var cutVar: seq<string>
    var cutLow: seq<real>
    var cutHigh: seq<real>
    var name: string
    /** `m_events` and `m_pmts` hold copies of the events pushed onto them */
    var events: seq<EventRecord>
    var pmts: seq<EventRecord>

    function State(): SampleRecord
      reads this
    {
      SampleRecord(sampleId, nbins, norm, pmtType, pmtMask, nPMTpermPMT, cutVar, cutLow, cutHigh, name, events, pmts)
    }

    /** The three cut vectors line up: cut `i` is `cutVar[i]` in `[cutLow[i], cutHigh[i]]`. */
    predicate CutsAligned()
      reads this
    {
      |cutVar| == |cutLow| == |cutHigh|
    }

    function GetN(): Int32 reads this { SizeAsInt(|events|) }
    function GetNPMTs(): Int32 reads this { SizeAsInt(|pmts|) }
    function GetNorm(): real reads this { norm }
    function GetSampleID(): Int32 reads this { sampleId }
    function GetName(): string reads this { name }
    function GetPMTType(): Int32 reads this { pmtType }

    method ClearEvents()
      modifies this
      ensures GetN() == 0 && State() == old(State()).(events := [])
    {
      events := [];
    }

    /** `m_events.push_back(event)`: the copy goes last, the earlier events stay as they were */
    method AddEvent(event: AnaEvent)
      modifies this
      ensures State() == old(State()).(events := old(events) + [old(event.Snapshot())])
      ensures |events| == old(|events|) + 1 && events[..old(|events|)] == old(events)
    {
      events := events + [event.Snapshot()];
    }

    method ClearPMTs()
      modifies this
      ensures GetNPMTs() == 0 && State() == old(State()).(pmts := [])
    {
      pmts := [];
    }

    /** `m_pmts.push_back(pmt_entry)` */
    method AddPMT(pmtEntry: AnaEvent)
      modifies this
      ensures State() == old(State()).(pmts := old(pmts) + [old(pmtEntry.Snapshot())])
      ensures |pmts| == old(|pmts|) + 1 && pmts[..old(|pmts|)] == old(pmts)
    {
      pmts := pmts + [pmtEntry.Snapshot()];
    }

    method SetNorm(val: real)
      modifies this
      ensures GetNorm() == val && State() == old(State()).(norm := val)
    {
      norm := val;
    }

    /** One more cut, pushed onto all three vectors, so aligned vectors stay aligned */
    method SetCut(varName: string, cutLowVal: real, cutHighVal: real)
      modifies this
      ensures State() == AddedCuts(old(State()), [(varName, cutLowVal, cutHighVal)])
      ensures old(CutsAligned()) ==> CutsAligned()
    {
      cutVar := cutVar + [varName];
      cutLow := cutLow + [cutLowVal];
      cutHigh := cutHigh + [cutHighVal];
    }

    method ResetCut()
      modifies this
      ensures CutsAligned() && State() == old(State()).(cutVar := [], cutLow := [], cutHigh := [])
    {
      cutVar := [];
      cutLow := [];
      cutHigh := [];
    }

    method MaskPMT(nPMT: Int32)
      modifies this
      ensures State() == old(State()).(pmtMask := nPMT)
    {
      pmtMask := nPMT;
    }

    method SetnPMTpermPMT(n: Int32)
      modifies this
      ensures State() == old(State()).(nPMTpermPMT := n)
    {
      nPMTpermPMT := n;
    }
  }

  /** The cuts after `SetCut` of each `(name, low, high)` in turn, from aligned vectors */
  function AddedCuts(s: SampleRecord, cuts: seq<(string, real, real)>): SampleRecord
    decreases |cuts|
  {
    if cuts == [] then s
    else
      var t := AddedCuts(s, cuts[..|cuts| - 1]);
      var c := cuts[|cuts| - 1];
      t.(cutVar := t.cutVar + [c.0], cutLow := t.cutLow + [c.1], cutHigh := t.cutHigh + [c.2])
  }

  /** After a reset and any sequence of cuts, cut `i` is the `i`-th cut given, in all three
      vectors. */
  lemma {:induction false} AddedCutsLineUp(s: SampleRecord, cuts: seq<(string, real, real)>)
    requires s.cutVar == [] && s.cutLow == [] && s.cutHigh == []
    ensures var t := AddedCuts(s, cuts);
            && |t.cutVar| == |t.cutLow| == |t.cutHigh| == |cuts|
            && forall i :: 0 <= i < |cuts| ==> (t.cutVar[i], t.cutLow[i], t.cutHigh[i]) == cuts[i]
    decreases |cuts|
  {
    if cuts != [] {
      AddedCutsLineUp(s, cuts[..|cuts| - 1]);
    }
  }
}
