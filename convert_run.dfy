/** The event loop of app/WCSIM_TreeConvert.cc: the two hit trees it fills, the per-event work
    (trigger alignment, the separated-trigger skip, raw or digitized hits) and the run as a whole. */
module ConvertRun {
  import opened Basics
  import opened Vectors
  import opened SourceFrame
  import opened ConvertOptions
  import opened PmtTable
  import opened Triggers
  import opened HitRows

  /** The two output trees `hitRate_pmtType0` and `hitRate_pmtType1`, as the rows filled so far */
  class HitTables {
    var hitRate0: seq<HitRow>
    var hitRate1: seq<HitRow>

    constructor ()
      ensures hitRate0 == [] && hitRate1 == []
    {
      hitRate0 := [];
      hitRate1 := [];
    }

    function Rows(t: PmtType): seq<HitRow>
      reads this
    {
      if t == 0 then hitRate0 else hitRate1
    }

    /** `hitRate_pmtType<t>->Fill()`: appends one row to the tree of type `t` only */
    method Fill(t: PmtType, row: HitRow)
      modifies this
      ensures Rows(t) == old(Rows(t)) + [row]
      ensures Rows(1 - t) == old(Rows(1 - t))
    {
      if t == 0 {
        hitRate0 := hitRate0 + [row];
      } else {
        hitRate1 := hitRate1 + [row];
      }
    }
  }

  const NoTrigger := TriggerData(Vec3(0.0, 0.0, 0.0), [], [], [], [])

  /** The trigger whose hits type `t` reads. Outside a hybrid run the mPMT hit counts are 0, so
      type 1 reads nothing. */
  function HitsOf(ev: Event, t: PmtType, hybrid: bool): TriggerData
  {
    if t == 0 then ev.trigger0 else if hybrid then ev.trigger1 else NoTrigger
  }

  /** `triggerInfo` and `triggerInfo2` (the latter stays empty outside a hybrid run) */
  function Info(ev: Event): seq<real> { ev.trigger0.info }

  function Info2(ev: Event, hybrid: bool): seq<real> { if hybrid then ev.trigger1.info else [] }

  // ---- the rows one event contributes ----

  /** The rows the raw-hit loop fills for the first `n` hits of `trig` */
  function RawRows(s: Setup, t: PmtType, trig: TriggerData, led: seq<real>, att: seq<real>, n: nat): (rows: seq<HitRow>)
    requires s.vg != 0.0 && CacheShape(s, t, led, att) && n <= |trig.rawHits|
    requires forall i :: 0 <= i < |trig.rawHits| ==> RawHitInRange(s, t, trig.hitTimes, trig.rawHits[i])
    ensures |rows| == n
  {
    if n == 0 then []
    else RawRows(s, t, trig, led, att, n - 1) + [RawRowOf(s, t, trig.hitTimes, trig.rawHits[n - 1], led, att)]
  }

  /** Row `i` of the raw rows is the row of hit `i`: the loop keeps the hit order. */
  lemma {:induction false} RawRowsElements(s: Setup, t: PmtType, trig: TriggerData, led: seq<real>, att: seq<real>, n: nat)
    requires s.vg != 0.0 && CacheShape(s, t, led, att) && n <= |trig.rawHits|
    requires forall i :: 0 <= i < |trig.rawHits| ==> RawHitInRange(s, t, trig.hitTimes, trig.rawHits[i])
    ensures forall i :: 0 <= i < n ==> RawRows(s, t, trig, led, att, n)[i] == RawRowOf(s, t, trig.hitTimes, trig.rawHits[i], led, att)
  {
    if n > 0 {
      RawRowsElements(s, t, trig, led, att, n - 1);
    }
  }

  /** The rows the digitized-hit loop fills for the first `n` digitized hits of `trig` */
  function DigiRows(s: Setup, t: PmtType, trig: TriggerData, shift: real, time: real, led: seq<real>, att: seq<real>, n: nat): (rows: seq<HitRow>)
    requires s.vg != 0.0 && CacheShape(s, t, led, att) && n <= |trig.digiHits|
    requires forall i :: 0 <= i < |trig.digiHits| ==> DigiHitInRange(s, t, trig.digiHits[i])
    ensures |rows| == n
  {
    if n == 0 then []
    else DigiRows(s, t, trig, shift, time, led, att, n - 1) + [DigiRowOf(s, t, trig.digiHits[n - 1], shift, time, led, att)]
  }

  /** Row `i` of the digitized rows is the row of digitized hit `i`. */
  lemma {:induction false} DigiRowsElements(s: Setup, t: PmtType, trig: TriggerData, shift: real, time: real, led: seq<real>, att: seq<real>, n: nat)
    requires s.vg != 0.0 && CacheShape(s, t, led, att) && n <= |trig.digiHits|
    requires forall i :: 0 <= i < |trig.digiHits| ==> DigiHitInRange(s, t, trig.digiHits[i])
    ensures forall i :: 0 <= i < n ==> DigiRows(s, t, trig, shift, time, led, att, n)[i] == DigiRowOf(s, t, trig.digiHits[i], shift, time, led, att)
  {
    if n > 0 {
      DigiRowsElements(s, t, trig, shift, time, led, att, n - 1);
    }
  }

  /** What the hit loops dereference for type `t` in this run's mode */
  predicate HitsInRange(s: Setup, t: PmtType, trig: TriggerData)
  {
    if s.opts.plotDigitized then forall i :: 0 <= i < |trig.digiHits| ==> DigiHitInRange(s, t, trig.digiHits[i])
    else forall i :: 0 <= i < |trig.rawHits| ==> RawHitInRange(s, t, trig.hitTimes, trig.rawHits[i])
  }

  predicate EventInRange(s: Setup, ev: Event)
  {
    forall t: PmtType :: HitsInRange(s, t, HitsOf(ev, t, s.opts.hybrid))
  }

  /** The rows event `ev` adds to the tree of type `t`. */
  function TypeRows(s: Setup, t: PmtType, ev: Event, led: seq<real>, att: seq<real>): seq<HitRow>
    requires s.vg != 0.0 && CacheShape(s, t, led, att) && HitsInRange(s, t, HitsOf(ev, t, s.opts.hybrid))
  {
    var trig := HitsOf(ev, t, s.opts.hybrid);
    if SkipType(t, s.opts.separatedTriggers, Info(ev), Info2(ev, s.opts.hybrid)) then []
    else if s.opts.plotDigitized then
      var st := TriggerOf(t, Info(ev), Info2(ev, s.opts.hybrid), s.opts.hybrid);
      DigiRows(s, t, trig, st.0, st.1, led, att, |trig.digiHits|)
    else RawRows(s, t, trig, led, att, |trig.rawHits|)
  }

  /** An event adds one row per hit of the run's kind unless its type is skipped; raw rows in a raw
      run and digitized rows in a digitized one. */
  lemma TypeRowsShape(s: Setup, t: PmtType, ev: Event, led: seq<real>, att: seq<real>)
    requires s.vg != 0.0 && CacheShape(s, t, led, att) && HitsInRange(s, t, HitsOf(ev, t, s.opts.hybrid))
    ensures var rows := TypeRows(s, t, ev, led, att);
            var trig := HitsOf(ev, t, s.opts.hybrid);
            && |rows| == (if SkipType(t, s.opts.separatedTriggers, Info(ev), Info2(ev, s.opts.hybrid)) then 0
                          else if s.opts.plotDigitized then |trig.digiHits| else |trig.rawHits|)
            && forall i :: 0 <= i < |rows| ==> rows[i].DigitizedRow? == s.opts.plotDigitized
  {
    var trig := HitsOf(ev, t, s.opts.hybrid);
    if !SkipType(t, s.opts.separatedTriggers, Info(ev), Info2(ev, s.opts.hybrid)) {
      if s.opts.plotDigitized {
        var st := TriggerOf(t, Info(ev), Info2(ev, s.opts.hybrid), s.opts.hybrid);
        DigiRowsElements(s, t, trig, st.0, st.1, led, att, |trig.digiHits|);
        forall i | 0 <= i < |trig.digiHits|
          ensures TypeRows(s, t, ev, led, att)[i].DigitizedRow?
        {
          DigiRowFacts(s, t, trig.digiHits[i], st.0, st.1, led, att);
        }
      } else {
        RawRowsElements(s, t, trig, led, att, |trig.rawHits|);
        forall i | 0 <= i < |trig.rawHits|
          ensures TypeRows(s, t, ev, led, att)[i].RawRow?
        {
          RawRowFacts(s, t, trig.hitTimes, trig.rawHits[i], led, att);
        }
      }
    }
  }

  /** Every raw row names an existing PMT and carries the weight the PMT table recorded for it. */
  lemma RawRowsUseTableWeights(s: Setup, t: PmtType, trig: TriggerData, led: seq<real>, att: seq<real>)
    requires ValidSetup(s) && IsCache(s, t, led, att) && s.vg != 0.0
    requires forall i :: 0 <= i < |trig.rawHits| ==> RawHitInRange(s, t, trig.hitTimes, trig.rawHits[i])
    ensures var rows := RawRows(s, t, trig, led, att, |trig.rawHits|);
            forall i :: 0 <= i < |rows| ==>
              0 <= rows[i].pmtId < NumPmts(s, t) && rows[i].weight == PmtRowOf(s, t, rows[i].pmtId).weight
  {
    var rows := RawRows(s, t, trig, led, att, |trig.rawHits|);
    RawRowsElements(s, t, trig, led, att, |trig.rawHits|);
    forall i | 0 <= i < |rows|
      ensures 0 <= rows[i].pmtId < NumPmts(s, t) && rows[i].weight == PmtRowOf(s, t, rows[i].pmtId).weight
    {
      RawRowWeight(s, t, trig.hitTimes, trig.rawHits[i], led, att);
    }
  }

  /** Every digitized row names an existing PMT and carries the weight the PMT table recorded for it. */
  lemma DigiRowsUseTableWeights(s: Setup, t: PmtType, trig: TriggerData, shift: real, time: real, led: seq<real>, att: seq<real>)
    requires ValidSetup(s) && IsCache(s, t, led, att) && s.vg != 0.0
    requires forall i :: 0 <= i < |trig.digiHits| ==> DigiHitInRange(s, t, trig.digiHits[i])
    ensures var rows := DigiRows(s, t, trig, shift, time, led, att, |trig.digiHits|);
            forall i :: 0 <= i < |rows| ==>
              0 <= rows[i].pmtId < NumPmts(s, t) && rows[i].weight == PmtRowOf(s, t, rows[i].pmtId).weight
  {
    var rows := DigiRows(s, t, trig, shift, time, led, att, |trig.digiHits|);
    DigiRowsElements(s, t, trig, shift, time, led, att, |trig.digiHits|);
    forall i | 0 <= i < |rows|
      ensures 0 <= rows[i].pmtId < NumPmts(s, t) && rows[i].weight == PmtRowOf(s, t, rows[i].pmtId).weight
    {
      DigiRowWeight(s, t, trig.digiHits[i], shift, time, led, att);
    }
  }

  /** With the caches the table loop built, every row an event adds names an existing PMT of its
      type and carries exactly the weight the PMT table recorded for it. */
  lemma TypeRowsUseTableWeights(s: Setup, t: PmtType, ev: Event, led: seq<real>, att: seq<real>)
    requires ValidSetup(s) && IsCache(s, t, led, att)
    requires s.vg != 0.0 && HitsInRange(s, t, HitsOf(ev, t, s.opts.hybrid))
    ensures var rows := TypeRows(s, t, ev, led, att);
            forall i :: 0 <= i < |rows| ==>
              0 <= rows[i].pmtId < NumPmts(s, t) && rows[i].weight == PmtRowOf(s, t, rows[i].pmtId).weight
  {
    var trig := HitsOf(ev, t, s.opts.hybrid);
    var st := TriggerOf(t, Info(ev), Info2(ev, s.opts.hybrid), s.opts.hybrid);
    if SkipType(t, s.opts.separatedTriggers, Info(ev), Info2(ev, s.opts.hybrid)) {
    } else if s.opts.plotDigitized {
      assert TypeRows(s, t, ev, led, att) == DigiRows(s, t, trig, st.0, st.1, led, att, |trig.digiHits|);
      DigiRowsUseTableWeights(s, t, trig, st.0, st.1, led, att);
    } else {
      assert TypeRows(s, t, ev, led, att) == RawRows(s, t, trig, led, att, |trig.rawHits|);
      RawRowsUseTableWeights(s, t, trig, led, att);
    }
  }

  // ---- the loops ----

  /** The raw-hit loop of one type */
  method RawHitLoop(s: Setup, t: PmtType, trig: TriggerData, led: array<real>, att: array<real>, tables: HitTables)
    requires s.vg != 0.0 && CacheShape(s, t, led[..], att[..])
    requires forall i :: 0 <= i < |trig.rawHits| ==> RawHitInRange(s, t, trig.hitTimes, trig.rawHits[i])
    modifies tables
    ensures tables.Rows(t) == old(tables.Rows(t)) + RawRows(s, t, trig, led[..], att[..], |trig.rawHits|)
    ensures tables.Rows(1 - t) == old(tables.Rows(1 - t))
  {
    for i := 0 to |trig.rawHits|
      invariant tables.Rows(t) == old(tables.Rows(t)) + RawRows(s, t, trig, led[..], att[..], i)
      invariant tables.Rows(1 - t) == old(tables.Rows(1 - t))
    {
      var row := RawHitRow(s, t, trig.hitTimes, trig.rawHits[i], led, att);
      tables.Fill(t, row);
    }
  }

  /** The digitized-hit loop of one type */
  method DigiHitLoop(s: Setup, t: PmtType, trig: TriggerData, shift: real, time: real,
                     led: array<real>, att: array<real>, tables: HitTables)
    requires s.vg != 0.0 && CacheShape(s, t, led[..], att[..])
    requires forall i :: 0 <= i < |trig.digiHits| ==> DigiHitInRange(s, t, trig.digiHits[i])
    modifies tables
    ensures tables.Rows(t) == old(tables.Rows(t)) + DigiRows(s, t, trig, shift, time, led[..], att[..], |trig.digiHits|)
    ensures tables.Rows(1 - t) == old(tables.Rows(1 - t))
  {
    for i := 0 to |trig.digiHits|
      invariant tables.Rows(t) == old(tables.Rows(t)) + DigiRows(s, t, trig, shift, time, led[..], att[..], i)
      invariant tables.Rows(1 - t) == old(tables.Rows(1 - t))
    {
      var row := DigiHitRow(s, t, trig.digiHits[i], shift, time, led, att);
      tables.Fill(t, row);
    }
  }

  /** One pass of the per-type loop inside the event loop: nothing when the separated-trigger
      policy skips the type, otherwise the loop over its digitized or its raw hits. */
  method ProcessType(s: Setup, t: PmtType, ev: Event, triggerShift: real, triggerTime: real,
                     led: array<real>, att: array<real>, tables: HitTables)
    requires s.vg != 0.0 && CacheShape(s, t, led[..], att[..]) && HitsInRange(s, t, HitsOf(ev, t, s.opts.hybrid))
    requires (triggerShift, triggerTime) == TriggerOf(t, Info(ev), Info2(ev, s.opts.hybrid), s.opts.hybrid)
    modifies tables
    ensures tables.Rows(t) == old(tables.Rows(t)) + TypeRows(s, t, ev, led[..], att[..])
    ensures tables.Rows(1 - t) == old(tables.Rows(1 - t))
  {
    var triggerInfo := Info(ev);
    var triggerInfo2 := Info2(ev, s.opts.hybrid);
    if s.opts.separatedTriggers {
      if |triggerInfo2| != 0 && t == 0 { return; }
      if |triggerInfo| != 0 && t == 1 { return; }
    }
    var trig := HitsOf(ev, t, s.opts.hybrid);
    if s.opts.plotDigitized {
      DigiHitLoop(s, t, trig, triggerShift, triggerTime, led, att, tables);
    } else {
      RawHitLoop(s, t, trig, led, att, tables);
    }
  }

  /** The body of the event loop for one event. */
  method ProcessEvent(s: Setup, ev: Event, led0: array<real>, att0: array<real>, led1: array<real>, att1: array<real>,
                      tables: HitTables)
    requires s.vg != 0.0 && EventInRange(s, ev)
    requires CacheShape(s, 0, led0[..], att0[..]) && CacheShape(s, 1, led1[..], att1[..])
    modifies tables
    ensures tables.Rows(0) == old(tables.Rows(0)) + TypeRows(s, 0, ev, led0[..], att0[..])
    ensures tables.Rows(1) == old(tables.Rows(1)) + TypeRows(s, 1, ev, led1[..], att1[..])
  {
    var hybrid := s.opts.hybrid;
    var triggerShift, triggerTime := ExtractTriggers(Info(ev), Info2(ev, hybrid), hybrid);
    for pmtType := 0 to 2
      invariant forall t: PmtType :: (triggerShift[t], triggerTime[t]) == TriggerOf(t, Info(ev), Info2(ev, hybrid), hybrid)
      invariant tables.Rows(0) == old(tables.Rows(0)) + (if 0 < pmtType then TypeRows(s, 0, ev, led0[..], att0[..]) else [])
      invariant tables.Rows(1) == old(tables.Rows(1)) + (if 1 < pmtType then TypeRows(s, 1, ev, led1[..], att1[..]) else [])
    {
      var led, att := if pmtType == 0 then led0 else led1, if pmtType == 0 then att0 else att1;
      ProcessType(s, pmtType, ev, triggerShift[pmtType], triggerTime[pmtType], led, att, tables);
    }
  }

  // ---- the event loop and the run ----

  /** Every event `lo` .. `hi - 1` is in range; stated event by event, like the loop reads them */
  ghost predicate EventsInRange(s: Setup, events: seq<Event>, lo: int, hi: int)
    requires 0 <= lo && (lo < hi ==> hi <= |events|)
    decreases hi - lo
  {
    hi <= lo || (EventsInRange(s, events, lo, hi - 1) && EventInRange(s, events[hi - 1]))
  }

  lemma {:induction false} EventsInRangeOf(s: Setup, events: seq<Event>, lo: int, hi: int)
    requires 0 <= lo && (lo < hi ==> hi <= |events|)
    requires forall e :: lo <= e < hi ==> EventInRange(s, events[e])
    ensures EventsInRange(s, events, lo, hi)
    decreases hi - lo
  {
    if lo < hi {
      EventsInRangeOf(s, events, lo, hi - 1);
    }
  }

  lemma {:induction false} EventsInRangePrefix(s: Setup, events: seq<Event>, lo: int, mid: int, hi: int)
    requires 0 <= lo <= mid <= hi <= |events| && EventsInRange(s, events, lo, hi)
    ensures EventsInRange(s, events, lo, mid)
    decreases hi - mid
  {
    if mid < hi {
      EventsInRangePrefix(s, events, lo, mid, hi - 1);
    }
  }

  /** The rows events `lo` .. `hi - 1` add to the tree of type `t`, in event order */
  function EventsRows(s: Setup, t: PmtType, events: seq<Event>, lo: int, hi: int, led: seq<real>, att: seq<real>): seq<HitRow>
    requires 0 <= lo && (lo < hi ==> hi <= |events|) && s.vg != 0.0 && CacheShape(s, t, led, att)
    requires EventsInRange(s, events, lo, hi)
    decreases hi - lo
  {
    if hi <= lo then []
    else EventsRows(s, t, events, lo, hi - 1, led, att) + TypeRows(s, t, events[hi - 1], led, att)
  }

  /** The state of the event loop for type `t`: the tree holds what it held before the loop, then
      the rows of events `lo` .. `hi - 1`. */
  ghost predicate Converted(s: Setup, t: PmtType, events: seq<Event>, lo: int, hi: int,
                            led: seq<real>, att: seq<real>, before: seq<HitRow>, rows: seq<HitRow>)
  {
    && 0 <= lo && (lo < hi ==> hi <= |events|) && s.vg != 0.0 && CacheShape(s, t, led, att)
    && EventsInRange(s, events, lo, hi)
    && rows == before + EventsRows(s, t, events, lo, hi, led, att)
  }

  /** Appending one event's rows after the rows so far regroups as `Converted` states it; kept as a
      lemma because the same step stated inline costs ConvertEvent more than its whole body. */
  lemma AppendAssoc(a: seq<HitRow>, b: seq<HitRow>, c: seq<HitRow>)
    ensures (a + b) + c == a + (b + c)
  { }

  /** One turn of the event loop: event `ev` extends the rows of events `startEvent` .. `ev - 1`. */
  method ConvertEvent(s: Setup, events: seq<Event>, startEvent: int, ev: int,
                      led0: array<real>, att0: array<real>, led1: array<real>, att1: array<real>, tables: HitTables,
                      ghost before0: seq<HitRow>, ghost before1: seq<HitRow>)
    requires 0 <= startEvent <= ev < |events| && EventsInRange(s, events, startEvent, ev + 1)
    requires Converted(s, 0, events, startEvent, ev, led0[..], att0[..], before0, tables.Rows(0))
    requires Converted(s, 1, events, startEvent, ev, led1[..], att1[..], before1, tables.Rows(1))
    modifies tables
    ensures Converted(s, 0, events, startEvent, ev + 1, led0[..], att0[..], before0, tables.Rows(0))
    ensures Converted(s, 1, events, startEvent, ev + 1, led1[..], att1[..], before1, tables.Rows(1))
  {
    ProcessEvent(s, events[ev], led0, att0, led1, att1, tables);
    AppendAssoc(before0, EventsRows(s, 0, events, startEvent, ev, led0[..], att0[..]), TypeRows(s, 0, events[ev], led0[..], att0[..]));
    AppendAssoc(before1, EventsRows(s, 1, events, startEvent, ev, led1[..], att1[..]), TypeRows(s, 1, events[ev], led1[..], att1[..]));
  }

  /** `for (ev = startEvent; ev < nevent; ev++)`: nothing at all when the start is not below the end */
  method ConvertEvents(s: Setup, events: seq<Event>, startEvent: int, nevent: int,
                       led0: array<real>, att0: array<real>, led1: array<real>, att1: array<real>, tables: HitTables)
    requires 0 <= startEvent && nevent <= |events| && s.vg != 0.0
    requires CacheShape(s, 0, led0[..], att0[..]) && CacheShape(s, 1, led1[..], att1[..])
    requires EventsInRange(s, events, startEvent, nevent)
    modifies tables
    ensures tables.Rows(0) == old(tables.Rows(0)) + EventsRows(s, 0, events, startEvent, nevent, led0[..], att0[..])
    ensures tables.Rows(1) == old(tables.Rows(1)) + EventsRows(s, 1, events, startEvent, nevent, led1[..], att1[..])
  {
    ghost var before0, before1 := tables.Rows(0), tables.Rows(1);
    var ev := startEvent;
    while ev < nevent
      invariant startEvent <= ev && (ev <= nevent || ev == startEvent)
      invariant Converted(s, 0, events, startEvent, ev, led0[..], att0[..], before0, tables.Rows(0))
      invariant Converted(s, 1, events, startEvent, ev, led1[..], att1[..], before1, tables.Rows(1))
    {
      EventsInRangePrefix(s, events, startEvent, ev + 1, nevent);
      ConvertEvent(s, events, startEvent, ev, led0, att0, led1, att1, tables, before0, before1);
      ev := ev + 1;
    }
    if ev != nevent {
      assert EventsRows(s, 0, events, startEvent, ev, led0[..], att0[..]) == [] == EventsRows(s, 0, events, startEvent, nevent, led0[..], att0[..]);
      assert EventsRows(s, 1, events, startEvent, ev, led1[..], att1[..]) == [] == EventsRows(s, 1, events, startEvent, nevent, led1[..], att1[..]);
    }
  }

  /** The caches as the table loop leaves them */
  ghost function LedCache(s: Setup, t: PmtType): (c: seq<real>)
    requires ValidSetup(s)
    ensures |c| == NumPmts(s, t)
  {
    seq(NumPmts(s, t), k requires 0 <= k < NumPmts(s, t) => CacheEntry(s.opts.diffuserProfile, LedFactor(s, t, k)))
  }

  ghost function AttCache(s: Setup, t: PmtType): (c: seq<real>)
    requires ValidSetup(s)
    ensures |c| == NumPmts(s, t)
  {
    seq(NumPmts(s, t), k requires 0 <= k < NumPmts(s, t) => CacheEntry(s.opts.zreweight, AttenFactor(s, t, k)))
  }

  /** The caches the table loop leaves are the only ones IsCache allows. */
  lemma CachesAreDetermined(s: Setup, t: PmtType, led: seq<real>, att: seq<real>)
    requires ValidSetup(s) && IsCache(s, t, led, att)
    ensures led == LedCache(s, t) && att == AttCache(s, t)
  {
  }

  /** The setup a run works with: the diffuser position is the vertex of the first event's first
      trigger, and the source frame follows from it. */
  function SetupOf(opts: Options, geo: Geometry, events: seq<Event>, num: Numerics, phys: Physics): Setup
    requires |events| > 0
    requires Classify(events[0].trigger0.vtx, geo.cylLength) == Barrel ==> Rho(num, events[0].trigger0.vtx) != 0.0
  {
    var vtx := events[0].trigger0.vtx;
    Setup(geo, vtx, SourceFrameOf(num, vtx, geo.cylLength), opts,
          phys.groupVelocity(opts.wavelength) / 1000000000.0, num, phys)
  }

  /** What the run relies on without checking it: the input tree has events (and fits an `int`),
      the frame is defined, every PMT can be seen, the group velocity is not zero and every hit
      of every converted event points into the geometry and the hit-time arrays. */
  ghost predicate Runnable(opts: Options, geo: Geometry, events: seq<Event>, num: Numerics, phys: Physics)
  {
    && 0 < |events| < 0x8000_0000 && 0 <= opts.startEvent
    && (Classify(events[0].trigger0.vtx, geo.cylLength) == Barrel ==> Rho(num, events[0].trigger0.vtx) != 0.0)
    && var s := SetupOf(opts, geo, events, num, phys);
       && ValidSetup(s) && s.vg != 0.0
       && forall e :: opts.startEvent <= e < EventCount(|events|, opts.endEvent) ==> EventInRange(s, events[e])
  }

  /** The PMT loop and the event loop of a run whose setup is known */
  method ConvertWith(s: Setup, events: seq<Event>, startEvent: int, nevent: int)
    returns (pmtRows0: seq<PmtRow>, pmtRows1: seq<PmtRow>, hitRows0: seq<HitRow>, hitRows1: seq<HitRow>)
    requires ValidSetup(s) && s.vg != 0.0 && 0 <= startEvent && nevent <= |events|
    requires EventsInRange(s, events, startEvent, nevent)
    ensures |pmtRows0| == NumPmts(s, 0) && |pmtRows1| == NumPmts(s, 1)
    ensures forall i :: 0 <= i < |pmtRows0| ==> pmtRows0[i] == PmtRowOf(s, 0, i)
    ensures forall i :: 0 <= i < |pmtRows1| ==> pmtRows1[i] == PmtRowOf(s, 1, i)
    ensures hitRows0 == EventsRows(s, 0, events, startEvent, nevent, LedCache(s, 0), AttCache(s, 0))
    ensures hitRows1 == EventsRows(s, 1, events, startEvent, nevent, LedCache(s, 1), AttCache(s, 1))
  {
    var led0, led1, att0, att1;
    led0, led1, att0, att1, pmtRows0, pmtRows1 := BuildPmtTables(s);
    CachesAreDetermined(s, 0, led0[..], att0[..]);
    CachesAreDetermined(s, 1, led1[..], att1[..]);
    ghost var caches := (led0[..], att0[..], led1[..], att1[..]);
    var tables := new HitTables();
    ConvertEvents(s, events, startEvent, nevent, led0, att0, led1, att1, tables);
    assert (led0[..], att0[..], led1[..], att1[..]) == caches;
    hitRows0, hitRows1 := tables.hitRate0, tables.hitRate1;
  }

  /** `main` after option parsing: without an input file it stops with -1; otherwise it builds the
      two PMT tables and their weight caches, then converts events `startEvent` .. `nevent - 1`. */
  method Convert(opts: Options, geo: Geometry, events: seq<Event>, num: Numerics, phys: Physics)
    returns (code: int, pmtRows0: seq<PmtRow>, pmtRows1: seq<PmtRow>, hitRows0: seq<HitRow>, hitRows1: seq<HitRow>)
    requires opts.inputFile.Some? ==> Runnable(opts, geo, events, num, phys)
    ensures opts.inputFile.None? ==> code == -1 && pmtRows0 == pmtRows1 == [] && hitRows0 == hitRows1 == []
    ensures opts.inputFile.Some? ==> code == 0
    ensures opts.inputFile.Some? ==>
              var s := SetupOf(opts, geo, events, num, phys);
              var nevent := EventCount(|events|, opts.endEvent);
              && |pmtRows0| == NumPmts(s, 0) && |pmtRows1| == NumPmts(s, 1)
              && (forall i :: 0 <= i < |pmtRows0| ==> pmtRows0[i] == PmtRowOf(s, 0, i))
              && (forall i :: 0 <= i < |pmtRows1| ==> pmtRows1[i] == PmtRowOf(s, 1, i))
              && EventsInRange(s, events, opts.startEvent, nevent)
              && hitRows0 == EventsRows(s, 0, events, opts.startEvent, nevent, LedCache(s, 0), AttCache(s, 0))
              && hitRows1 == EventsRows(s, 1, events, opts.startEvent, nevent, LedCache(s, 1), AttCache(s, 1))
  {
    if opts.inputFile.None? {
      return -1, [], [], [], [];
    }
    var nevent := EventCount(|events|, opts.endEvent);
    var s := SetupOf(opts, geo, events, num, phys);
    EventsInRangeOf(s, events, opts.startEvent, nevent);
    code := 0;
    pmtRows0, pmtRows1, hitRows0, hitRows1 := ConvertWith(s, events, opts.startEvent, nevent);
  }
}
