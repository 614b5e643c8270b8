/** Per-event trigger alignment and the separated-trigger policy (app/WCSIM_TreeConvert.cc, inside
    the event loop). Each PMT type has its own trigger record; entries 1 and 2 of its trigger-info
    vector are the trigger shift and the trigger time. */
module Triggers {
  import opened PmtTable

  /** (shift, time) read from one trigger-info vector: entries 1 and 2 when it has at least three,
      otherwise both 0 */
  function TriggerEntry(info: seq<real>): (real, real)
  {
    if |info| >= 3 then (info[1], info[2]) else (0.0, 0.0)
  }

  /** (triggerShift[t], triggerTime[t]): B&L PMTs take the first trigger's vector, mPMTs the second
      one's, and only in a hybrid run. */
  function TriggerOf(t: PmtType, info: seq<real>, info2: seq<real>, hybrid: bool): (real, real)
  {
    if t == 0 then TriggerEntry(info)
    else if hybrid then TriggerEntry(info2)
    else (0.0, 0.0)
  }

  /** The loop that fills the two per-type arrays `triggerShift` and `triggerTime`. */
  method ExtractTriggers(info: seq<real>, info2: seq<real>, hybrid: bool)
    returns (triggerShift: array<real>, triggerTime: array<real>)
    ensures fresh(triggerShift) && fresh(triggerTime)
    ensures triggerShift.Length == 2 && triggerTime.Length == 2
    ensures forall t: PmtType :: (triggerShift[t], triggerTime[t]) == TriggerOf(t, info, info2, hybrid)
  {
    triggerShift := new real[2];
    triggerTime := new real[2];
    for pmtType := 0 to 2
      invariant forall t: PmtType :: t < pmtType ==>
                  (triggerShift[t], triggerTime[t]) == TriggerOf(t, info, info2, hybrid)
    {
      triggerShift[pmtType] := 0.0;
      triggerTime[pmtType] := 0.0;
      if |info| >= 3 {
        if pmtType == 0 {
          triggerShift[pmtType] := info[1];
          triggerTime[pmtType] := info[2];
        }
      }
      if |info2| >= 3 {
        if pmtType == 1 && hybrid {
          triggerShift[pmtType] := info2[1];
          triggerTime[pmtType] := info2[2];
        }
      }
    }
  }

  /** Shift and time default to 0; each type reads only its own trigger's vector; the mPMT values
      are 0 outside a hybrid run. */
  lemma TriggerDefaults(t: PmtType, info: seq<real>, info2: seq<real>, hybrid: bool)
    ensures t == 0 && |info| < 3 ==> TriggerOf(t, info, info2, hybrid) == (0.0, 0.0)
    ensures t == 1 && (!hybrid || |info2| < 3) ==> TriggerOf(t, info, info2, hybrid) == (0.0, 0.0)
    ensures t == 0 ==> forall other: seq<real>, h: bool :: TriggerOf(t, info, other, h) == TriggerOf(t, info, info2, hybrid)
    ensures t == 1 ==> forall other: seq<real> :: TriggerOf(t, other, info2, hybrid) == TriggerOf(t, info, info2, hybrid)
  {
  }

  /** The separated-trigger policy: with `-t`, a type's hits are skipped for the whole event when
      the other type's trigger vector is non-empty. */
  predicate SkipType(t: PmtType, separatedTriggers: bool, info: seq<real>, info2: seq<real>)
  {
    separatedTriggers && ((|info2| != 0 && t == 0) || (|info| != 0 && t == 1))
  }

  /** Nothing is skipped without `-t`; with it, type 0 is skipped exactly when the second trigger
      vector is non-empty and type 1 exactly when the first is, so both go when both are non-empty
      and neither goes when both are empty. */
  lemma SkipPolicy(separatedTriggers: bool, info: seq<real>, info2: seq<real>)
    ensures !separatedTriggers ==> !SkipType(0, separatedTriggers, info, info2) && !SkipType(1, separatedTriggers, info, info2)
    ensures separatedTriggers ==> (SkipType(0, separatedTriggers, info, info2) <==> info2 != [])
    ensures separatedTriggers ==> (SkipType(1, separatedTriggers, info, info2) <==> info != [])
    ensures (SkipType(0, separatedTriggers, info, info2) && SkipType(1, separatedTriggers, info, info2))
            <==> (separatedTriggers && info != [] && info2 != [])
  {
  }
}
