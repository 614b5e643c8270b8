# A verified model of the WCSim tree converter and the fitter's event classes

This project models, in Dafny, the core of `wcsim_hybrid_attenuation_fit`:

- **`WCSIM_TreeConvert`** (app/WCSIM_TreeConvert.cc). It reads simulated light-injection events for
  a hybrid water Cherenkov detector. The detector has 20-inch B&L PMTs (type 0) and 3-inch PMTs
  grouped into 19-PMT mPMT modules (type 1). The converter writes two kinds of tables per PMT
  type:
  - a geometry table: distance, angles, solid angle and reweighting factor of every PMT, as
    seen from the injector;
  - a hit table: one row per raw or digitized hit, with the time-of-flight-corrected time and
    the reweighted photon count.
- **`AnaEvent`** (src/AnaEvent.hh): one PMT observation as the fitter stores it.
- **The inline members of `AnaSample`** (src/AnaSample.hh): the event and PMT lists of a sample,
  its cuts and its settings.
- **`AnaTree::GetEventVar`** (src/AnaTree.hh): the lookup by name over the leaves of the hit tree.

Files and modules:

| file | module | what it holds |
|---|---|---|
| basics.dfy | `Basics` | `Option`, the C++ integer widths, `Abs` |
| vectors.dfy | `Vectors` | three-vectors, dot and cross product, and the numeric functions (`Sqrt`, `atan2`, `TVector3::Angle`, pi) as parameters |
| convert_options.dfy | `ConvertOptions` | the getopt switch as a fold over the options, the clamps, the `-p` field splitting, the event count |
| source_frame.dfy | `SourceFrame` | the barrel/end-cap classification and the injector's direction and local axes |
| pmt_table.dfy | `PmtTable` | the per-PMT loop: module sub-ids, central-PMT index, source angles, solid angle, the weight chain and the two weight caches |
| triggers.dfy | `Triggers` | trigger shift and time per type; the separated-trigger policy |
| hit_rows.dfy | `HitRows` | the rows of the raw-hit and digitized-hit loops, with the scattering counters |
| convert_run.dfy | `ConvertRun` | the two output hit trees as a class, the per-type and per-event loops, the event loop and the whole run |
| ana_event.dfy | `AnaEvents` | class `AnaEvent` with a value snapshot `EventRecord`; reweighting, the parameter list and `GetEventVar` |
| ana_sample.dfy | `AnaSamples` | class `AnaSample` (inline members only) over `EventRecord` copies |
| ana_tree.dfy | `AnaTrees` | `AnaTree::GetEventVar` over the tree leaves and its agreement with `AnaEvent` |

Modelling notes:

- **Reals and collaborators.** Doubles are modelled as `real`. The square root, `atan2`,
  `TVector3::Angle` and pi are uninterpreted parameters. So are the group velocity, the LED
  profile weight, the attenuation weight and the two digitizers.
- **Properties are relative to those functions.** Every property is stated in terms of these
  functions: the geometry computed with them, and the weights they return.
- **Group velocity.** `CalcGroupVelocity` is called once, before the loops. Its result in m/s is
  divided by 1e9. The m/ns value is kept in the `vg` field of `PmtTable.Setup`.
- **Arrays and sequences.**
  - The weight caches are arrays created with -1 in every slot. Each slot is filled only when
    its reweight is enabled.
  - The hit trees are a class whose `Fill` appends a row.
  - `AnaEvent` and `AnaSample` are classes whose setters assign their own field and nothing else.
- **What `main` does not check.** The model makes the following requirements of its caller
  explicit (`PmtTable.ValidSetup`, `HitRows.RawHitInRange`, `HitRows.DigiHitInRange`,
  `ConvertRun.Runnable`):
  - every PMT is at a non-zero distance from the source;
  - every PMT's orientation vector has non-zero length;
  - the solid-angle root `sqrt(R² + r²)` is non-zero for every PMT;
  - a hybrid geometry holds whole 19-PMT modules;
  - the event tree is non-empty and has fewer than 2^31 entries (its count is an `int`);
  - the start event is not negative (here `-s` already clamps it);
  - the group velocity is non-zero;
  - every hit of a converted event names an existing tube;
  - every raw hit of a converted event has its photon window inside the hit-time array;
  - a barrel injector is off the axis.

Behaviour of the code worth knowing, as the model has it:

- `-h` prints the help and then falls through to `default: return 0`. An unrecognised option
  ends option processing in the same way (`ConvertOptions.ExitIffHelpOrUnknown`).
- `-b` is declared `b:` in the option string, so getopt takes an argument for it. The argument
  is ignored.
- `-z` switches the attenuation reweight on when |slope| > 1e-9, and nothing switches it off. A
  later `-z 0` replaces the slope but leaves the reweight on
  (`ConvertOptions.ZReweightIffSteepSlope`).
- A vertex exactly at z = 0.9 × half-length is classified as end-cap and gets direction +z. Only
  z strictly above the cut gets -z (`SourceFrame.BoundaryVertexPointsUp`).
- `-p` splits its argument with `std::getline(ss, s, ',')`, so an empty last field is not read.
- The mPMT sub-id of a B&L PMT is 0.

## Model

| member | source | states |
|---|---|---|
| Vectors.CrossOrthogonal | app/WCSIM_TreeConvert.cc:440-441 | The cross products that define `phim` are orthogonal to both factors. |
| SourceFrame.Classify | app/WCSIM_TreeConvert.cc:339-355 | Barrel exactly when \|z\| < 9/20 of the cylinder length. The top end-cap exactly when not barrel and z is above the cut. |
| SourceFrame.SourceFrameOf | app/WCSIM_TreeConvert.cc:339-367 | localX × localY is the direction, and the three axes are pairwise orthogonal. The end-cap frames are the exact constants of the code. A barrel injector points horizontally at the axis, with localX = +z. |
| SourceFrame.BoundaryVertexPointsUp | app/WCSIM_TreeConvert.cc:339-367 | A vertex exactly at the cut is classified bottom-end-cap and its direction is +z. |
| ConvertOptions.ApplyFlag | app/WCSIM_TreeConvert.cc:97-168 | The switch on one option; its clamps are stated by ApplyFlagClamp, its bounds by ApplyFlagKeepsSane, the attenuation switch by ApplyFlagZReweight. |
| ConvertOptions.ParseFrom | app/WCSIM_TreeConvert.cc:96-169 | The option loop as a fold of the switch; the last `-s`/`-r`/`-l` wins (LastClampWins), the bounds hold throughout (ParseKeepsSane), and it exits as ExitIffHelpOrUnknown states. |
| ConvertOptions.ParseOptions | app/WCSIM_TreeConvert.cc:74-169 | The getopt loop from the defaults yields the fold of the switch over the options. `-p` goes through its own getline loop. `-h` and unknown options end with status 0. |
| ConvertOptions.ApplyFlagKeepsSane | app/WCSIM_TreeConvert.cc:116-163 | One option keeps the start event, the seed and the wavelength non-negative, and both water parameters positive. |
| ConvertOptions.ParseKeepsSane | app/WCSIM_TreeConvert.cc:96-169 | The whole option loop keeps those bounds. |
| ConvertOptions.ParsedOptionsAreSane | app/WCSIM_TreeConvert.cc:74-169 | Every command line that proceeds yields options within those bounds. |
| ConvertOptions.ApplyFlagClamp | app/WCSIM_TreeConvert.cc:116-134 | After one option, the start event, seed and wavelength are the option's clamped value when it is `-s`, `-r` or `-l` respectively (negative becomes 0, or 400 nm for the wavelength), and unchanged otherwise. |
| ConvertOptions.LastClampWins | app/WCSIM_TreeConvert.cc:96-169 | After the loop, each of the three is the clamped value of the last option that sets it, or its starting value when none does. |
| ConvertOptions.ParsedClamps | app/WCSIM_TreeConvert.cc:84-134 | A command line without `-s`, `-r` or `-l` leaves the start event and seed at 0 and the wavelength at 400 nm. |
| ConvertOptions.ApplyFlagZReweight | app/WCSIM_TreeConvert.cc:138-145 | After one option, the attenuation reweight is on exactly when it was on before or the option is a `-z` with \|slope\| > 1e-9. |
| ConvertOptions.ZReweightIffSteepSlope | app/WCSIM_TreeConvert.cc:138-145 | After the loop, the reweight is on exactly when it started on or some `-z` had \|slope\| > 1e-9. |
| ConvertOptions.ExitIffHelpOrUnknown | app/WCSIM_TreeConvert.cc:164-167 | Option processing exits exactly when some option is `-h` or unrecognised, and then with status 0. |
| ConvertOptions.FirstComma | app/WCSIM_TreeConvert.cc:151 | The index of the first comma: a comma, with none before it. |
| ConvertOptions.Pieces | app/WCSIM_TreeConvert.cc:151 | Splitting at the commas gives at least one piece, and no piece holds a comma. |
| ConvertOptions.JoinPieces | app/WCSIM_TreeConvert.cc:151 | Joining the pieces with commas gives back the text. |
| ConvertOptions.GetlineFields | app/WCSIM_TreeConvert.cc:148-151 | The fields getline reads are the text's comma-separated pieces in order, all of them except an empty last piece, which is dropped exactly when it is empty. No field holds a comma, and the empty text gives none. |
| ConvertOptions.WaterParamsPositive | app/WCSIM_TreeConvert.cc:153-158 | Positive ABWFF and RAYFF stay positive whatever the fields hold. |
| ConvertOptions.SetWaterParams | app/WCSIM_TreeConvert.cc:146-163 | The counted getline loop sets ABWFF from field 0 and RAYFF from field 1, each only when positive. |
| ConvertOptions.EventCount | app/WCSIM_TreeConvert.cc:194-195 | The count is the entries, or `endEvent` exactly when 0 < endEvent ≤ entries. It never exceeds the entries. |
| PmtTable.SubId | app/WCSIM_TreeConvert.cc:384-386 | 0 for B&L. For an mPMT, the position inside its 19-block: below 19 and congruent to the id. |
| PmtTable.CentralIndex | app/WCSIM_TreeConvert.cc:428 | The central PMT lies in the same block, has sub-id 18, and is exactly 18 − subId above the id. |
| PmtTable.CentralIndexInRange | app/WCSIM_TreeConvert.cc:428-430 | With whole modules, the central PMT of every mPMT PMT exists. |
| PmtTable.SightOf | app/WCSIM_TreeConvert.cc:393-411 | Distance, unit directions and the three source angles of one PMT; PmtRowFacts states what the row keeps of them. |
| PmtTable.CalcSolidAngle | app/WCSIM_TreeConvert.cc:44-51 | 2π(1 − R/sqrt(R² + r²)); SolidAngleIgnoresIncidence states that the cosine argument is unused. |
| PmtTable.SolidAngleIgnoresIncidence | app/WCSIM_TreeConvert.cc:44-51 | The solid angle is the same for every incidence cosine, and 0 when the root equals the distance. |
| PmtTable.ModuleAngles | app/WCSIM_TreeConvert.cc:425-444 | costhm and phim of a non-central mPMT PMT; PhimIsAzimuth states what phim measures. |
| PmtTable.PhimIsAzimuth | app/WCSIM_TreeConvert.cc:440-443 | phim is the angle between two vectors both orthogonal to the PMT axis, the directions towards the central PMT and towards the photon's origin: an azimuth around the axis. |
| PmtTable.PmtRowOf | app/WCSIM_TreeConvert.cc:379-454 | The row of PMT i; its content is stated by PmtRowFacts and FillPmt. |
| PmtTable.ChainWeightsProduct | app/WCSIM_TreeConvert.cc:412-452 | The chained weight is the product of exactly the enabled factors, and 1 when none is enabled. |
| PmtTable.PmtRowFacts | app/WCSIM_TreeConvert.cc:379-452 | A table row holds the id, the sub-id, dz and the distance to the source. costhm = costh and phim = 0 for B&L PMTs and central PMTs; other mPMT PMTs are measured against their own module's centre. The weight is the product of the enabled factors. |
| PmtTable.FillPmt | app/WCSIM_TreeConvert.cc:381-454 | The inner-loop body computes the row of PMT i. It writes each enabled factor to slot i of its cache and changes no other slot. |
| PmtTable.FillPmtType | app/WCSIM_TreeConvert.cc:378-455 | One row per PMT of the type, in index order. The caches end as the enabled factors, or -1 where disabled. |
| PmtTable.BuildPmtTables | app/WCSIM_TreeConvert.cc:369-456 | Both types' tables and both caches of each type. There are no mPMTs outside a hybrid run. |
| PmtTable.HitWeight | app/WCSIM_TreeConvert.cc:651-659 | With both reweights off, the per-hit weight is 1. |
| PmtTable.HitWeightIsTableWeight | app/WCSIM_TreeConvert.cc:651-659 | The weight looked up in the caches equals the weight the PMT table recorded for that PMT. |
| Triggers.TriggerOf | app/WCSIM_TreeConvert.cc:513-530 | Shift and time of one type; ExtractTriggers and TriggerDefaults state them. |
| Triggers.SkipType | app/WCSIM_TreeConvert.cc:547-551 | Whether `-t` skips a type; SkipPolicy states both directions. |
| Triggers.ExtractTriggers | app/WCSIM_TreeConvert.cc:513-530 | Each type gets entries 1 and 2 of its own trigger vector when it has three entries, and 0 otherwise. mPMTs get theirs only in a hybrid run. |
| Triggers.TriggerDefaults | app/WCSIM_TreeConvert.cc:513-530 | Shift and time are 0 when the vector is short or the run is not hybrid. Each type's values do not depend on the other type's vector. |
| Triggers.SkipPolicy | app/WCSIM_TreeConvert.cc:547-551 | Nothing is skipped without `-t`. With it, B&L is skipped exactly when the mPMT trigger vector is non-empty, and mPMT exactly when the B&L one is. |
| HitRows.Tof | app/WCSIM_TreeConvert.cc:612-613 | Distance × 1e-2 / vg; RawRowFacts and DigiRowFacts state how it shifts the row times. |
| HitRows.RawRowOf | app/WCSIM_TreeConvert.cc:579-661 | The row of one raw hit; stated by RawRowFacts, RawRowWeight and RawDigitizedBranches. |
| HitRows.DigiRowOf | app/WCSIM_TreeConvert.cc:706-768 | The row of one digitized hit; stated by DigiRowFacts and DigiRowWeight. |
| HitRows.Tally | app/WCSIM_TreeConvert.cc:629-637 | A photon-flag count never exceeds the number of photons. |
| HitRows.TallyExtremes | app/WCSIM_TreeConvert.cc:629-637 | The count is 0 exactly when no photon has the flag, and equals the photon count exactly when every photon has it. |
| HitRows.TallyAppend | app/WCSIM_TreeConvert.cc:629-637 | The count is additive over a split of the photon window. |
| HitRows.CountScatters | app/WCSIM_TreeConvert.cc:626-637 | The photon loop counts reflections, Rayleigh and Mie scatters exactly over the hit's photon window. |
| HitRows.CacheWeight | app/WCSIM_TreeConvert.cc:651-659 | The per-hit weight is 1, times each enabled cache entry of the hit's PMT. |
| HitRows.RawRowFacts | app/WCSIM_TreeConvert.cc:579-661 | A raw row is one hit on tube − 1. Each scatter count is at most the photon count. timetof + tof is the first photon's true time. The photon count is weighted by the cache weight. |
| HitRows.RawHitRow | app/WCSIM_TreeConvert.cc:579-661 | The raw-hit loop body yields the raw row of the hit. |
| HitRows.RawDigitizedBranches | app/WCSIM_TreeConvert.cc:646-661 | The digitizer sees the unweighted count and the tof-corrected time. Its charge is weighted by the same factor as nPE. |
| HitRows.SinglePhotonCounters | app/WCSIM_TreeConvert.cc:629-637 | For a one-photon hit, the three counters are that photon's flags. |
| HitRows.DigiRowFacts | app/WCSIM_TreeConvert.cc:706-768 | A digitized row is one hit on tube − 1. Its time is the hit time − tof + trigger time − trigger shift. Its charge is weighted by the cache weight. |
| HitRows.DigiHitRow | app/WCSIM_TreeConvert.cc:706-768 | The digitized-hit loop body yields the digitized row of the hit. |
| HitRows.RawRowWeight | app/WCSIM_TreeConvert.cc:651-661 | A raw hit names an existing PMT and carries that PMT's table weight. With both reweights off, nPE is the photon count. |
| HitRows.DigiRowWeight | app/WCSIM_TreeConvert.cc:759-768 | A digitized hit names an existing PMT and carries that PMT's table weight. With both reweights off, nPE is the charge. |
| ConvertRun.HitTables.constructor | app/WCSIM_TreeConvert.cc:257-287 | Both hit trees start empty. |
| ConvertRun.HitTables.Fill | app/WCSIM_TreeConvert.cc:663-664 | Fill appends the row to its own type's tree and leaves the other tree unchanged. |
| ConvertRun.HitsOf | app/WCSIM_TreeConvert.cc:533-566 | The trigger type t reads: B&L the first trigger, mPMT the second in a hybrid run and none otherwise; TypeRowsShape states the row count that follows. |
| ConvertRun.TypeRows | app/WCSIM_TreeConvert.cc:547-773 | The rows one type of one event adds; TypeRowsShape and TypeRowsUseTableWeights state them, ProcessType computes them. |
| ConvertRun.EventsRows | app/WCSIM_TreeConvert.cc:466-781 | The rows of a range of events in event order; ConvertEvents computes them. |
| ConvertRun.RawRows | app/WCSIM_TreeConvert.cc:571-666 | The first n raw hits give n rows. |
| ConvertRun.RawRowsElements | app/WCSIM_TreeConvert.cc:571-666 | Row i is the row of hit i: hit order is kept. |
| ConvertRun.DigiRows | app/WCSIM_TreeConvert.cc:697-773 | The first n digitized hits give n rows. |
| ConvertRun.DigiRowsElements | app/WCSIM_TreeConvert.cc:697-773 | Row i is the row of digitized hit i. |
| ConvertRun.TypeRowsShape | app/WCSIM_TreeConvert.cc:547-773 | An event adds one row per hit of the run's kind, or none when its type is skipped. Every row is digitized exactly in a digitized run. |
| ConvertRun.RawRowsUseTableWeights | app/WCSIM_TreeConvert.cc:571-666 | Every raw row names an existing PMT and carries that PMT's table weight. |
| ConvertRun.DigiRowsUseTableWeights | app/WCSIM_TreeConvert.cc:697-773 | Every digitized row names an existing PMT and carries that PMT's table weight. |
| ConvertRun.TypeRowsUseTableWeights | app/WCSIM_TreeConvert.cc:547-773 | Every row an event adds names an existing PMT of its type and carries exactly the weight the PMT table recorded for it. |
| ConvertRun.RawHitLoop | app/WCSIM_TreeConvert.cc:571-666 | The raw-hit loop appends the rows of all raw hits, in order, to its type's tree, and leaves the other tree alone. |
| ConvertRun.DigiHitLoop | app/WCSIM_TreeConvert.cc:697-773 | The digitized-hit loop appends the rows of all digitized hits, in order, and leaves the other tree alone. |
| ConvertRun.ProcessType | app/WCSIM_TreeConvert.cc:547-773 | One type of one event appends nothing when skipped, otherwise the rows of its raw or digitized hits. |
| ConvertRun.ProcessEvent | app/WCSIM_TreeConvert.cc:493-773 | One event appends its type-0 rows to tree 0 and its type-1 rows to tree 1, with the triggers extracted for that event. |
| ConvertRun.ConvertEvent | app/WCSIM_TreeConvert.cc:466-781 | One turn of the event loop extends the rows of the events so far by those of the next event. |
| ConvertRun.ConvertEvents | app/WCSIM_TreeConvert.cc:466-781 | Events startEvent .. nevent − 1 append their rows in event order, and nothing happens when the start is not below the end. |
| ConvertRun.LedCache | app/WCSIM_TreeConvert.cc:372-419 | The LED cache holds one entry per PMT. |
| ConvertRun.AttCache | app/WCSIM_TreeConvert.cc:374-452 | The attenuation cache holds one entry per PMT. |
| ConvertRun.CachesAreDetermined | app/WCSIM_TreeConvert.cc:372-452 | The caches the table loop leaves are exactly the enabled factors and -1 elsewhere. |
| ConvertRun.SetupOf | app/WCSIM_TreeConvert.cc:289-367 | The setup of a run: the first event's vertex, its source frame, the options and vg in m/ns; SourceFrameOf states the frame. |
| ConvertRun.Runnable | app/WCSIM_TreeConvert.cc:171-466 | What `main` relies on without checking it, for the events it converts only; Convert requires it. |
| ConvertRun.AppendAssoc | app/WCSIM_TreeConvert.cc:466-781 | Row sequences regroup under concatenation, the step from one event-loop turn to the next. |
| ConvertRun.ConvertWith | app/WCSIM_TreeConvert.cc:369-781 | The PMT tables hold the row of every PMT. The hit trees hold the rows of the converted events, weighted with the caches the table loop built. |
| ConvertRun.Convert | app/WCSIM_TreeConvert.cc:171-789 | Without an input file the status is -1 and nothing is written. Otherwise the status is 0, with both PMT tables and the hit rows of events startEvent .. nevent − 1. |
| AnaEvents.AddedWeightOnlyScales | src/AnaEvent.hh:107 | `AddEvWght` multiplies the weight and changes nothing else, the MC weight included. |
| AnaEvents.AddedWeightsIsProduct | src/AnaEvent.hh:107 | Successive reweights multiply the weight by the product of the factors and change nothing else. |
| AnaEvents.ResetWeightFacts | src/AnaEvent.hh:111 | A reset restores the MC weight and the nominal prediction. Resetting is idempotent, and a reset followed by reweighting by 1 still gives the MC weight. |
| AnaEvents.ResetAfterReweights | src/AnaEvent.hh:107-111 | A reset discards all earlier reweights: afterwards the weight is the MC weight times the later factors. |
| AnaEvents.AddedParsInOrder | src/AnaEvent.hh:181-183 | `AddPar` calls build the parameter list in insertion order after the old list, and change nothing else. |
| AnaEvents.GetEventVar | src/AnaEvent.hh:132-175 | The lookup by name; GetEventVarByKey and GetEventVarUnknownKey state both outcomes. |
| AnaEvents.AnaEvent.GetEventVarOf | src/AnaEvent.hh:132-175 | The lookup on the object's current fields, the same as GetEventVar on its snapshot. |
| AnaEvents.KeysDistinct | src/AnaEvent.hh:132-169 | The 17 lookup keys are pairwise distinct. |
| AnaEvents.GetEventVarByKey | src/AnaEvent.hh:132-169 | Each key returns its own field, integers converted to double. No earlier test catches it. |
| AnaEvents.VariableKeysAreEventKeys | src/AnaEvent.hh:132-169 | Every variable's key is one the chain tests. |
| AnaEvents.GetEventVarUnknownKey | src/AnaEvent.hh:170-174 | Any other key returns -1 whatever the event holds. |
| AnaEvents.NearMissKeys | src/AnaEvent.hh:132-174 | "dz_", "bin", "wght" and "nPE_indirect" are not keys and return -1. |
| AnaEvents.AnaEvent.constructor | src/AnaEvent.hh:10-34 | The id is set. The sub-ids and PMT ids are -99, the angles, R, nPE and timetof are -999, dz, z0 and the indirect light are 0, efficiency and weights are 1, and the vectors are empty. |
| AnaEvents.AnaEvent.SetSampleType | src/AnaEvent.hh:37 | Sets the sample type and nothing else. |
| AnaEvents.AnaEvent.SetSampleBin | src/AnaEvent.hh:40 | Sets the bin and nothing else. |
| AnaEvents.AnaEvent.SetPMTID | src/AnaEvent.hh:43 | Sets the PMT id and nothing else. |
| AnaEvents.AnaEvent.SetmPMTID | src/AnaEvent.hh:46 | Sets the mPMT sub-id and nothing else. |
| AnaEvents.AnaEvent.SetCosths | src/AnaEvent.hh:51 | Sets cosths and nothing else. |
| AnaEvents.AnaEvent.SetPhis | src/AnaEvent.hh:54 | Sets phis and nothing else. |
| AnaEvents.AnaEvent.SetCosth | src/AnaEvent.hh:57 | Sets costh and nothing else. |
| AnaEvents.AnaEvent.SetCosthm | src/AnaEvent.hh:60 | Sets costhm and nothing else. |
| AnaEvents.AnaEvent.SetPhim | src/AnaEvent.hh:63 | Sets phim and nothing else. |
| AnaEvents.AnaEvent.SetOmega | src/AnaEvent.hh:66 | Sets omega and nothing else. |
| AnaEvents.AnaEvent.SetDz | src/AnaEvent.hh:69 | Sets dz and nothing else. |
| AnaEvents.AnaEvent.SetZ0 | src/AnaEvent.hh:72 | Sets z0 and nothing else. |
| AnaEvents.AnaEvent.SetR | src/AnaEvent.hh:75 | Sets R and nothing else. |
| AnaEvents.AnaEvent.SetPE | src/AnaEvent.hh:78 | Sets nPE and nothing else. |
| AnaEvents.AnaEvent.SetPEIndirect | src/AnaEvent.hh:84 | Sets the indirect light and nothing else. |
| AnaEvents.AnaEvent.SetPEIndirectErr | src/AnaEvent.hh:87 | Sets its error and nothing else. |
| AnaEvents.AnaEvent.SetTimetof | src/AnaEvent.hh:90 | Sets timetof and nothing else. |
| AnaEvents.AnaEvent.SetEff | src/AnaEvent.hh:93 | Sets the efficiency and nothing else. |
| AnaEvents.AnaEvent.SetTimetofNom | src/AnaEvent.hh:96 | Sets the nominal prediction and nothing else. |
| AnaEvents.AnaEvent.SetTimetofNomSig2 | src/AnaEvent.hh:99 | Sets its sigma² and nothing else. |
| AnaEvents.AnaEvent.SetTimetofPred | src/AnaEvent.hh:102 | Sets the prediction and nothing else. |
| AnaEvents.AnaEvent.SetEvWght | src/AnaEvent.hh:105 | Sets the weight and nothing else. |
| AnaEvents.AnaEvent.SetEvWghtMC | src/AnaEvent.hh:108 | Sets the MC weight and nothing else. |
| AnaEvents.AnaEvent.SetRecoVar | src/AnaEvent.hh:179 | Sets the reconstructed variables and nothing else. |
| AnaEvents.AnaEvent.AddEvWght | src/AnaEvent.hh:107 | Multiplies the weight by the factor and changes nothing else. |
| AnaEvents.AnaEvent.ResetEvWght | src/AnaEvent.hh:111 | Restores the MC weight and the nominal prediction, and changes nothing else. |
| AnaEvents.AnaEvent.ResetParList | src/AnaEvent.hh:181 | Empties the parameter list and changes nothing else. |
| AnaEvents.AnaEvent.AddPar | src/AnaEvent.hh:182 | Appends one parameter and changes nothing else. |
| AnaSamples.SizeAsInt | src/AnaSample.hh:30 | `size()` returned as `int`: the size itself below 2^31, and always congruent to it modulo 2^32. |
| AnaSamples.AnaSample.ClearEvents | src/AnaSample.hh:31 | Empties the event list (GetN is 0) and changes nothing else. |
| AnaSamples.AnaSample.AddEvent | src/AnaSample.hh:32 | Appends a copy of the event as it was at the call, after the unchanged earlier events. |
| AnaSamples.AnaSample.ClearPMTs | src/AnaSample.hh:38 | Empties the PMT list and changes nothing else. |
| AnaSamples.AnaSample.AddPMT | src/AnaSample.hh:39 | Appends a copy of the PMT entry as it was at the call, after the unchanged earlier entries. |
| AnaSamples.AnaSample.SetNorm | src/AnaSample.hh:47 | Sets the normalisation and nothing else. |
| AnaSamples.AnaSample.SetCut | src/AnaSample.hh:64 | Pushes name, low and high onto the three cut vectors, so aligned vectors stay aligned. Changes nothing else. |
| AnaSamples.AnaSample.ResetCut | src/AnaSample.hh:65 | Empties all three cut vectors and changes nothing else. |
| AnaSamples.AnaSample.MaskPMT | src/AnaSample.hh:67 | Sets the PMT mask and nothing else. |
| AnaSamples.AnaSample.SetnPMTpermPMT | src/AnaSample.hh:68 | Sets the PMTs per module and nothing else. |
| AnaSamples.AddedCutsLineUp | src/AnaSample.hh:64-65 | After a reset and any number of `SetCut` calls, the three vectors have one entry per call, and cut i is the i-th call's triple. |
| AnaTrees.GetEventVar | src/AnaTree.hh:68-97 | The lookup by name over the leaves; GetEventVarByKey and GetEventVarUnknownKey state both outcomes. |
| AnaTrees.GetEventVarByKey | src/AnaTree.hh:68-91 | Each of the 11 keys returns its own leaf. |
| AnaTrees.GetEventVarUnknownKey | src/AnaTree.hh:92-96 | Any other key returns -1 whatever the leaves hold. |
| AnaTrees.UnofferedLeaves | src/AnaTree.hh:33-96 | `dz`, `weight` and `nHits` are leaves of the tree, yet their names return -1. |
| AnaTrees.TreeKeysAreEventKeys | src/AnaTree.hh:68-91 | The tree's 11 keys are a strict subset of `AnaEvent`'s 17. |
| AnaTrees.TreeAgreesWithEvent | src/AnaTree.hh:68-96 | An event filled from the leaves answers every tree key exactly as the tree does. |

## Left out

- **ROOT I/O.** Opening and reading the input file and the geometry tree, creating branches and
  writing the output file are not modelled. The events and the geometry are parameters, and the
  trees are sequences of rows. An input file that cannot be opened (also status -1) is not
  modelled separately.
- **Exit status 9.** The checks on an empty geometry or options tree (status 9) are not
  modelled: the geometry is a given value.
- **Command-line tokenising and numeric conversion.** Tokenising by getopt and the numeric
  conversions `stoi`/`stod` are not modelled, nor are the exceptions they throw on malformed
  text. An option arrives already converted, and `-p` converts through a `stod` parameter.
- **Floating point.** Doubles are reals: rounding, NaN and infinities are not modelled.
  Divisions by zero in the source are excluded by the requirements listed above instead of
  producing inf or NaN.
- **Numerics and physics.** `TMath::Sqrt`, `atan2`, `TVector3::Angle`, pi, `CalcGroupVelocity`,
  `LEDProfile::GetLEDWeight`, `AttenuationZ::GetAttenuationZWeight` and the two digitizers'
  `Digitize` are uninterpreted parameters. Their code is not part of this model. Unit length of
  the computed directions is therefore not stated.
- **Randomness.** The random generator and its seed (`TRandom3`, `gRandom`) are not modelled;
  the seed is only kept as an option.
- **Console output.** Verbose printing, `HelpMessage`, `AnaEvent::Print` and the two
  "not available" error messages of `GetEventVar` (src/AnaEvent.hh:172, src/AnaTree.hh:94) are
  output only and not modelled; the -1 those functions return is.
- **Raw mode outside a hybrid run.** `wcsimrootevent2` is declared without a value
  (app/WCSIM_TreeConvert.cc:243) and assigned only in a hybrid run (line 472), yet the raw-hit
  branch for mPMTs dereferences it (line 558) for every run. With `-b` and raw hits this is
  undefined behaviour in C++. The model chooses "no mPMT hits and no mPMT rows"
  (`ConvertRun.HitsOf`), which is what a hybrid-less run's zero hit count would give.
- **The option character.** The getopt loop stores the result in a `char` and compares it with -1
  (app/WCSIM_TreeConvert.cc:95-96). The model takes `char` to be signed. Where it is unsigned the
  comparison never holds, and the loop ends instead through `default: return 0`, so no
  conversion runs at all.
- **`AnaSample`'s other members.** The constructor, destructor, `GetEvent`, `GetPMT`,
  `InitEventMap`, `LoadEventsFromFile`, the histogram and likelihood members and the binning are
  declared in src/AnaSample.hh but defined elsewhere. Their code is not part of this model, so
  no constructor is given; `GetN` and `GetNPMTs` are modelled.
- **`AnaTree`'s other members.** The constructor, the masking functions, the entry readers and
  `GetPMTs` are declared in src/AnaTree.hh and defined elsewhere. They are not part of this model.
- **Getters.** The getters of `AnaEvent` and `AnaSample` are plain field reads. They carry no
  contract of their own: the setters' contracts state their results.
