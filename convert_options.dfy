/** Command-line handling of the converter (app/WCSIM_TreeConvert.cc, the getopt switch and the
    event-count cut). Tokenising the command line and the numeric conversions `stoi`/`stod` are
    not modelled: a flag arrives with its argument already converted, and `-p`'s fields are
    converted by the `stod` parameter. */
module ConvertOptions {
  import opened Basics

  /** One option as getopt hands it over, for the option string "f:o:b:s:e:l:r:z:p:hdtvw". */
  datatype Flag =
    | InputFile(path: string)        // -f
    | RawHits                        // -d : use raw Cherenkov hits
    | OnlyBL(arg: string)            // -b : B&L PMTs only; "b:" makes getopt take an argument, which is ignored
    | SeparatedTriggers              // -t
    | Verbose                        // -v
    | OutputFile(path: string)       // -o
    | StartEvent(n: Int32)           // -s
    | EndEvent(n: Int32)             // -e
    | Seed(n: Int32)                 // -r
    | Wavelength(nm: real)           // -l
    | DiffuserProfile                // -w
    | Slope(a: real)                 // -z
    | WaterParams(text: string)      // -p "ABWFF,RAYFF"
    | Help                           // -h
    | Unrecognised                   // anything else

  datatype Options = Options(
    inputFile: Option<string>,
    outputFile: Option<string>,
    plotDigitized: bool,
    hybrid: bool,
    separatedTriggers: bool,
    verbose: bool,
    diffuserProfile: bool,
    zreweight: bool,
    slopeA: real,
    abwff: real,
    rayff: real,
    wavelength: real,
    startEvent: Int32,
    endEvent: Int32,
    seed: Int32)

  /** The values `main` starts from */
  const Defaults := Options(None, None, true, true, false, false, false, false,
                            0.0, 1.3, 0.75, 400.0, 0, 0, 0)

  const DefaultWavelength := 400.0

  /** The slope below which `-z` does not switch the attenuation reweight on */
  const SlopeThreshold := 0.000000001

  /** Option processing either goes on to the conversion or ends `main` with an exit status
      (`-h` prints the help and falls through to `default: return 0`). */
  datatype Parsed = Proceed(opts: Options) | Exit(code: int)

  /** The switch of the getopt loop: the effect of one option. */
  function ApplyFlag(o: Options, f: Flag, stod: string -> real): Parsed
  {
    match f
    case InputFile(p) => Proceed(o.(inputFile := Some(p)))
    case RawHits => Proceed(o.(plotDigitized := false))
    case OnlyBL(_) => Proceed(o.(hybrid := false))
    case SeparatedTriggers => Proceed(o.(separatedTriggers := true))
    case Verbose => Proceed(o.(verbose := true))
    case OutputFile(p) => Proceed(o.(outputFile := Some(p)))
    case StartEvent(n) => Proceed(o.(startEvent := if n < 0 then 0 else n))
    case EndEvent(n) => Proceed(o.(endEvent := n))
    case Seed(n) => Proceed(o.(seed := if n < 0 then 0 else n))
    case Wavelength(w) => Proceed(o.(wavelength := if w < 0.0 then DefaultWavelength else w))
    case DiffuserProfile => Proceed(o.(diffuserProfile := true))
    case Slope(a) => Proceed(o.(slopeA := a, zreweight := if Abs(a) > SlopeThreshold then true else o.zreweight))
    case WaterParams(text) =>
      var wp := WaterParamsOf(GetlineFields(text), stod, o.abwff, o.rayff);
      Proceed(o.(abwff := wp.0, rayff := wp.1))
    case Help => Exit(0)
    case Unrecognised => Exit(0)
  }

  /** The whole getopt loop, from `start`, as a fold over the flags */
  function ParseFrom(o: Options, flags: seq<Flag>, stod: string -> real): Parsed
    decreases |flags|
  {
    if flags == [] then Proceed(o)
    else match ApplyFlag(o, flags[0], stod)
      case Exit(c) => Exit(c)
      case Proceed(o') => ParseFrom(o', flags[1..], stod)
  }

  /** The getopt loop of `main` over already tokenised options. */
  method ParseOptions(flags: seq<Flag>, stod: string -> real) returns (r: Parsed)
    ensures r == ParseFrom(Defaults, flags, stod)
  {
    var o := Defaults;
    var i := 0;
    while i < |flags|
      invariant 0 <= i <= |flags|
      invariant ParseFrom(o, flags[i..], stod) == ParseFrom(Defaults, flags, stod)
    {
      assert flags[i..][0] == flags[i] && flags[i..][1..] == flags[i + 1..];
      match flags[i] {
        case WaterParams(text) =>
          var ab, ray := SetWaterParams(text, stod, o.abwff, o.rayff);
          o := o.(abwff := ab, rayff := ray);
        case Help =>
          return Exit(0);
        case Unrecognised =>
          return Exit(0);
        case _ =>
          o := ApplyFlag(o, flags[i], stod).opts;
      }
      i := i + 1;
    }
    return Proceed(o);
  }

  /** What the command line guarantees to the rest of `main`: the start event and the seed are
      never negative, the wavelength is never negative, and both water parameters stay positive. */
  ghost predicate Sane(o: Options)
  {
    o.startEvent >= 0 && o.seed >= 0 && o.wavelength >= 0.0 && o.abwff > 0.0 && o.rayff > 0.0
  }

  lemma ApplyFlagKeepsSane(o: Options, f: Flag, stod: string -> real)
    requires Sane(o)
    ensures ApplyFlag(o, f, stod).Proceed? ==> Sane(ApplyFlag(o, f, stod).opts)
  {
    if f.WaterParams? {
      WaterParamsPositive(GetlineFields(f.text), stod, o.abwff, o.rayff);
    }
  }

  lemma {:induction false} ParseKeepsSane(o: Options, flags: seq<Flag>, stod: string -> real)
    requires Sane(o)
    ensures ParseFrom(o, flags, stod).Proceed? ==> Sane(ParseFrom(o, flags, stod).opts)
    decreases |flags|
  {
    if flags != [] {
      ApplyFlagKeepsSane(o, flags[0], stod);
      var step := ApplyFlag(o, flags[0], stod);
      if step.Proceed? {
        ParseKeepsSane(step.opts, flags[1..], stod);
      }
    }
  }

  lemma ParsedOptionsAreSane(flags: seq<Flag>, stod: string -> real)
    ensures ParseFrom(Defaults, flags, stod).Proceed? ==> Sane(ParseFrom(Defaults, flags, stod).opts)
  {
    ParseKeepsSane(Defaults, flags, stod);
  }

  /** The three options whose value `main` clamps */
  datatype Clamped = ClampStart | ClampSeed | ClampWavelength

  predicate Sets(f: Flag, c: Clamped)
  {
    match c
    case ClampStart => f.StartEvent?
    case ClampSeed => f.Seed?
    case ClampWavelength => f.Wavelength?
  }

  /** The option's value after its clamp: a negative start event or seed becomes 0, a negative
      wavelength the default 400 nm */
  function ClampedValue(f: Flag, c: Clamped): real
    requires Sets(f, c)
  {
    match c
    case ClampStart => (if f.n < 0 then 0 else f.n) as real
    case ClampSeed => (if f.n < 0 then 0 else f.n) as real
    case ClampWavelength => if f.nm < 0.0 then 400.0 else f.nm
  }

  function FieldOf(o: Options, c: Clamped): real
  {
    match c
    case ClampStart => o.startEvent as real
    case ClampSeed => o.seed as real
    case ClampWavelength => o.wavelength
  }

  /** One option sets a clamped field exactly when it is that field's option. */
  lemma ApplyFlagClamp(o: Options, f: Flag, stod: string -> real, c: Clamped)
    ensures ApplyFlag(o, f, stod).Proceed? ==>
              FieldOf(ApplyFlag(o, f, stod).opts, c) == (if Sets(f, c) then ClampedValue(f, c) else FieldOf(o, c))
  {
  }

  /** Option `k` is the last one that sets the field */
  predicate LastSetting(flags: seq<Flag>, k: int, c: Clamped)
  {
    0 <= k < |flags| && Sets(flags[k], c) && forall j :: k < j < |flags| ==> !Sets(flags[j], c)
  }

  /** The last `-s`, `-r` or `-l` wins, after its clamp; without one the field keeps the value
      it started from. */
  lemma {:induction false} LastClampWins(o: Options, flags: seq<Flag>, stod: string -> real, c: Clamped)
    ensures ParseFrom(o, flags, stod).Proceed? ==>
              var r := FieldOf(ParseFrom(o, flags, stod).opts, c);
              && ((forall k :: 0 <= k < |flags| ==> !Sets(flags[k], c)) ==> r == FieldOf(o, c))
              && (forall k :: LastSetting(flags, k, c) ==> r == ClampedValue(flags[k], c))
    decreases |flags|
  {
    if flags != [] {
      match ApplyFlag(o, flags[0], stod)
      case Exit(_) =>
      case Proceed(o') =>
        var rest := flags[1..];
        LastClampWins(o', rest, stod, c);
        ApplyFlagClamp(o, flags[0], stod, c);
        assert forall j :: 0 <= j < |rest| ==> rest[j] == flags[j + 1];
        forall k | 0 < k && LastSetting(flags, k, c)
          ensures LastSetting(rest, k - 1, c)
        {
        }
    }
  }

  /** From the defaults: start event and seed 0 and wavelength 400 nm unless a later option says
      otherwise. */
  lemma ParsedClamps(flags: seq<Flag>, stod: string -> real, c: Clamped)
    ensures ParseFrom(Defaults, flags, stod).Proceed? && (forall k :: 0 <= k < |flags| ==> !Sets(flags[k], c)) ==>
              FieldOf(ParseFrom(Defaults, flags, stod).opts, c) == (if c == ClampWavelength then 400.0 else 0.0)
  {
    LastClampWins(Defaults, flags, stod, c);
  }

  predicate SteepSlope(f: Flag) { f.Slope? && Abs(f.a) > SlopeThreshold }

  /** One option switches the attenuation reweight on exactly when it is a steep `-z`, and no
      option switches it off. */
  lemma ApplyFlagZReweight(o: Options, f: Flag, stod: string -> real)
    ensures ApplyFlag(o, f, stod).Proceed? ==>
              ApplyFlag(o, f, stod).opts.zreweight == (o.zreweight || SteepSlope(f))
  {
  }

  /** The attenuation reweight is on exactly when some `-z` on the command line had a slope above
      the threshold: a later `-z 0` replaces the slope but does not switch the reweight off. */
  lemma {:induction false} ZReweightIffSteepSlope(o: Options, flags: seq<Flag>, stod: string -> real)
    ensures ParseFrom(o, flags, stod).Proceed? ==>
              (ParseFrom(o, flags, stod).opts.zreweight <==>
                 o.zreweight || exists k :: 0 <= k < |flags| && SteepSlope(flags[k]))
    decreases |flags|
  {
    if flags != [] {
      match ApplyFlag(o, flags[0], stod)
      case Exit(_) =>
      case Proceed(o') =>
        ZReweightIffSteepSlope(o', flags[1..], stod);
        ApplyFlagZReweight(o, flags[0], stod);
        if exists k :: 0 <= k < |flags| && SteepSlope(flags[k]) {
          var k :| 0 <= k < |flags| && SteepSlope(flags[k]);
          if k > 0 { assert flags[1..][k - 1] == flags[k]; }
        }
        if exists k :: 0 <= k < |flags| - 1 && SteepSlope(flags[1..][k]) {
          var k :| 0 <= k < |flags| - 1 && SteepSlope(flags[1..][k]);
          assert flags[k + 1] == flags[1..][k];
        }
    }
  }

  /** `-h` or an unrecognised option anywhere ends option processing with status 0, and nothing
      else does. */
  lemma {:induction false} ExitIffHelpOrUnknown(o: Options, flags: seq<Flag>, stod: string -> real)
    ensures ParseFrom(o, flags, stod).Exit? <==>
              exists k :: 0 <= k < |flags| && (flags[k].Help? || flags[k].Unrecognised?)
    ensures ParseFrom(o, flags, stod).Exit? ==> ParseFrom(o, flags, stod).code == 0
    decreases |flags|
  {
    if flags != [] {
      match ApplyFlag(o, flags[0], stod)
      case Exit(_) =>
      case Proceed(o') =>
        ExitIffHelpOrUnknown(o', flags[1..], stod);
        if exists k :: 0 <= k < |flags| && (flags[k].Help? || flags[k].Unrecognised?) {
          var k :| 0 <= k < |flags| && (flags[k].Help? || flags[k].Unrecognised?);
          assert flags[1..][k - 1] == flags[k];
        }
        if exists k :: 0 <= k < |flags| - 1 && (flags[1..][k].Help? || flags[1..][k].Unrecognised?) {
          var k :| 0 <= k < |flags| - 1 && (flags[1..][k].Help? || flags[1..][k].Unrecognised?);
          assert flags[k + 1] == flags[1..][k];
        }
    }
  }

  // ---- `-p`: comma-separated water parameters ----

  function FirstComma(s: string): (k: nat)
    requires ',' in s
    ensures k < |s| && s[k] == ',' && ',' !in s[..k]
  {
    if s[0] == ',' then 0 else 1 + FirstComma(s[1..])
  }

  /** The text split at every comma; there is always one more piece than there are commas. */
  function Pieces(s: string): (p: seq<string>)
    ensures |p| >= 1
    ensures forall k :: 0 <= k < |p| ==> ',' !in p[k]
    decreases |s|
  {
    if ',' !in s then [s]
    else
      var k := FirstComma(s);
      [s[..k]] + Pieces(s[k + 1..])
  }

  function JoinCommas(p: seq<string>): string
    requires |p| >= 1
  {
    if |p| == 1 then p[0] else p[0] + "," + JoinCommas(p[1..])
  }

  /** Splitting loses nothing: putting the commas back gives the text. */
  lemma {:induction false} JoinPieces(s: string)
    ensures JoinCommas(Pieces(s)) == s
    decreases |s|
  {
    if ',' in s {
      var k := FirstComma(s);
      JoinPieces(s[k + 1..]);
      assert s == s[..k] + "," + s[k + 1..];
    }
  }

  /** The fields `std::getline(ss, s, ',')` yields: the pieces, except that an empty last piece
      (after a trailing comma, or of the empty text) is not read, because getline fails when it
      reaches the end without extracting anything. */
  function GetlineFields(s: string): (fields: seq<string>)
    ensures forall k :: 0 <= k < |fields| ==> ',' !in fields[k]
    ensures s == "" ==> fields == []
    ensures var p := Pieces(s);
            && |p| - 1 <= |fields| <= |p| && fields == p[..|fields|]
            && (|fields| < |p| <==> p[|p| - 1] == "")
  {
    var p := Pieces(s);
    if p[|p| - 1] == "" then p[..|p| - 1] else p
  }

  /** Field 0 replaces ABWFF and field 1 replaces RAYFF, each only when positive; later fields
      and non-positive values are ignored. */
  function WaterParamsOf(fields: seq<string>, stod: string -> real, abwff0: real, rayff0: real): (real, real)
  {
    (if |fields| >= 1 && stod(fields[0]) > 0.0 then stod(fields[0]) else abwff0,
     if |fields| >= 2 && stod(fields[1]) > 0.0 then stod(fields[1]) else rayff0)
  }

  lemma WaterParamsPositive(fields: seq<string>, stod: string -> real, abwff0: real, rayff0: real)
    requires abwff0 > 0.0 && rayff0 > 0.0
    ensures WaterParamsOf(fields, stod, abwff0, rayff0).0 > 0.0
    ensures WaterParamsOf(fields, stod, abwff0, rayff0).1 > 0.0
  {
  }

  /** The `for (getline ...)` loop of the `-p` case, with its field counter. */
  method SetWaterParams(text: string, stod: string -> real, abwff0: real, rayff0: real)
    returns (abwff: real, rayff: real)
    ensures (abwff, rayff) == WaterParamsOf(GetlineFields(text), stod, abwff0, rayff0)
  {
    var fields := GetlineFields(text);
    abwff, rayff := abwff0, rayff0;
    var count := 0;
    while count < |fields|
      invariant 0 <= count <= |fields|
      invariant (abwff, rayff) == WaterParamsOf(fields[..count], stod, abwff0, rayff0)
    {
      var val := stod(fields[count]);
      if val > 0.0 {
        if count == 0 {
          abwff := val;
        } else if count == 1 {
          rayff := val;
        }
      }
      count := count + 1;
    }
    assert fields[..count] == fields;
  }

  /** `nevent`: the number of entries, cut to `endEvent` only when that lies in 1..entries. */
  function EventCount(entries: Int32, endEvent: Int32): (n: Int32)
    ensures n == entries || (0 < n && n == endEvent && n <= entries)
    ensures 0 < endEvent <= entries ==> n == endEvent
    ensures entries >= 0 ==> 0 <= n <= entries
  {
    if endEvent > 0 && endEvent <= entries then endEvent else entries
  }
}
