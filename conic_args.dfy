/** The command-line parser of the conic projection converter: a loop over the
    arguments that sets the projection family, its parameters, the reporting
    precision and the input/output options, and that can stop the program
    early with a usage message, the version line or a diagnostic. */
module ConicArgs {
  import opened Wrappers

  /** The hemisphere indicator the angle decoder reports. */
  datatype DmsFlag = NoHemisphere | Latitude | Longitude | Azimuth | Number

  /** The foreign decoders the parser calls; each fails with a message. */
  datatype Decoders = Decoders(
    dms: string -> Result<(real, DmsFlag), string>,
    number: string -> Result<real, string>,
    fraction: string -> Result<real, string>,
    integer: string -> Result<int, string>,
    normalize: real -> real)

  /** Everything the argument loop sets. */
  datatype Options = Options(
    lcc: bool, albers: bool, reverse: bool, longfirst: bool,
    lat1: real, lat2: real, lon0: real, k1: real, a: real, f: real, prec: int,
    istring: string, ifile: string, ofile: string, cdelim: string, lsep: char)

  /** The state before any argument: no family, WGS84, precision 6, ';' as
      line separator. */
  const Initial := Options(false, false, false, false, 0.0, 0.0, 0.0, 1.0,
                           6378137.0, 1.0 / 298.257223563, 6, "", "", "", "", ';')

  /** How the program can stop before converting: the usage text with an exit
      status and whether it is the brief form, the version line (status 0), or
      a diagnostic on the error stream (status 1). */
  datatype Stop = Usage(status: int, brief: bool) | Version | Refused(message: string)

  function ExitStatus(s: Stop): (r: int)
    ensures r == 0 || r == 1
    ensures r == 0 <==> s == Version || (s.Usage? && s.status == 0)
  {
    match s
    case Usage(status, _) => if status == 0 then 0 else 1
    case Version => 0
    case Refused(_) => 1
  }

  /** One trip through the loop: the options after the argument at `i` and the
      index of the next unread argument, or the way the program stops. */
  datatype Advance = Next(o: Options, at: nat) | Halt(stop: Stop)

  /** The outcome of the whole loop. */
  datatype Parsed = Done(options: Options) | Halted(stop: Stop)

  /** A standard parallel: any angle not marked as a longitude. */
  function LatitudeArg(s: string, dec: Decoders): (r: Result<real, string>)
    ensures r.Success? <==> dec.dms(s).Success? && dec.dms(s).value.1 != Longitude
    ensures r.Success? ==> r.value == dec.dms(s).value.0
  {
    var (v, ind) :- dec.dms(s);
    if ind == Longitude then Failure("Bad hemisphere") else Success(v)
  }

  /** The central meridian: any angle not marked as a latitude, normalised. */
  function LongitudeArg(s: string, dec: Decoders): (r: Result<real, string>)
    ensures r.Success? <==> dec.dms(s).Success? && dec.dms(s).value.1 != Latitude
    ensures r.Success? ==> r.value == dec.normalize(dec.dms(s).value.0)
  {
    var (v, ind) :- dec.dms(s);
    if ind == Latitude then Failure("Bad hemisphere") else Success(dec.normalize(v))
  }

  /** The flags that take one value and the flags that take two. */
  const ValueFlags: set<string> := {"-l", "-k", "-p", "--input-string", "--input-file",
                                    "--output-file", "--line-separator", "--comment-delimiter"}
  const PairFlags: set<string> := {"-c", "-a", "-e"}
  const Flags: set<string> := ValueFlags + PairFlags + {"-r", "-w", "--version"}

  /** The family and the two standard parallels agree. */
  predicate SameFamily(o: Options, o': Options) {
    o.lcc == o'.lcc && o.albers == o'.albers && o.lat1 == o'.lat1 && o.lat2 == o'.lat2
  }

  /** The loop body for the argument at `i` (`args` excludes the program name,
      so the source's `m + 2 >= argc` is `i + 2 >= |args|` and its
      `++m == argc` is `i + 1 == |args|`). */
  function Step(o: Options, args: seq<string>, i: nat, dec: Decoders): (r: Advance)
    requires i < |args|
    ensures r.Next? ==> i < r.at <= |args|
    ensures r.Next? ==> (r.o.lcc == o.lcc && r.o.albers == o.albers) || r.o.lcc != r.o.albers
    ensures r.Next? && args[i] != "-c" && args[i] != "-a" ==> SameFamily(r.o, o)
    ensures r.Next? && (args[i] == "-c" || args[i] == "-a") ==> r.o.lcc == (args[i] == "-c") && r.o.albers == (args[i] == "-a")
  {
    var arg := args[i];
    if arg == "-r" then Next(o.(reverse := true), i + 1)
    else if arg == "-c" || arg == "-a" then
      if i + 2 >= |args| then Halt(Usage(1, true))
      else match LatitudeArg(args[i + 1], dec)
        case Failure(e) => Halt(Refused("Error decoding arguments of " + arg + ": " + e))
        case Success(lat1) =>
          match LatitudeArg(args[i + 2], dec)
          case Failure(e) => Halt(Refused("Error decoding arguments of " + arg + ": " + e))
          case Success(lat2) =>
            Next(o.(lcc := arg == "-c", albers := arg == "-a", lat1 := lat1, lat2 := lat2), i + 3)
    else if arg == "-e" then
      if i + 2 >= |args| then Halt(Usage(1, true))
      else match dec.number(args[i + 1])
        case Failure(e) => Halt(Refused("Error decoding arguments of -e: " + e))
        case Success(a) =>
          match dec.fraction(args[i + 2])
          case Failure(e) => Halt(Refused("Error decoding arguments of -e: " + e))
          case Success(f) => Next(o.(a := a, f := f), i + 3)
    else if arg == "-w" then Next(o.(longfirst := !o.longfirst), i + 1)
    else if arg == "--version" then Halt(Version)
    else if arg !in ValueFlags then
      Halt(Usage(if arg == "-h" || arg == "--help" then 0 else 1, arg != "--help"))
    else if i + 1 == |args| then Halt(Usage(1, true))
    else ValueStep(o, arg, args[i + 1], i + 2, dec)
  }

  /** The flags that take one value, once the value `v` is known to exist. */
  function ValueStep(o: Options, arg: string, v: string, at: nat, dec: Decoders): (r: Advance)
    requires arg in ValueFlags
    ensures r.Next? ==> r.at == at && SameFamily(r.o, o)
  {
    if arg == "-l" then
      match LongitudeArg(v, dec)
      case Failure(e) => Halt(Refused("Error decoding argument of -l: " + e))
      case Success(lon0) => Next(o.(lon0 := lon0), at)
    else if arg == "-k" then
      match dec.number(v)
      case Failure(e) => Halt(Refused("Error decoding argument of -k: " + e))
      case Success(k1) => Next(o.(k1 := k1), at)
    else if arg == "-p" then
      match dec.integer(v)
      case Failure(_) => Halt(Refused("Precision " + v + " is not a number"))
      case Success(p) => Next(o.(prec := p), at)
    else if arg == "--input-string" then Next(o.(istring := v), at)
    else if arg == "--input-file" then Next(o.(ifile := v), at)
    else if arg == "--output-file" then Next(o.(ofile := v), at)
    else if arg == "--line-separator" then
      if |v| != 1 then Halt(Refused("Line separator must be a single character"))
      else Next(o.(lsep := v[0]), at)
    else Next(o.(cdelim := v), at)
  }

  /** The loop from argument `i` on. */
  function ParseFrom(o: Options, args: seq<string>, i: nat, dec: Decoders): Parsed
    decreases |args| - i
  {
    if i >= |args| then Done(o)
    else match Step(o, args, i, dec)
      case Halt(s) => Halted(s)
      case Next(o', j) => ParseFrom(o', args, j, dec)
  }

  function Parse(args: seq<string>, dec: Decoders): Parsed {
    ParseFrom(Initial, args, 0, dec)
  }

  /** The argument loop. */
  method ParseArguments(args: seq<string>, dec: Decoders) returns (r: Parsed)
    ensures r == Parse(args, dec)
  {
    var o := Initial;
    var m := 0;
    while m < |args|
      invariant m <= |args|
      invariant ParseFrom(o, args, m, dec) == Parse(args, dec)
      decreases |args| - m
    {
      var arg := args[m];
      if arg == "-r" {
        o := o.(reverse := true);
      } else if arg == "-c" || arg == "-a" {
        if m + 2 >= |args| {
          return Halted(Usage(1, true));
        }
        var lat1 := LatitudeArg(args[m + 1], dec);
        if lat1.Failure? {
          return Halted(Refused("Error decoding arguments of " + arg + ": " + lat1.error));
        }
        var lat2 := LatitudeArg(args[m + 2], dec);
        if lat2.Failure? {
          return Halted(Refused("Error decoding arguments of " + arg + ": " + lat2.error));
        }
        o := o.(lcc := arg == "-c", albers := arg == "-a", lat1 := lat1.value, lat2 := lat2.value);
        m := m + 2;
      } else if arg == "-e" {
        if m + 2 >= |args| {
          return Halted(Usage(1, true));
        }
        var a := dec.number(args[m + 1]);
        if a.Failure? {
          return Halted(Refused("Error decoding arguments of -e: " + a.error));
        }
        var f := dec.fraction(args[m + 2]);
        if f.Failure? {
          return Halted(Refused("Error decoding arguments of -e: " + f.error));
        }
        o := o.(a := a.value, f := f.value);
        m := m + 2;
      } else if arg == "-w" {
        o := o.(longfirst := !o.longfirst);
      } else if arg == "--version" {
        return Halted(Version);
      } else if arg !in ValueFlags {
        return Halted(Usage(if arg == "-h" || arg == "--help" then 0 else 1, arg != "--help"));
      } else {
        m := m + 1;
        if m == |args| {
          return Halted(Usage(1, true));
        }
        var step := ValueStep(o, arg, args[m], m + 1, dec);
        if step.Halt? {
          return Halted(step.stop);
        }
        o := step.o;
      }
      m := m + 1;
    }
    return Done(o);
  }

  /** Whatever the arguments, the two families are never both selected. */
  lemma {:induction false} FamiliesExclusive(o: Options, args: seq<string>, i: nat, dec: Decoders)
    requires !(o.lcc && o.albers)
    ensures ParseFrom(o, args, i, dec).Done? ==> !(ParseFrom(o, args, i, dec).options.lcc && ParseFrom(o, args, i, dec).options.albers)
    decreases |args| - i
  {
    if i < |args| {
      match Step(o, args, i, dec)
      case Halt(_) =>
      case Next(o', j) => FamiliesExclusive(o', args, j, dec);
    }
  }

  /** A step that completed within `args` reads nothing past them. */
  lemma StepExtends(o: Options, args: seq<string>, t: seq<string>, i: nat, dec: Decoders)
    requires i < |args| && Step(o, args, i, dec).Next?
    ensures Step(o, args + t, i, dec) == Step(o, args, i, dec)
  {
    var all := args + t;
    assert all[i] == args[i];
    if i + 1 < |args| {
      assert all[i + 1] == args[i + 1];
    }
    if i + 2 < |args| {
      assert all[i + 2] == args[i + 2];
    }
  }

  /** Parsing more arguments resumes from where a complete parse ended. */
  lemma {:induction false} ParseAppend(o: Options, args: seq<string>, t: seq<string>, i: nat, dec: Decoders)
    requires i <= |args| && ParseFrom(o, args, i, dec).Done?
    ensures ParseFrom(o, args + t, i, dec) == ParseFrom(ParseFrom(o, args, i, dec).options, args + t, |args|, dec)
    decreases |args| - i
  {
    if i < |args| {
      var s := Step(o, args, i, dec);
      StepExtends(o, args, t, i, dec);
      ParseAppend(s.o, args, t, s.at, dec);
    }
  }

  /** The parser never leaves both families selected. */
  lemma NoTwoFamilies(args: seq<string>, dec: Decoders)
    requires Parse(args, dec).Done?
    ensures !(Parse(args, dec).options.lcc && Parse(args, dec).options.albers)
  {
    FamiliesExclusive(Initial, args, 0, dec);
  }

  /** Arguments other than `-c` and `-a` leave the family and the parallels
      as they were. */
  lemma {:induction false} FamilyKept(o: Options, args: seq<string>, i: nat, dec: Decoders)
    requires forall k :: i <= k < |args| ==> args[k] != "-c" && args[k] != "-a"
    ensures ParseFrom(o, args, i, dec).Done? ==> SameFamily(ParseFrom(o, args, i, dec).options, o)
    decreases |args| - i
  {
    if i < |args| {
      match Step(o, args, i, dec)
      case Halt(_) =>
      case Next(o', j) => FamilyKept(o', args, j, dec);
    }
  }

  /** A `-c` or `-a` with two acceptable parallels selects that family alone
      and replaces both parallels, whatever came before; whatever follows
      without another `-c` or `-a` keeps them. */
  lemma LastFamilyWins(args: seq<string>, flag: string, x: string, y: string, t: seq<string>, dec: Decoders)
    requires Parse(args, dec).Done?
    requires flag == "-c" || flag == "-a"
    requires LatitudeArg(x, dec).Success? && LatitudeArg(y, dec).Success?
    requires forall k :: 0 <= k < |t| ==> t[k] != "-c" && t[k] != "-a"
    ensures Parse(args + [flag, x, y], dec)
            == Done(Parse(args, dec).options.(lcc := flag == "-c", albers := flag == "-a",
                                              lat1 := LatitudeArg(x, dec).value, lat2 := LatitudeArg(y, dec).value))
    ensures Parse(args + [flag, x, y] + t, dec).Done? ==>
              var o := Parse(args + [flag, x, y] + t, dec).options;
              && o.lcc == (flag == "-c") && o.albers == (flag == "-a")
              && o.lat1 == LatitudeArg(x, dec).value && o.lat2 == LatitudeArg(y, dec).value
  {
    var head := args + [flag, x, y];
    ParseAppend(Initial, args, [flag, x, y], 0, dec);
    assert head[|args|] == flag && head[|args| + 1] == x && head[|args| + 2] == y;
    ParseAppend(Initial, head, t, 0, dec);
    var all := head + t;
    assert forall k :: |head| <= k < |all| ==> all[k] == t[k - |head|];
    FamilyKept(Parse(head, dec).options, all, |head|, dec);
  }

  /** Each `-w` flips the longitude-first flag. */
  lemma LongFirstToggles(args: seq<string>, dec: Decoders)
    requires Parse(args, dec).Done?
    ensures Parse(args + ["-w"], dec) == Done(Parse(args, dec).options.(longfirst := !Parse(args, dec).options.longfirst))
  {
    ParseAppend(Initial, args, ["-w"], 0, dec);
    assert (args + ["-w"])[|args|] == "-w";
  }

  /** `--line-separator` takes exactly one character. */
  lemma LineSeparatorSingleChar(args: seq<string>, v: string, dec: Decoders)
    requires Parse(args, dec).Done?
    ensures Parse(args + ["--line-separator", v], dec)
            == if |v| == 1 then Done(Parse(args, dec).options.(lsep := v[0]))
               else Halted(Refused("Line separator must be a single character"))
  {
    var all := args + ["--line-separator", v];
    ParseAppend(Initial, args, ["--line-separator", v], 0, dec);
    assert all[|args|] == "--line-separator" && all[|args| + 1] == v;
  }

  /** A flag whose value is missing at the end of the line prints the brief
      usage and fails; a two-value flag fails the same way with one value. */
  lemma MissingValueIsUsage(args: seq<string>, flag: string, x: string, dec: Decoders)
    requires Parse(args, dec).Done?
    requires flag in ValueFlags || flag in PairFlags
    ensures Parse(args + [flag], dec) == Halted(Usage(1, true))
    ensures flag in PairFlags ==> Parse(args + [flag, x], dec) == Halted(Usage(1, true))
  {
    ParseAppend(Initial, args, [flag], 0, dec);
    assert (args + [flag])[|args|] == flag;
    ParseAppend(Initial, args, [flag, x], 0, dec);
    assert (args + [flag, x])[|args|] == flag;
  }

  /** Any other argument stops with the usage text: the full text and status 0
      for `--help`, the brief text and status 0 for `-h`, the brief text and
      status 1 otherwise. */
  lemma UnknownArgumentIsUsage(args: seq<string>, arg: string, dec: Decoders)
    requires Parse(args, dec).Done?
    requires arg !in Flags
    ensures Parse(args + [arg], dec) == Halted(Usage(if arg == "-h" || arg == "--help" then 0 else 1, arg != "--help"))
    ensures ExitStatus(Parse(args + [arg], dec).stop) == 0 <==> arg == "-h" || arg == "--help"
  {
    ParseAppend(Initial, args, [arg], 0, dec);
    assert (args + [arg])[|args|] == arg;
  }
}
