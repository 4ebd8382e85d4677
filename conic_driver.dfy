/** The conversion driver of the conic projection converter: choosing the input
    and output streams, rewriting the line separator of an input string,
    clamping the precision, and the per-line loop that splits off a comment,
    checks for exactly two fields, converts them and writes one line back. */
module ConicDriver {
  import opened Wrappers
  import opened Text
  import opened ConicArgs

  /** The line separator loop exactly as written: find the separator at or
      after `m`, overwrite it with '\n' and search again from the same index. */
  function SeparatorStepAsWritten(s: string, lsep: char, m: nat): (r: Option<(string, nat)>)
    ensures r.None? <==> FindFrom(s, lsep, m).None?
    ensures r.Some? ==> r.value.1 == FindFrom(s, lsep, m).value && r.value.0 == s[r.value.1 := '\n']
  {
    match FindFrom(s, lsep, m)
    case None => None
    case Some(p) => Some((s[p := '\n'], p))
  }

  /** With '\n' as the separator, a newline in the string is a fixed point of
      the loop as written: the state after a step is the state before it, so
      the loop never ends. */
  lemma NewlineSeparatorNeverAdvances(s: string, p: nat)
    requires p < |s| && s[p] == '\n'
    ensures SeparatorStepAsWritten(s, '\n', p) == Some((s, p))
  {
    assert s[p := '\n'] == s;
  }

  /** A concrete instance: `--input-string "1 2<newline>3 4" --line-separator <newline>`. */
  lemma NewlineSeparatorExample()
    ensures SeparatorStepAsWritten("1 2\n3 4", '\n', 0) == Some(("1 2\n3 4", 3))
    ensures SeparatorStepAsWritten("1 2\n3 4", '\n', 3) == Some(("1 2\n3 4", 3))
  {
    NewlineSeparatorNeverAdvances("1 2\n3 4", 3);
  }

  /** For any other separator, searching again from the overwritten index
      finds what searching from the next index does, so the loop as written and
      the corrected one below visit the same positions. */
  lemma AsWrittenAgreesForOtherSeparators(s: string, lsep: char, m: nat)
    requires lsep != '\n'
    requires SeparatorStepAsWritten(s, lsep, m).Some?
    ensures var (t, p) := SeparatorStepAsWritten(s, lsep, m).value;
            FindFrom(t, lsep, p) == FindFrom(t, lsep, p + 1)
  {
  }

  /** The line separator loop, resuming the search after the position it has
      just rewritten: every separator in the buffer becomes '\n', in place. */
  method SubstituteSeparator(buf: array<char>, lsep: char)
    modifies buf
    ensures buf[..] == ReplaceAll(old(buf[..]), lsep, '\n')
  {
    var m: nat := 0;
    while true
      invariant m <= buf.Length
      invariant forall k :: 0 <= k < m ==> buf[k] == if old(buf[k]) == lsep then '\n' else old(buf[k])
      invariant forall k :: m <= k < buf.Length ==> buf[k] == old(buf[k])
      decreases buf.Length - m
    {
      var p := FindFrom(buf[..], lsep, m);
      if p.None? {
        break;
      }
      buf[p.value] := '\n';
      m := p.value + 1;
    }
    assert forall k :: 0 <= k < buf.Length ==> buf[k] == if old(buf[k]) == lsep then '\n' else old(buf[k]);
  }

  /** The text to convert and the line terminator: from the first occurrence
      of a non-empty comment delimiter on, the line is a comment, converted
      nowhere and echoed after a space at the end of the output line. */
  function SplitComment(s: string, cdelim: string): (r: (string, string))
    ensures r.0 <= s
    ensures r.1 == "\n" || r.1 == " " + s[|r.0|..] + "\n"
    ensures r.1 == "\n" <==> cdelim == [] || FindSubFrom(s, cdelim, 0).None?
    ensures r.1 == "\n" ==> r.0 == s
    ensures r.1 != "\n" ==> OccursAt(s, cdelim, |r.0|)
    ensures cdelim != [] ==> forall j :: 0 <= j < |r.0| ==> !OccursAt(s, cdelim, j)
    ensures r.1 != [] && r.1[|r.1| - 1] == '\n'
  {
    if cdelim == [] then (s, "\n")
    else match FindSubFrom(s, cdelim, 0)
      case None => (s, "\n")
      case Some(m) =>
        assert s[..m] <= s;
        (s[..m], " " + s[m..] + "\n")
  }

  /** The precision clamp: into [0, 10 + extra], where `extra` is the number of
      decimal digits the floating-point type has beyond double precision. */
  function ClampPrecision(prec: int, extra: nat): (r: int)
    ensures 0 <= r <= 10 + extra
    ensures 0 <= prec <= 10 + extra ==> r == prec
    ensures prec < 0 ==> r == 0
    ensures prec > 10 + extra ==> r == 10 + extra
  {
    var lower := if 0 < prec then prec else 0;
    if 10 + extra < lower then 10 + extra else lower
  }

  datatype Family = Conformal | EqualArea

  /** The projection object: the family and its constructor arguments. */
  datatype Projection = Projection(family: Family, a: real, f: real, lat1: real, lat2: real, k1: real)

  /** The four numbers a conversion reports: the two coordinates, the meridian
      convergence and the scale. */
  datatype Quad = Quad(first: real, second: real, gamma: real, k: real)

  /** The external library: the constructor check (an exception message when
      it throws), forward `(f, lon0, lat, lon) -> (x, y, gamma, k)` and reverse
      `(f, lon0, x, y) -> (lat, lon, gamma, k)`, the latitude/longitude pair
      decoder and the fixed-precision formatter. */
  datatype Conic = Conic(
    rejects: Projection -> Option<string>,
    forward: (Projection, real, real, real) -> Quad,
    reverse: (Projection, real, real, real) -> Quad,
    latLon: (string, string, bool) -> Result<(real, real), string>,
    str: (real, int) -> string)

  /** What the per-line loop reads of the options. */
  datatype Settings = Settings(proj: Projection, reverse: bool, longfirst: bool, lon0: real, prec: int, cdelim: string)

  datatype LineResult = Emit(text: string) | Fail(message: string)

  /** The two input fields in the order of the input line. */
  function DecodeFields(a: string, b: string, st: Settings, dec: Decoders, lib: Conic): Result<(real, real), string> {
    if st.reverse then
      var x :- dec.number(a);
      var y :- dec.number(b);
      Success((x, y))
    else lib.latLon(a, b, st.longfirst)
  }

  /** The output line for converted values `q`. In reverse the coordinates are
      a position printed latitude first unless longitude-first is set, with 5
      more digits than requested; in forward they are metres with the
      requested digits. */
  function Format(q: Quad, st: Settings, lib: Conic, eol: string): string {
    if st.reverse then
      Line(lib.str(if st.longfirst then q.second else q.first, st.prec + 5),
           lib.str(if st.longfirst then q.first else q.second, st.prec + 5),
           lib.str(q.gamma, st.prec + 6), lib.str(q.k, st.prec + 6), eol)
    else
      Line(lib.str(q.first, st.prec), lib.str(q.second, st.prec),
           lib.str(q.gamma, st.prec + 6), lib.str(q.k, st.prec + 6), eol)
  }

  /** Four fields separated by single spaces, then the terminator. */
  function Line(a: string, b: string, c: string, d: string, eol: string): (r: string)
    ensures eol != [] ==> r != [] && r[|r| - 1] == eol[|eol| - 1]
  {
    a + " " + b + " " + c + " " + d + eol
  }

  /** One input line: split off the comment, require two fields, decode them,
      refuse a third field, convert. */
  function ProcessLine(s: string, st: Settings, dec: Decoders, lib: Conic): (r: LineResult)
  {
    var (text, eol) := SplitComment(s, st.cdelim);
    var words := Tokens(text);
    if |words| < 2 then Fail("Incomplete input: " + text)
    else match DecodeFields(words[0], words[1], st, dec, lib)
      case Failure(e) => Fail(e)
      case Success((u, v)) =>
        if |words| > 2 then Fail("Extraneous input: " + words[2])
        else
          var q := if st.reverse then lib.reverse(st.proj, st.lon0, u, v) else lib.forward(st.proj, st.lon0, u, v);
          Emit(Format(q, st, lib, eol))
  }

  /** A line is converted exactly when, after the comment is split off, it has
      exactly two fields and they decode; otherwise the failure names the
      first problem, in the source's order: too few fields, a field that does
      not decode, a third field. */
  lemma LineOutcomes(s: string, st: Settings, dec: Decoders, lib: Conic)
    ensures var text := SplitComment(s, st.cdelim).0;
            var words := Tokens(text);
            var r := ProcessLine(s, st, dec, lib);
            && (|words| < 2 ==> r == Fail("Incomplete input: " + text))
            && (|words| >= 2 && DecodeFields(words[0], words[1], st, dec, lib).Failure? ==>
                  r == Fail(DecodeFields(words[0], words[1], st, dec, lib).error))
            && (|words| > 2 && DecodeFields(words[0], words[1], st, dec, lib).Success? ==>
                  r == Fail("Extraneous input: " + words[2]))
            && (r.Emit? <==> |words| == 2 && DecodeFields(words[0], words[1], st, dec, lib).Success?)
  {
  }

  /** Whatever happens to a line, its output chunk ends in '\n':
      a converted line ends with the terminator that carries the echoed
      comment, a failed one is the error message on its own line. */
  lemma ChunkEndsLine(s: string, st: Settings, dec: Decoders, lib: Conic)
    ensures var c := Render(ProcessLine(s, st, dec, lib)); c != [] && c[|c| - 1] == '\n'
    ensures var r, eol := ProcessLine(s, st, dec, lib), SplitComment(s, st.cdelim).1;
            var c := Render(r);
            r.Emit? ==> |eol| <= |c| && c[|c| - |eol|..] == eol
    ensures var r := ProcessLine(s, st, dec, lib);
            r.Fail? ==> Render(r) == "ERROR: " + r.message + "\n"
  {
    var r := ProcessLine(s, st, dec, lib);
    if r.Emit? {
      var (text, eol) := SplitComment(s, st.cdelim);
      var words := Tokens(text);
      var (u, v) := DecodeFields(words[0], words[1], st, dec, lib).value;
      var q := if st.reverse then lib.reverse(st.proj, st.lon0, u, v) else lib.forward(st.proj, st.lon0, u, v);
      assert r.text == Format(q, st, lib, eol);
      LineEndsWith(r.text, eol, q, st, lib);
    } else {
      var c := "ERROR: " + r.message + "\n";
      assert c[|c| - 1] == '\n';
    }
  }

  lemma LineEndsWith(text: string, eol: string, q: Quad, st: Settings, lib: Conic)
    requires text == Format(q, st, lib, eol)
    ensures |eol| <= |text| && text[|text| - |eol|..] == eol
  {
    var a, b, c, d := if st.reverse then lib.str(if st.longfirst then q.second else q.first, st.prec + 5) else lib.str(q.first, st.prec),
                      if st.reverse then lib.str(if st.longfirst then q.first else q.second, st.prec + 5) else lib.str(q.second, st.prec),
                      lib.str(q.gamma, st.prec + 6), lib.str(q.k, st.prec + 6);
    var head := a + " " + b + " " + c + " " + d;
    assert text == head + eol;
  }

  /** In forward mode a converted line is the easting and northing of the
      forward projection of the decoded position with the requested digits,
      then the convergence and the scale with 6 more, then the terminator. */
  lemma ForwardFields(s: string, st: Settings, dec: Decoders, lib: Conic)
    requires !st.reverse
    ensures var r := ProcessLine(s, st, dec, lib);
            var (text, eol) := SplitComment(s, st.cdelim);
            var words := Tokens(text);
            r.Emit? ==>
              && |words| == 2 && lib.latLon(words[0], words[1], st.longfirst).Success?
              && var (lat, lon) := lib.latLon(words[0], words[1], st.longfirst).value;
                 var q := lib.forward(st.proj, st.lon0, lat, lon);
                 r.text == Line(lib.str(q.first, st.prec), lib.str(q.second, st.prec),
                                lib.str(q.gamma, st.prec + 6), lib.str(q.k, st.prec + 6), eol)
  {
  }

  /** In reverse mode the output starts with the latitude and then the
      longitude of the reverse projection of the two input numbers, with 5
      more digits than requested; longitude-first swaps exactly those two
      fields. The fields are decoded as plain numbers either way. */
  lemma LongFirstSwapsReverseFields(s: string, st: Settings, dec: Decoders, lib: Conic)
    requires st.reverse
    ensures var plain, swapped := ProcessLine(s, st.(longfirst := false), dec, lib), ProcessLine(s, st.(longfirst := true), dec, lib);
            && (plain.Emit? <==> swapped.Emit?)
            && (plain.Fail? ==> plain == swapped)
            && (plain.Emit? ==>
                  var (text, eol) := SplitComment(s, st.cdelim);
                  var words := Tokens(text);
                  && |words| == 2 && dec.number(words[0]).Success? && dec.number(words[1]).Success?
                  && var q := lib.reverse(st.proj, st.lon0, dec.number(words[0]).value, dec.number(words[1]).value);
                     var lat, lon := lib.str(q.first, st.prec + 5), lib.str(q.second, st.prec + 5);
                     var gamma, k := lib.str(q.gamma, st.prec + 6), lib.str(q.k, st.prec + 6);
                     && plain.text == Line(lat, lon, gamma, k, eol)
                     && swapped.text == Line(lon, lat, gamma, k, eol))
  {
    var (text, eol) := SplitComment(s, st.cdelim);
    var words := Tokens(text);
    var st0, st1 := st.(longfirst := false), st.(longfirst := true);
    assert SplitComment(s, st0.cdelim) == SplitComment(s, st1.cdelim) == (text, eol);
    if |words| >= 2 {
      assert DecodeFields(words[0], words[1], st0, dec, lib) == DecodeFields(words[0], words[1], st1, dec, lib);
      match DecodeFields(words[0], words[1], st0, dec, lib)
      case Failure(_) =>
      case Success((u, v)) =>
        if |words| == 2 {
          var q := lib.reverse(st.proj, st.lon0, u, v);
          var lat, lon := lib.str(q.first, st.prec + 5), lib.str(q.second, st.prec + 5);
          var gamma, k := lib.str(q.gamma, st.prec + 6), lib.str(q.k, st.prec + 6);
          assert ProcessLine(s, st0, dec, lib) == Emit(Line(lat, lon, gamma, k, eol));
          assert ProcessLine(s, st1, dec, lib) == Emit(Line(lon, lat, gamma, k, eol));
        }
    }
  }

  /** What a line contributes to the output stream. */
  function Render(r: LineResult): (out: string)
    ensures r.Fail? ==> out == "ERROR: " + r.message + "\n"
    ensures r.Emit? ==> out == r.text
  {
    match r
    case Emit(text) => text
    case Fail(message) => "ERROR: " + message + "\n"
  }

  /** Whether one of the first `n` lines fails. */
  function AnyFailed(lines: seq<string>, n: nat, st: Settings, dec: Decoders, lib: Conic): bool
    requires n <= |lines|
  {
    n > 0 && (ProcessLine(lines[n - 1], st, dec, lib).Fail? || AnyFailed(lines, n - 1, st, dec, lib))
  }

  lemma {:induction false} AnyFailedMeansSomeLine(lines: seq<string>, n: nat, st: Settings, dec: Decoders, lib: Conic)
    requires n <= |lines|
    ensures AnyFailed(lines, n, st, dec, lib) <==> exists k :: 0 <= k < n && ProcessLine(lines[k], st, dec, lib).Fail?
  {
    if n > 0 {
      AnyFailedMeansSomeLine(lines, n - 1, st, dec, lib);
      var last := ProcessLine(lines[n - 1], st, dec, lib);
      if last.Fail? {
        assert 0 <= n - 1 < n && ProcessLine(lines[n - 1], st, dec, lib).Fail?;
      } else {
        assert AnyFailed(lines, n, st, dec, lib) == AnyFailed(lines, n - 1, st, dec, lib);
        forall k | 0 <= k < n && ProcessLine(lines[k], st, dec, lib).Fail?
          ensures k < n - 1
        {
        }
      }
    }
  }

  /** The output chunks of `lines`, one per line. */
  function Chunks(lines: seq<string>, st: Settings, dec: Decoders, lib: Conic): seq<string> {
    seq(|lines|, k requires 0 <= k < |lines| => Render(ProcessLine(lines[k], st, dec, lib)))
  }

  /** `out` holds the output chunks of the first `|out|` lines. */
  predicate Rendered(out: seq<string>, lines: seq<string>, st: Settings, dec: Decoders, lib: Conic) {
    |out| <= |lines| && forall k :: 0 <= k < |out| ==> out[k] == Render(ProcessLine(lines[k], st, dec, lib))
  }

  lemma RenderedStep(out: seq<string>, lines: seq<string>, st: Settings, dec: Decoders, lib: Conic)
    requires Rendered(out, lines, st, dec, lib) && |out| < |lines|
    ensures Rendered(out + [Render(ProcessLine(lines[|out|], st, dec, lib))], lines, st, dec, lib)
  {
    var next := out + [Render(ProcessLine(lines[|out|], st, dec, lib))];
    assert forall k :: 0 <= k < |out| ==> next[k] == out[k];
  }

  /** The per-line loop: one output chunk per input line, in order; a failing
      line is reported in the output and the loop goes on; the status is 1
      exactly when some line failed. */
  method ProcessLines(lines: seq<string>, st: Settings, dec: Decoders, lib: Conic) returns (out: seq<string>, retval: int)
    ensures |out| == |lines|
    ensures forall k :: 0 <= k < |lines| ==> out[k] == Render(ProcessLine(lines[k], st, dec, lib))
    ensures out == Chunks(lines, st, dec, lib)
    ensures retval == 0 || retval == 1
    ensures retval == 1 <==> AnyFailed(lines, |lines|, st, dec, lib)
  {
    out, retval := [], 0;
    var i := 0;
    while i < |lines|
      invariant i <= |lines| && |out| == i
      invariant Rendered(out, lines, st, dec, lib)
      invariant retval == 0 || retval == 1
      invariant retval == 1 <==> AnyFailed(lines, i, st, dec, lib)
    {
      var r := ProcessLine(lines[i], st, dec, lib);
      if r.Fail? {
        retval := 1;
      }
      var chunk := Render(r);
      RenderedStep(out, lines, st, dec, lib);
      out := out + [chunk];
      i := i + 1;
    }
    assert out == Chunks(lines, st, dec, lib);
  }

  /** Files the converter can read, names it can write, and standard input. */
  datatype Environment = Environment(stdin: string, files: map<string, string>, writable: set<string>)

  datatype Sink = StandardOutput | OutputFile(name: string)

  datatype Outcome = Stopped(stop: Stop) | Converted(sink: Sink, out: seq<string>, status: int)

  /** The input selection: an input file and an input string exclude each
      other; "-" as the file means standard input; an input string has its
      line separators turned into newlines. */
  function InputText(o: Options, env: Environment): (r: Result<string, string>)
    ensures o.ifile != "" && o.istring != "" ==> r == Failure("Cannot specify --input-string and --input-file together")
    ensures (o.ifile == "" || o.ifile == "-") && o.istring == "" ==> r == Success(env.stdin)
    ensures o.ifile == "" && o.istring != "" ==> r == Success(ReplaceAll(o.istring, o.lsep, '\n'))
    ensures o.ifile != "" && o.ifile != "-" && o.istring == "" ==>
              r == if o.ifile in env.files then Success(env.files[o.ifile]) else Failure("Cannot open " + o.ifile + " for reading")
  {
    if o.ifile != "" && o.istring != "" then Failure("Cannot specify --input-string and --input-file together")
    else
      var ifile := if o.ifile == "-" then "" else o.ifile;
      if ifile != "" then
        if ifile in env.files then Success(env.files[ifile]) else Failure("Cannot open " + ifile + " for reading")
      else if o.istring != "" then Success(ReplaceAll(o.istring, o.lsep, '\n'))
      else Success(env.stdin)
  }

  /** The output selection: "-" or nothing means standard output. */
  function OutputSink(o: Options, env: Environment): (r: Result<Sink, string>)
    ensures o.ofile == "" || o.ofile == "-" ==> r == Success(StandardOutput)
    ensures r.Success? && r.value.OutputFile? ==> r.value.name == o.ofile && o.ofile in env.writable
    ensures r.Failure? <==> o.ofile != "" && o.ofile != "-" && o.ofile !in env.writable
  {
    var ofile := if o.ofile == "-" then "" else o.ofile;
    if ofile == "" then Success(StandardOutput)
    else if ofile in env.writable then Success(OutputFile(ofile))
    else Failure("Cannot open " + ofile + " for writing")
  }

  const FamilyRequired := "Must specify \"-c lat1 lat2\" or \"-a lat1 lat2\""

  function ProjectionOf(o: Options): Projection {
    Projection(if o.lcc then Conformal else EqualArea, o.a, o.f, o.lat1, o.lat2, o.k1)
  }

  function SettingsOf(o: Options, extra: nat): Settings {
    Settings(ProjectionOf(o), o.reverse, o.longfirst, o.lon0, ClampPrecision(o.prec, extra), o.cdelim)
  }

  /** The whole converter on command line `args` (without the program name). */
  function Convert(args: seq<string>, env: Environment, dec: Decoders, lib: Conic, extra: nat): (r: Outcome)
    ensures Parse(args, dec).Halted? ==> r == Stopped(Parse(args, dec).stop)
    ensures r.Converted? ==>
              Parse(args, dec).Done? && InputText(Parse(args, dec).options, env).Success?
              && OutputSink(Parse(args, dec).options, env).Success?
    ensures r.Converted? ==>
              var o := Parse(args, dec).options;
              var lines := GetLines(InputText(o, env).value);
              && (o.lcc || o.albers) && !(o.lcc && o.albers)
              && r.sink == OutputSink(o, env).value
              && |r.out| == |lines|
              && (forall k :: 0 <= k < |lines| ==> r.out[k] == Render(ProcessLine(lines[k], SettingsOf(o, extra), dec, lib)))
              && (r.status == 1 <==> exists k :: 0 <= k < |lines| && ProcessLine(lines[k], SettingsOf(o, extra), dec, lib).Fail?)
              && (r.status == 0 || r.status == 1)
    ensures (Parse(args, dec).Done? && InputText(Parse(args, dec).options, env).Success?
             && OutputSink(Parse(args, dec).options, env).Success?
             && !Parse(args, dec).options.lcc && !Parse(args, dec).options.albers) ==> r == Stopped(Refused(FamilyRequired))
    ensures Parse(args, dec).Done? ==>
              var o := Parse(args, dec).options;
              && (InputText(o, env).Failure? ==> r == Stopped(Refused(InputText(o, env).error)))
              && (InputText(o, env).Success? && OutputSink(o, env).Failure? ==> r == Stopped(Refused(OutputSink(o, env).error)))
              && (InputText(o, env).Success? && OutputSink(o, env).Success? && (o.lcc || o.albers) ==>
                    && (r.Converted? <==> lib.rejects(ProjectionOf(o)).None?)
                    && (lib.rejects(ProjectionOf(o)).Some? ==>
                          r == Stopped(Refused("Caught exception: " + lib.rejects(ProjectionOf(o)).value))))
  {
    match Parse(args, dec)
    case Halted(s) => Stopped(s)
    case Done(o) =>
      NoTwoFamilies(args, dec);
      match InputText(o, env)
      case Failure(m) => Stopped(Refused(m))
      case Success(text) =>
        match OutputSink(o, env)
        case Failure(m) => Stopped(Refused(m))
        case Success(sink) =>
          if !(o.lcc || o.albers) then Stopped(Refused(FamilyRequired))
          else match lib.rejects(ProjectionOf(o))
            case Some(e) => Stopped(Refused("Caught exception: " + e))
            case None =>
              var st := SettingsOf(o, extra);
              var lines := GetLines(text);
              AnyFailedMeansSomeLine(lines, |lines|, st, dec, lib);
              Converted(sink, Chunks(lines, st, dec, lib), if AnyFailed(lines, |lines|, st, dec, lib) then 1 else 0)
  }

  /** The converter's main. */
  method ConicProj(args: seq<string>, env: Environment, dec: Decoders, lib: Conic, extra: nat) returns (r: Outcome)
    ensures r == Convert(args, env, dec, lib, extra)
  {
    var parsed := ParseArguments(args, dec);
    if parsed.Halted? {
      return Stopped(parsed.stop);
    }
    var o := parsed.options;
    NoTwoFamilies(args, dec);
    if o.ifile != "" && o.istring != "" {
      return Stopped(Refused("Cannot specify --input-string and --input-file together"));
    }
    var ifile := o.ifile;
    if ifile == "-" {
      ifile := "";
    }
    var text: string;
    if ifile != "" {
      if ifile !in env.files {
        return Stopped(Refused("Cannot open " + ifile + " for reading"));
      }
      text := env.files[ifile];
    } else if o.istring != "" {
      var buf := new char[|o.istring|](k requires 0 <= k < |o.istring| => o.istring[k]);
      assert buf[..] == o.istring;
      SubstituteSeparator(buf, o.lsep);
      text := buf[..];
    } else {
      text := env.stdin;
    }
    var ofile := o.ofile;
    if ofile == "-" {
      ofile := "";
    }
    var sink := StandardOutput;
    if ofile != "" {
      if ofile !in env.writable {
        return Stopped(Refused("Cannot open " + ofile + " for writing"));
      }
      sink := OutputFile(ofile);
    }
    if !(o.lcc || o.albers) {
      return Stopped(Refused(FamilyRequired));
    }
    var rejected := lib.rejects(ProjectionOf(o));
    if rejected.Some? {
      return Stopped(Refused("Caught exception: " + rejected.value));
    }
    var lines := GetLines(text);
    var out, retval := ProcessLines(lines, SettingsOf(o, extra), dec, lib);
    r := Converted(sink, out, retval);
  }
}
