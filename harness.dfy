/** The projection test harness: resolve a configuration from the headers of
    a geographic and a projected reference file, then replay their paired
    records through the projection in both directions and keep the running
    maxima of the round-trip errors. */
module Harness {
  import opened Wrappers
  import opened Text
  import opened DataFiles
  import opened Resolver

  datatype Geographic = Geographic(lat: real, lon: real)
  datatype Grid = Grid(x: real, y: real)
  /** What a forward projection reports that the harness uses: position and scale. */
  datatype Planar = Planar(x: real, y: real, k: real)

  /** The projection object the record loop calls and the argument that
      selects its variant: a central meridian, or the pole flag `lat1 > 0`. */
  datatype Instance = ConicAt(lon0: real) | PolarAt(north: bool) | TransverseAt(lon0: real)

  /** The arguments all projection objects are built from. */
  datatype Construction = Construction(e: Ellipsoid, lat1: real, lat2: real, k1: Scale)

  /** The external projection library, as functions. `accepts` says whether its
      constructors take the arguments; `metric(e, lat0, dlat, dlon)` is the
      tangent-plane distance of `dist` once the longitude difference is
      wrapped; `hypot` is the Euclidean norm. */
  datatype Library = Library(
    accepts: Construction -> bool,
    forward: (Construction, Instance, Geographic) -> Planar,
    reverse: (Construction, Instance, Grid) -> Geographic,
    probe: (Ellipsoid, real, real) -> Scale,
    metric: (Ellipsoid, real, real, real) -> real,
    hypot: (real, real) -> real)

  /** The configuration once every field it uses is known, with the false
      origin offset `(x0, y0)`. */
  datatype Setup = Setup(c: Construction, kind: Kind, fe: real, fn: real, lon0: real, lat0: real, x0: real, y0: real)

  /** `std::max(a, b)`, which returns `a` unless `a < b`. */
  function StdMax(a: real, b: real): (r: real)
    ensures r >= a && r >= b
    ensures r == a || r == b
  {
    if a < b then b else a
  }

  function Abs(x: real): real {
    if x < 0.0 then -x else x
  }

  function Min(a: nat, b: nat): nat {
    if a < b then a else b
  }

  /** The two-branch longitude wrap of `dist`. It moves a difference by at most
      one turn, and maps it into [-180, 180) exactly when it lies in [-540, 540). */
  function WrapLon(dlon: real): (r: real)
    ensures r == dlon || r == dlon - 360.0 || r == dlon + 360.0
    ensures -180.0 <= dlon < 180.0 ==> r == dlon
    ensures -180.0 <= r < 180.0 <==> -540.0 <= dlon < 540.0
  {
    if dlon >= 180.0 then dlon - 360.0
    else if dlon < -180.0 then dlon + 360.0
    else dlon
  }

  /** The distance `dist` computes, with the radii of curvature left to `metric`. */
  function Dist(e: Ellipsoid, metric: (Ellipsoid, real, real, real) -> real,
                lat0: real, lon0: real, lat1: real, lon1: real): real
  {
    metric(e, lat0, lat1 - lat0, WrapLon(lon1 - lon0))
  }

  /** Moving the second longitude by a full turn does not change the distance,
      for the differences a pair of longitudes in [-180, 180] can have. */
  lemma DistIgnoresFullTurn(e: Ellipsoid, metric: (Ellipsoid, real, real, real) -> real,
                            lat0: real, lon0: real, lat1: real, lon1: real)
    requires -540.0 <= lon1 - lon0 < 180.0
    ensures Dist(e, metric, lat0, lon0, lat1, lon1 + 360.0) == Dist(e, metric, lat0, lon0, lat1, lon1)
  {
    assert WrapLon(lon1 + 360.0 - lon0) == WrapLon(lon1 - lon0);
  }

  /** The object the record loop calls for each family. */
  function Selected(s: Setup): Instance {
    match s.kind
    case LCC => ConicAt(s.lon0)
    case PS => PolarAt(s.c.lat1 > 0.0)
    case TM => TransverseAt(s.lon0)
  }

  /** Every field the record loop needs is set (none is NaN). */
  predicate Complete(p: Params) {
    p.fe.Some? && p.fn.Some? && p.lon0.Some? && p.lat0.Some? && p.lat1.Some? && p.lat2.Some? && p.k1.Some?
  }

  /** Everything after resolution that can stop the run: a field the record
      loop needs that is still unset, constructor arguments the library
      refuses, then the false origin: the forward image of `(lat0, lon0)` for
      the conic and transverse families, `(0, 0)` for the polar one. */
  function Prepare(e: Ellipsoid, p: Params, lib: Library): (r: Result<Setup, Fatal>)
    ensures r.Success? ==>
              (Some(r.value.fe) == p.fe && Some(r.value.fn) == p.fn
               && Some(r.value.lon0) == p.lon0 && Some(r.value.lat0) == p.lat0
               && Some(r.value.c.lat1) == p.lat1 && Some(r.value.c.lat2) == p.lat2
               && Some(r.value.c.k1 as real) == p.k1 && r.value.kind == p.kind && r.value.c.e == e)
    ensures r.Success? ==> lib.accepts(r.value.c)
    ensures r.Success? && p.kind == PS ==> r.value.x0 == 0.0 && r.value.y0 == 0.0
    ensures r.Success? && p.kind != PS ==>
              var o := lib.forward(r.value.c, Selected(r.value), Geographic(r.value.lat0, r.value.lon0));
              r.value.x0 == o.x && r.value.y0 == o.y
    ensures !Complete(p) ==> r.Failure? && r.error.MissingField?
    ensures Complete(p) && !(p.k1.value > 0.0) ==> r == Failure(ConstructionRejected)
    ensures Complete(p) && p.k1.value > 0.0 ==>
              (r.Success? <==> lib.accepts(Construction(e, p.lat1.value, p.lat2.value, p.k1.value)))
    ensures Complete(p) && r.Failure? ==> r.error == ConstructionRejected
  {
    if p.fe.None? then Failure(MissingField("fe"))
    else if p.fn.None? then Failure(MissingField("fn"))
    else if p.lon0.None? then Failure(MissingField("lon0"))
    else if p.lat0.None? then Failure(MissingField("lat0"))
    else if p.lat1.None? then Failure(MissingField("lat1"))
    else if p.lat2.None? then Failure(MissingField("lat2"))
    else if p.k1.None? then Failure(MissingField("k1"))
    else if !(p.k1.value > 0.0) then Failure(ConstructionRejected)
    else
      var c := Construction(e, p.lat1.value, p.lat2.value, p.k1.value);
      if !lib.accepts(c) then Failure(ConstructionRejected)
      else
        var s := Setup(c, p.kind, p.fe.value, p.fn.value, p.lon0.value, p.lat0.value, 0.0, 0.0);
        if p.kind == PS then Success(s)
        else
          var o := lib.forward(c, Selected(s), Geographic(s.lat0, s.lon0));
          Success(s.(x0 := o.x, y0 := o.y))
  }

  /** The whole configuration step, in the source's order. */
  function Configure(geo: Header, proj: Header, lib: Library): (r: Result<Setup, Fatal>)
    ensures CheckDatum(geo, proj).Failure? ==> r == Failure(CheckDatum(geo, proj).error)
    ensures CheckDatum(geo, proj).Success? && proj.proj !in Projections ==> r == Failure(UnsupportedProjection(proj.proj))
    ensures proj.proj !in Projections ==> r.Failure?
    ensures CheckDatum(geo, proj).Success? && proj.proj in Projections ==>
              && ResolveProjection(proj, CheckDatum(geo, proj).value, lib.probe).Success?
              && r == Prepare(CheckDatum(geo, proj).value, ResolveProjection(proj, CheckDatum(geo, proj).value, lib.probe).value, lib)
    ensures r.Success? ==> CheckDatum(geo, proj).Success? && proj.proj in Projections
  {
    var e :- CheckDatum(geo, proj);
    var p :- ResolveProjection(proj, e, lib.probe);
    Prepare(e, p, lib)
  }

  /** The per-record errors: `errr` of the reverse projection, the rest of the
      forward one. */
  datatype Errors = Errors(errr: real, errx: real, erry: real, err: real, errk: real)

  /** One record pair: reverse-project the reference grid point (after removing
      the false easting and northing and adding the false origin) and measure
      it against the reference geographic point; forward-project the
      geographic point and measure it against the grid point, normalised by
      the larger of 1 and the local scale. */
  function RecordErrors(s: Setup, lib: Library, g: Geographic, p: Grid): (r: Errors)
    ensures r.errx >= 0.0 && r.erry >= 0.0
    ensures r.err >= 0.0 ==> 0.0 <= r.errk <= r.err
  {
    var back := lib.reverse(s.c, Selected(s), Grid(p.x - s.fe + s.x0, p.y - s.fn + s.y0));
    var errr := Dist(s.c.e, lib.metric, g.lat, g.lon, back.lat, back.lon);
    var fwd := lib.forward(s.c, Selected(s), g);
    var x := fwd.x - s.x0 + s.fe;
    var y := fwd.y - s.y0 + s.fn;
    var errx := Abs(x - p.x);
    var erry := Abs(y - p.y);
    var err := lib.hypot(errx, erry);
    Errors(errr, errx, erry, err, err / StdMax(1.0, fwd.k))
  }

  /** The reporting threshold of both directions. */
  const Tolerance: real := 0.000001

  datatype Direction = Rev | For

  /** A report line: the reference point, the grid point reduced to unit
      scale, and the error. */
  datatype Report = Report(dir: Direction, lat: real, lon: real, x: real, y: real, err: real)

  /** The reports one record produces: a reverse report exactly when its
      reverse error is not below the tolerance, then a forward report exactly
      when its normalised forward error is not below it. */
  function RecordReports(s: Setup, lib: Library, g: Geographic, p: Grid): (r: seq<Report>)
    ensures |r| <= 2
    ensures (exists i :: 0 <= i < |r| && r[i].dir == Rev) <==> !(RecordErrors(s, lib, g, p).errr < Tolerance)
    ensures (exists i :: 0 <= i < |r| && r[i].dir == For) <==> !(RecordErrors(s, lib, g, p).errk < Tolerance)
    ensures forall i, j :: 0 <= i < j < |r| ==> r[i].dir == Rev && r[j].dir == For
    ensures forall i :: 0 <= i < |r| ==> r[i].lat == g.lat && r[i].lon == g.lon
    ensures forall i :: 0 <= i < |r| && r[i].dir == Rev ==> r[i].err == RecordErrors(s, lib, g, p).errr
    ensures forall i :: 0 <= i < |r| && r[i].dir == For ==> r[i].err == RecordErrors(s, lib, g, p).errk
  {
    var e := RecordErrors(s, lib, g, p);
    var xx := (p.x - s.fe + s.x0) / s.c.k1;
    var yy := (p.y - s.fn + s.y0) / s.c.k1;
    var rev := if !(e.errr < Tolerance) then [Report(Rev, g.lat, g.lon, xx, yy, e.errr)] else [];
    var fwd := if !(e.errk < Tolerance) then [Report(For, g.lat, g.lon, xx, yy, e.errk)] else [];
    assert forall i :: 0 <= i < |rev + fwd| ==> (rev + fwd)[i] == if i < |rev| then rev[i] else fwd[i - |rev|];
    assert rev != [] ==> (rev + fwd)[0].dir == Rev;
    assert fwd != [] ==> (rev + fwd)[|rev|].dir == For;
    rev + fwd
  }

  /** The accumulator: the record count, the five running maxima and the
      reports, in order. */
  datatype Summary = Summary(count: nat, maxerrx: real, maxerry: real, maxerr: real, maxerrk: real,
                             maxerrr: real, reports: seq<Report>)

  /** The accumulator after the first `n` record pairs. */
  function SummaryUpTo(s: Setup, lib: Library, geo: seq<Geographic>, grid: seq<Grid>, n: nat): Summary
    requires n <= |geo| && n <= |grid|
  {
    if n == 0 then Summary(0, 0.0, 0.0, 0.0, 0.0, 0.0, [])
    else
      var prev := SummaryUpTo(s, lib, geo, grid, n - 1);
      var e := RecordErrors(s, lib, geo[n - 1], grid[n - 1]);
      Summary(prev.count + 1,
              StdMax(e.errx, prev.maxerrx), StdMax(e.erry, prev.maxerry), StdMax(e.err, prev.maxerr),
              StdMax(e.errk, prev.maxerrk), StdMax(e.errr, prev.maxerrr),
              prev.reports + RecordReports(s, lib, geo[n - 1], grid[n - 1]))
  }

  /** Each maximum is at least 0 and at least every error seen so far, and is
      either 0 or one of those errors; the count is the number of pairs. */
  lemma {:induction false} SummaryMaxima(s: Setup, lib: Library, geo: seq<Geographic>, grid: seq<Grid>, n: nat)
    requires n <= |geo| && n <= |grid|
    ensures var sum := SummaryUpTo(s, lib, geo, grid, n);
            && sum.count == n
            && sum.maxerrx >= 0.0 && sum.maxerry >= 0.0 && sum.maxerr >= 0.0
            && sum.maxerrk >= 0.0 && sum.maxerrr >= 0.0
            && forall i :: 0 <= i < n ==>
                 var e := RecordErrors(s, lib, geo[i], grid[i]);
                 && e.errx <= sum.maxerrx && e.erry <= sum.maxerry && e.err <= sum.maxerr
                 && e.errk <= sum.maxerrk && e.errr <= sum.maxerrr
    ensures var sum := SummaryUpTo(s, lib, geo, grid, n);
            sum.maxerrr == 0.0 || exists i :: 0 <= i < n && sum.maxerrr == RecordErrors(s, lib, geo[i], grid[i]).errr
    ensures var sum := SummaryUpTo(s, lib, geo, grid, n);
            sum.maxerrk == 0.0 || exists i :: 0 <= i < n && sum.maxerrk == RecordErrors(s, lib, geo[i], grid[i]).errk
    ensures var sum := SummaryUpTo(s, lib, geo, grid, n);
            sum.maxerrx == 0.0 || exists i :: 0 <= i < n && sum.maxerrx == RecordErrors(s, lib, geo[i], grid[i]).errx
    ensures var sum := SummaryUpTo(s, lib, geo, grid, n);
            sum.maxerry == 0.0 || exists i :: 0 <= i < n && sum.maxerry == RecordErrors(s, lib, geo[i], grid[i]).erry
    ensures var sum := SummaryUpTo(s, lib, geo, grid, n);
            sum.maxerr == 0.0 || exists i :: 0 <= i < n && sum.maxerr == RecordErrors(s, lib, geo[i], grid[i]).err
  {
    if n > 0 {
      SummaryMaxima(s, lib, geo, grid, n - 1);
    }
  }

  /** The maxima never decrease and the reports only grow as records are read. */
  lemma {:induction false} SummaryMonotone(s: Setup, lib: Library, geo: seq<Geographic>, grid: seq<Grid>, m: nat, n: nat)
    requires m <= n <= |geo| && n <= |grid|
    ensures var a, b := SummaryUpTo(s, lib, geo, grid, m), SummaryUpTo(s, lib, geo, grid, n);
            && a.maxerrx <= b.maxerrx && a.maxerry <= b.maxerry && a.maxerr <= b.maxerr
            && a.maxerrk <= b.maxerrk && a.maxerrr <= b.maxerrr
            && a.reports <= b.reports
    decreases n - m
  {
    if m < n {
      SummaryMonotone(s, lib, geo, grid, m, n - 1);
    }
  }

  /** The record loop. A pair is processed only when both streams yield a
      record, so the loop stops at the end of the shorter one. */
  method Accumulate(s: Setup, lib: Library, geo: seq<Geographic>, grid: seq<Grid>) returns (sum: Summary)
    ensures sum.count == Min(|geo|, |grid|)
    ensures sum == SummaryUpTo(s, lib, geo, grid, Min(|geo|, |grid|))
  {
    var count: nat := 0;
    var maxerrx, maxerry, maxerr, maxerrk, maxerrr := 0.0, 0.0, 0.0, 0.0, 0.0;
    var reports: seq<Report> := [];
    while count < |geo| && count < |grid|
      invariant count <= |geo| && count <= |grid|
      invariant Summary(count, maxerrx, maxerry, maxerr, maxerrk, maxerrr, reports)
                == SummaryUpTo(s, lib, geo, grid, count)
    {
      var g, p := geo[count], grid[count];
      count := count + 1;
      var e := RecordErrors(s, lib, g, p);
      maxerrr := StdMax(e.errr, maxerrr);
      reports := reports + RecordReports(s, lib, g, p);
      maxerrx := StdMax(e.errx, maxerrx);
      maxerry := StdMax(e.erry, maxerry);
      maxerr := StdMax(e.err, maxerr);
      maxerrk := StdMax(e.errk, maxerrk);
    }
    sum := Summary(count, maxerrx, maxerry, maxerr, maxerrk, maxerrr, reports);
    SummaryMaxima(s, lib, geo, grid, count);
  }

  /** The file contents the harness can open; "" and "-" name standard input. */
  datatype Files = Files(stdin: string, files: map<string, string>)

  /** The stream extractions the harness performs: a real from a header value,
      and the records `Next` yields from the lines after a header. */
  datatype Reader = Reader(readReal: string -> real, geo: seq<string> -> seq<Geographic>, grid: seq<string> -> seq<Grid>)

  datatype Outcome = Usage | Fatal(error: Fatal) | Completed(setup: Setup, summary: Summary)

  /** Opening a header file by name: "" and "-" read standard input, any
      other name the contents of that file, split into lines. */
  function OpenLines(name: string, env: Files): (r: Result<seq<string>, Fatal>)
    ensures r.Failure? <==> name != "" && name != "-" && name !in env.files
    ensures r.Failure? ==> r.error == CannotOpen(name)
    ensures name == "" || name == "-" ==> r == Success(GetLines(env.stdin))
    ensures name != "" && name != "-" && name in env.files ==> r == Success(GetLines(env.files[name]))
  {
    if name == "" || name == "-" then Success(GetLines(env.stdin))
    else if name in env.files then Success(GetLines(env.files[name]))
    else Failure(CannotOpen(name))
  }

  /** What a run of the harness on arguments `args` (argv without the
      program name) comes to. */
  function Run(args: seq<string>, env: Files, reader: Reader, lib: Library): Outcome {
    if |args| != 2 then Usage
    else match OpenLines(args[0], env)
      case Failure(f) => Fatal(f)
      case Success(geoLines) =>
        match OpenLines(args[1], env)
        case Failure(f) => Fatal(f)
        case Success(projLines) =>
          match Configure(ParseHeader(geoLines, reader.readReal), ParseHeader(projLines, reader.readReal), lib)
          case Failure(f) => Fatal(f)
          case Success(s) =>
            var geo, grid := reader.geo(Rest(geoLines)), reader.grid(Rest(projLines));
            Completed(s, SummaryUpTo(s, lib, geo, grid, Min(|geo|, |grid|)))
  }

  /** The exit status: 1 for the usage message and for every fatal error
      (reported on standard output after "ERROR: "), 0 once the records are
      summarised. */
  function ExitStatus(o: Outcome): (r: int)
    ensures r == 0 <==> o.Completed?
    ensures r == 0 || r == 1
  {
    if o.Completed? then 0 else 1
  }

  /** A configuration failure, a datum mismatch among them, ends the run
      before any record is read; a completed run has counted the records both
      streams yielded. */
  lemma RunOutcomes(args: seq<string>, env: Files, reader: Reader, lib: Library)
    requires |args| == 2
    requires OpenLines(args[0], env).Success? && OpenLines(args[1], env).Success?
    ensures var geoLines, projLines := OpenLines(args[0], env).value, OpenLines(args[1], env).value;
            var geo, proj := ParseHeader(geoLines, reader.readReal), ParseHeader(projLines, reader.readReal);
            && (CheckDatum(geo, proj).Failure? ==> Run(args, env, reader, lib) == Fatal(CheckDatum(geo, proj).error))
            && (Configure(geo, proj, lib).Failure? ==> Run(args, env, reader, lib) == Fatal(Configure(geo, proj, lib).error))
            && (Configure(geo, proj, lib).Success? ==>
                  && Run(args, env, reader, lib).Completed?
                  && Run(args, env, reader, lib).setup == Configure(geo, proj, lib).value)
            && (Run(args, env, reader, lib).Completed? ==>
                  Run(args, env, reader, lib).summary.count
                    == Min(|reader.geo(Rest(geoLines))|, |reader.grid(Rest(projLines))|))
  {
    var geoLines, projLines := OpenLines(args[0], env).value, OpenLines(args[1], env).value;
    var geo, grid := reader.geo(Rest(geoLines)), reader.grid(Rest(projLines));
    match Configure(ParseHeader(geoLines, reader.readReal), ParseHeader(projLines, reader.readReal), lib)
    case Failure(_) =>
    case Success(s) => SummaryMaxima(s, lib, geo, grid, Min(|geo|, |grid|));
  }

  /** The harness's main: open and parse both headers, configure, then run
      the record loop. */
  method ProjTest(args: seq<string>, env: Files, reader: Reader, lib: Library) returns (out: Outcome)
    ensures out == Run(args, env, reader, lib)
  {
    if |args| != 2 {
      return Usage;
    }
    var geoLines := OpenLines(args[0], env);
    if geoLines.Failure? {
      return Fatal(geoLines.error);
    }
    var geoFile := new DataFile(geoLines.value, reader.readReal);
    var projLines := OpenLines(args[1], env);
    if projLines.Failure? {
      return Fatal(projLines.error);
    }
    var projFile := new DataFile(projLines.value, reader.readReal);
    var setup := Configure(geoFile.Fields(), projFile.Fields(), lib);
    if setup.Failure? {
      return Fatal(setup.error);
    }
    var summary := Accumulate(setup.value, lib, reader.geo(geoFile.rest), reader.grid(projFile.rest));
    return Completed(setup.value, summary);
  }
}
