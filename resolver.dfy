/** The projection test harness's configuration step: the datum catalog, the
    check that both reference files describe the same geodetic datum, and the
    table that turns a projection name and header fields into the parameter
    tuple `(fe, fn, lon0, lat0, lat1, lat2, k1, type)`. */
module Resolver {
  import opened Wrappers
  import opened DataFiles

  /** An equatorial radius in metres. The test sphere's radius, 20000000/pi,
      is not a rational number, so it is kept as its numerator over pi. */
  datatype EquatorialRadius = Metres(m: real) | MetresOverPi(numerator: real)

  /** An ellipsoid as the source passes it to the projection library: the
      equatorial radius `a` and the inverse flattening `r` (0 for a sphere). */
  datatype Ellipsoid = Ellipsoid(a: EquatorialRadius, r: real)

  /** The conditions that end the harness before any record is read. */
  datatype Fatal =
    | CannotOpen(file: string)
    | UnsupportedCoordinates(coords: string)
    | UnsupportedDatum(datum: string)
    | DatumMismatch(geoDatum: string, projDatum: string)
    | UnsupportedProjection(name: string)
    | MissingField(field: string)
    | ConstructionRejected

  const Datums: set<string> := {"WGE", "Test_sphere", "Test_SRMmax"}

  /** The WGS84 ellipsoid: a = 6378137 m, 1/f = 298.257223563. */
  const WGS84 := Ellipsoid(Metres(6378137.0), 298.257223563)

  /** The datum catalog: three recognised names, nothing else. */
  function Catalog(datum: string): (e: Option<Ellipsoid>)
    ensures e.Some? <==> datum in Datums
    ensures datum == "WGE" ==> e == Some(WGS84)
    ensures datum == "Test_sphere" ==> e == Some(Ellipsoid(MetresOverPi(20000000.0), 0.0))
    ensures datum == "Test_SRMmax" ==> e == Some(Ellipsoid(Metres(6400000.0), 150.0))
  {
    if datum == "WGE" then Some(WGS84)
    else if datum == "Test_sphere" then Some(Ellipsoid(MetresOverPi(20000000.0), 0.0))
    else if datum == "Test_SRMmax" then Some(Ellipsoid(Metres(6400000.0), 150.0))
    else None
  }

  /** The checks on the two headers, in the source's order: the geographic
      file must be in geodetic coordinates, its datum must be in the catalog,
      and the projected file must name the same datum. */
  function CheckDatum(geo: Header, proj: Header): (r: Result<Ellipsoid, Fatal>)
    ensures r.Success? <==> geo.coords == "Geodetic" && geo.datum in Datums && proj.datum == geo.datum
    ensures r.Success? ==> Catalog(geo.datum) == Some(r.value)
    ensures geo.coords != "Geodetic" ==> r == Failure(UnsupportedCoordinates(geo.coords))
    ensures geo.coords == "Geodetic" && geo.datum !in Datums ==> r == Failure(UnsupportedDatum(geo.datum))
    ensures geo.coords == "Geodetic" && geo.datum in Datums && proj.datum != geo.datum ==>
              r == Failure(DatumMismatch(geo.datum, proj.datum))
  {
    if geo.coords != "Geodetic" then Failure(UnsupportedCoordinates(geo.coords))
    else match Catalog(geo.datum)
      case None => Failure(UnsupportedDatum(geo.datum))
      case Some(e) =>
        if proj.datum != geo.datum then Failure(DatumMismatch(geo.datum, proj.datum))
        else Success(e)
  }

  /** The family code the harness dispatches on. */
  datatype Kind = TM | PS | LCC

  /** A positive scale factor, as the conformal projections report one. */
  type Scale = k: real | k > 0.0 witness 1.0

  /** The parameter tuple; None where the source holds NaN. */
  datatype Params = Params(
    fe: Option<real>, fn: Option<real>, lon0: Option<real>, lat0: Option<real>,
    lat1: Option<real>, lat2: Option<real>, k1: Option<real>, kind: Kind)

  const OneParallel := "Lambert Conformal Conic (1 parallel)"
  const TwoParallel := "Lambert Conformal Conic (2 parallel)"
  const Mercator := "Mercator"
  const Polar := "Polar Stereographic"
  const Transverse := "Transverse Mercator"
  const Projections: set<string> := {OneParallel, TwoParallel, Mercator, Polar, Transverse}

  /** The five-way table. `probe(e, lat0, latts)` is the scale `k` that a
      one-parallel conformal conic on `e` with origin latitude `lat0` and scale
      1 reports at latitude `latts`, longitude 10, central meridian 0; the
      projection library computes it. */
  function ResolveProjection(h: Header, e: Ellipsoid, probe: (Ellipsoid, real, real) -> Scale): (r: Result<Params, Fatal>)
    ensures r.Failure? <==> h.proj !in Projections
    ensures r.Failure? ==> r.error == UnsupportedProjection(h.proj)
    ensures r.Success? ==> r.value.fe == h.fe && r.value.fn == h.fn
    // one parallel: the origin latitude serves as both standard parallels, the scale is the header's
    ensures h.proj == OneParallel ==>
              var p := r.value;
              p.lat1 == p.lat2 == p.lat0 == h.lat0 && p.k1 == h.k0 && p.lon0 == h.lon0 && p.kind == LCC
    // two parallels: scale fixed at 1
    ensures h.proj == TwoParallel ==>
              var p := r.value;
              p.k1 == Some(1.0) && p.lat0 == h.lat0 && p.lat1 == h.lat1 && p.lat2 == h.lat2
              && p.lon0 == h.lon0 && p.kind == LCC
    // Mercator: a two-parallel conic symmetric about the equator
    ensures h.proj == Mercator ==>
              var p := r.value;
              p.lat0 == Some(0.0) && p.lat1 == Some(h.latts.GetOr(0.0)) && p.lat2 == Some(-h.latts.GetOr(0.0))
              && p.k1 == Some(h.k0.GetOr(1.0)) && p.lon0 == h.lon0 && p.kind == LCC
    // polar stereographic: a pole as origin and both parallels, scale from the probe when a true-scale latitude is given
    ensures h.proj == Polar ==>
              var p := r.value;
              && (p.lat0 == Some(90.0) || p.lat0 == Some(-90.0))
              && p.lat1 == p.lat0 && p.lat2 == p.lat0
              && (p.lat0 == Some(-90.0) <==> h.latts.Some? && h.latts.value < 0.0)
              && (h.latts.Some? ==> p.k1 == Some(1.0 / probe(e, p.lat0.value, h.latts.value)))
              && (h.latts.None? ==> p.k1 == Some(h.k0.GetOr(1.0)))
              && p.lon0 == h.lonfp
              && (p.kind == PS <==> h.lonfp == Some(0.0))
              && (p.kind == PS || p.kind == LCC)
    // transverse Mercator: the origin latitude everywhere
    ensures h.proj == Transverse ==>
              var p := r.value;
              p.lat1 == p.lat2 == p.lat0 == h.lat0 && p.k1 == h.k0 && p.lon0 == h.lon0 && p.kind == TM
  {
    if h.proj == OneParallel then
      Success(Params(h.fe, h.fn, h.lon0, h.lat0, h.lat0, h.lat0, h.k0, LCC))
    else if h.proj == TwoParallel then
      Success(Params(h.fe, h.fn, h.lon0, h.lat0, h.lat1, h.lat2, Some(1.0), LCC))
    else if h.proj == Mercator then
      var k1 := h.k0.GetOr(1.0);
      var lat1 := h.latts.GetOr(0.0);
      Success(Params(h.fe, h.fn, h.lon0, Some(0.0), Some(lat1), Some(-lat1), Some(k1), LCC))
    else if h.proj == Polar then
      var lon0 := h.lonfp;
      var k0 := h.k0.GetOr(1.0);
      var lat0 := if h.latts.Some? && h.latts.value < 0.0 then -90.0 else 90.0;
      var k1 := if h.latts.Some? then 1.0 / probe(e, lat0, h.latts.value) else k0;
      var kind := if lon0 == Some(0.0) then PS else LCC;
      Success(Params(h.fe, h.fn, lon0, Some(lat0), Some(lat0), Some(lat0), Some(k1), kind))
    else if h.proj == Transverse then
      Success(Params(h.fe, h.fn, h.lon0, h.lat0, h.lat0, h.lat0, h.k0, TM))
    else
      Failure(UnsupportedProjection(h.proj))
  }
}
