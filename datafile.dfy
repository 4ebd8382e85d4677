/** The header of a reference data file read by the projection test harness:
    `KEY: value` lines up to an `END OF HEADER` line, filling three string
    fields and nine numeric ones. */
module DataFiles {
  import opened Wrappers
  import opened Text

  /** The parsed header. A string field is "NONE" and a numeric field None
      (the source's NaN) until a line sets it. */
  datatype Header = Header(
    coords: string, proj: string, datum: string,
    lon0: Option<real>, fe: Option<real>, fn: Option<real>,
    latts: Option<real>, lonfp: Option<real>, lat0: Option<real>,
    k0: Option<real>, lat1: Option<real>, lat2: Option<real>)

  /** The header before any line has been read. */
  const Unset := Header("NONE", "NONE", "NONE", None, None, None, None, None, None, None, None, None)

  const Sentinel := "END OF HEADER"

  /** The closed set of keys the parser recognises. */
  const Keys: set<string> := {
    "COORDINATES", "PROJECTION", "DATUM", "CENTRAL MERIDIAN", "FALSE EASTING",
    "FALSE NORTHING", "LATITUDE OF TRUE SCALE", "LONGITUDE DOWN FROM POLE",
    "ORIGIN LATITUDE", "SCALE FACTOR", "STANDARD PARALLEL ONE", "STANDARD PARALLEL TWO"}

  /** Blank lines and comment lines are passed over. */
  predicate Skipped(line: string) {
    line == [] || line[0] == '#'
  }

  predicate EndsHeader(line: string) {
    HasPrefix(line, Sentinel)
  }

  /** `p` is the position of the first colon of `line`. */
  predicate FirstColon(line: string, p: nat) {
    p < |line| && line[p] == ':' && forall j :: 0 <= j < p ==> line[j] != ':'
  }

  /** The key and trimmed value of a line, or None when the line has no colon
      or nothing but white space after its first colon. The key is the exact
      text before the first colon. */
  function Entry(line: string): (r: Option<(string, string)>)
    ensures ':' !in line ==> r.None?
    ensures forall p: nat :: FirstColon(line, p) ==>
              r == if AllSpace(line[p + 1..]) then None else Some((line[..p], TrimValue(line[p + 1..]).value))
  {
    match FindFrom(line, ':', 0)
    case None => None
    case Some(p) =>
      assert forall q: nat :: FirstColon(line, q) ==> q == p;
      match TrimValue(line[p + 1..])
      case None => None
      case Some(v) => Some((line[..p], v))
  }

  /** Storing value `v` under `key`: the three string keys keep the text, the
      nine numeric keys keep what `readReal` extracts from it (`readReal`
      stands for `istringstream >> real`), and any other key changes nothing. */
  function Assign(h: Header, key: string, v: string, readReal: string -> real): (r: Header)
    ensures key !in Keys ==> r == h
  {
    if key == "COORDINATES" then h.(coords := v)
    else if key == "PROJECTION" then h.(proj := v)
    else if key == "DATUM" then h.(datum := v)
    else if key == "CENTRAL MERIDIAN" then h.(lon0 := Some(readReal(v)))
    else if key == "FALSE EASTING" then h.(fe := Some(readReal(v)))
    else if key == "FALSE NORTHING" then h.(fn := Some(readReal(v)))
    else if key == "LATITUDE OF TRUE SCALE" then h.(latts := Some(readReal(v)))
    else if key == "LONGITUDE DOWN FROM POLE" then h.(lonfp := Some(readReal(v)))
    else if key == "ORIGIN LATITUDE" then h.(lat0 := Some(readReal(v)))
    else if key == "SCALE FACTOR" then h.(k0 := Some(readReal(v)))
    else if key == "STANDARD PARALLEL ONE" then h.(lat1 := Some(readReal(v)))
    else if key == "STANDARD PARALLEL TWO" then h.(lat2 := Some(readReal(v)))
    else h
  }

  /** The effect of one header line that is neither skipped nor the sentinel. */
  function ApplyLine(h: Header, line: string, readReal: string -> real): (r: Header)
    ensures Entry(line).None? ==> r == h
    ensures Entry(line).Some? && Entry(line).value.0 !in Keys ==> r == h
  {
    match Entry(line)
    case None => h
    case Some((key, v)) => Assign(h, key, v, readReal)
  }

  /** The header reached from `h` by reading `lines` with the source's loop. */
  function Scan(h: Header, lines: seq<string>, readReal: string -> real): Header
    decreases lines
  {
    if lines == [] then h
    else if Skipped(lines[0]) then Scan(h, lines[1..], readReal)
    else if EndsHeader(lines[0]) then h
    else Scan(ApplyLine(h, lines[0], readReal), lines[1..], readReal)
  }

  function ParseHeader(lines: seq<string>, readReal: string -> real): Header {
    Scan(Unset, lines, readReal)
  }

  /** The lines left in the stream once the header loop ends. */
  function Rest(lines: seq<string>): seq<string> {
    if lines == [] then []
    else if Skipped(lines[0]) then Rest(lines[1..])
    else if EndsHeader(lines[0]) then lines[1..]
    else Rest(lines[1..])
  }

  /** Reading stops at the first `END OF HEADER` line: whatever follows it
      changes no field and is left in the stream for the records. */
  lemma {:induction false} SentinelEndsHeader(h: Header, before: seq<string>, line: string, after: seq<string>, readReal: string -> real)
    requires forall k :: 0 <= k < |before| ==> !EndsHeader(before[k])
    requires EndsHeader(line)
    ensures Scan(h, before + [line] + after, readReal) == Scan(h, before, readReal)
    ensures Rest(before + [line] + after) == after
    decreases |before|
  {
    var all := before + [line] + after;
    if before == [] {
      assert all == [line] + after;
      assert !Skipped(line);
    } else {
      assert all[0] == before[0] && all[1..] == before[1..] + [line] + after;
      var h' := if Skipped(before[0]) then h else ApplyLine(h, before[0], readReal);
      SentinelEndsHeader(h', before[1..], line, after, readReal);
    }
  }

  /** A blank or `#` line anywhere in the input has no effect on the header. */
  lemma {:induction false} SkippedLineIgnored(h: Header, before: seq<string>, line: string, after: seq<string>, readReal: string -> real)
    requires Skipped(line)
    ensures Scan(h, before + [line] + after, readReal) == Scan(h, before + after, readReal)
    decreases |before|
  {
    if before == [] {
      assert before + [line] + after == [line] + after;
      assert ([line] + after)[1..] == after;
      assert before + after == after;
    } else {
      var all := before + [line] + after;
      assert all[0] == before[0] && all[1..] == before[1..] + [line] + after;
      assert (before + after)[0] == before[0] && (before + after)[1..] == before[1..] + after;
      if !Skipped(before[0]) && !EndsHeader(before[0]) {
        SkippedLineIgnored(ApplyLine(h, before[0], readReal), before[1..], line, after, readReal);
      } else if Skipped(before[0]) {
        SkippedLineIgnored(h, before[1..], line, after, readReal);
      }
    }
  }

  /** When two lines give a value for the same key, the later value is kept. */
  lemma RepeatedKeyLastWins(h: Header, l1: string, l2: string, readReal: string -> real)
    requires Entry(l1).Some? && Entry(l2).Some? && Entry(l1).value.0 == Entry(l2).value.0
    ensures ApplyLine(ApplyLine(h, l1, readReal), l2, readReal) == ApplyLine(h, l2, readReal)
  {
    var key, v1, v2 := Entry(l1).value.0, Entry(l1).value.1, Entry(l2).value.1;
    AssignTwice(h, key, v1, v2, readReal);
  }

  lemma AssignTwice(h: Header, key: string, v1: string, v2: string, readReal: string -> real)
    ensures Assign(Assign(h, key, v1, readReal), key, v2, readReal) == Assign(h, key, v2, readReal)
  {
    if key == "COORDINATES" {
    } else if key == "PROJECTION" {
    } else if key == "DATUM" {
    } else if key == "CENTRAL MERIDIAN" {
    } else if key == "FALSE EASTING" {
    } else if key == "FALSE NORTHING" {
    } else if key == "LATITUDE OF TRUE SCALE" {
    } else if key == "LONGITUDE DOWN FROM POLE" {
    } else if key == "ORIGIN LATITUDE" {
    } else if key == "SCALE FACTOR" {
    } else if key == "STANDARD PARALLEL ONE" {
    } else if key == "STANDARD PARALLEL TWO" {
    }
  }

  /** The header with each field taken from `v` when `key` is that field's own
      key and kept otherwise: `Assign` field by field. */
  function Updated(h: Header, key: string, v: string, readReal: string -> real): Header {
    var x := Some(readReal(v));
    Header(if key == "COORDINATES" then v else h.coords,
           if key == "PROJECTION" then v else h.proj,
           if key == "DATUM" then v else h.datum,
           if key == "CENTRAL MERIDIAN" then x else h.lon0,
           if key == "FALSE EASTING" then x else h.fe,
           if key == "FALSE NORTHING" then x else h.fn,
           if key == "LATITUDE OF TRUE SCALE" then x else h.latts,
           if key == "LONGITUDE DOWN FROM POLE" then x else h.lonfp,
           if key == "ORIGIN LATITUDE" then x else h.lat0,
           if key == "SCALE FACTOR" then x else h.k0,
           if key == "STANDARD PARALLEL ONE" then x else h.lat1,
           if key == "STANDARD PARALLEL TWO" then x else h.lat2)
  }

  /** `Assign` changes only the field of its own key. */
  lemma AssignFieldwise(h: Header, key: string, v: string, readReal: string -> real)
    ensures Assign(h, key, v, readReal) == Updated(h, key, v, readReal)
  {
  }

  /** Values for two different keys can be stored in either order. */
  lemma AssignCommutes(h: Header, k1: string, v1: string, k2: string, v2: string, readReal: string -> real)
    requires k1 != k2
    ensures Assign(Assign(h, k1, v1, readReal), k2, v2, readReal) == Assign(Assign(h, k2, v2, readReal), k1, v1, readReal)
  {
    AssignFieldwise(h, k1, v1, readReal);
    AssignFieldwise(h, k2, v2, readReal);
    AssignFieldwise(Assign(h, k1, v1, readReal), k2, v2, readReal);
    AssignFieldwise(Assign(h, k2, v2, readReal), k1, v1, readReal);
    UpdatedCommutes(h, k1, v1, k2, v2, readReal);
  }

  lemma UpdatedCommutes(h: Header, k1: string, v1: string, k2: string, v2: string, readReal: string -> real)
    requires k1 != k2
    ensures Updated(Updated(h, k1, v1, readReal), k2, v2, readReal) == Updated(Updated(h, k2, v2, readReal), k1, v1, readReal)
  {
  }

  /** A line that sets `key`: read by the loop (neither skipped nor the
      sentinel) and carrying an entry for that key. */
  predicate Sets(line: string, key: string) {
    !Skipped(line) && !EndsHeader(line) && Entry(line).Some? && Entry(line).value.0 == key
  }

  /** Lines for different keys, or lines without an entry, commute. */
  lemma ApplyCommutes(h: Header, a: string, b: string, readReal: string -> real)
    requires Entry(a).None? || Entry(b).None? || Entry(a).value.0 != Entry(b).value.0
    ensures ApplyLine(ApplyLine(h, a, readReal), b, readReal) == ApplyLine(ApplyLine(h, b, readReal), a, readReal)
  {
    if Entry(a).Some? && Entry(b).Some? {
      AssignCommutes(h, Entry(a).value.0, Entry(a).value.1, Entry(b).value.0, Entry(b).value.1, readReal);
    }
  }

  /** A line for `key` applied before `mid` and a later line for the same key
      has no effect on the header. */
  lemma {:induction false} Shadowed(h: Header, l1: string, mid: seq<string>, l2: string, after: seq<string>,
                                    key: string, readReal: string -> real)
    requires Sets(l1, key) && Sets(l2, key)
    requires forall k :: 0 <= k < |mid| ==> !EndsHeader(mid[k])
    ensures Scan(ApplyLine(h, l1, readReal), mid + [l2] + after, readReal) == Scan(h, mid + [l2] + after, readReal)
    decreases |mid|
  {
    var all := mid + [l2] + after;
    if mid == [] {
      assert all == [l2] + after && all[1..] == after;
      RepeatedKeyLastWins(h, l1, l2, readReal);
    } else {
      var m0 := mid[0];
      assert all[0] == m0 && all[1..] == mid[1..] + [l2] + after;
      if Skipped(m0) {
        Shadowed(h, l1, mid[1..], l2, after, key, readReal);
      } else if Entry(m0).Some? && Entry(m0).value.0 == key {
        RepeatedKeyLastWins(h, l1, m0, readReal);
      } else {
        ApplyCommutes(h, l1, m0, readReal);
        Shadowed(ApplyLine(h, m0, readReal), l1, mid[1..], l2, after, key, readReal);
      }
    }
  }

  /** A repeated key keeps its last value: of two lines for the same key
      inside the header, whatever lies between them, the earlier one can be
      dropped without changing the parsed header. */
  lemma {:induction false} ScanLastWins(h: Header, before: seq<string>, l1: string, mid: seq<string>, l2: string,
                                        after: seq<string>, key: string, readReal: string -> real)
    requires Sets(l1, key) && Sets(l2, key)
    requires forall k :: 0 <= k < |before| ==> !EndsHeader(before[k])
    requires forall k :: 0 <= k < |mid| ==> !EndsHeader(mid[k])
    ensures Scan(h, before + [l1] + mid + [l2] + after, readReal) == Scan(h, before + mid + [l2] + after, readReal)
    decreases |before|
  {
    var all := before + [l1] + mid + [l2] + after;
    var without := before + mid + [l2] + after;
    if before == [] {
      assert all == [l1] + (mid + [l2] + after) && all[1..] == mid + [l2] + after;
      assert without == mid + [l2] + after;
      Shadowed(h, l1, mid, l2, after, key, readReal);
    } else {
      assert all[0] == before[0] && all[1..] == before[1..] + [l1] + mid + [l2] + after;
      assert without[0] == before[0] && without[1..] == before[1..] + mid + [l2] + after;
      var h' := if Skipped(before[0]) then h else ApplyLine(h, before[0], readReal);
      ScanLastWins(h', before[1..], l1, mid, l2, after, key, readReal);
    }
  }

  /** A recognised numeric key stores what `readReal` extracts from the
      trimmed value (the entry's value) in its own field and changes nothing
      else. */
  lemma NumericFieldIsReadValue(h: Header, line: string, readReal: string -> real)
    requires Entry(line).Some?
    ensures var (key, v) := Entry(line).value;
            var r, x := ApplyLine(h, line, readReal), Some(readReal(v));
            && (key == "CENTRAL MERIDIAN" ==> r == h.(lon0 := x))
            && (key == "FALSE EASTING" ==> r == h.(fe := x))
            && (key == "FALSE NORTHING" ==> r == h.(fn := x))
            && (key == "LATITUDE OF TRUE SCALE" ==> r == h.(latts := x))
            && (key == "LONGITUDE DOWN FROM POLE" ==> r == h.(lonfp := x))
            && (key == "ORIGIN LATITUDE" ==> r == h.(lat0 := x))
            && (key == "SCALE FACTOR" ==> r == h.(k0 := x))
            && (key == "STANDARD PARALLEL ONE" ==> r == h.(lat1 := x))
            && (key == "STANDARD PARALLEL TWO" ==> r == h.(lat2 := x))
  {
    var (key, v) := Entry(line).value;
    assert ApplyLine(h, line, readReal) == Assign(h, key, v, readReal);
  }

  /** A recognised string key stores the value trimmed of white space. */
  lemma StringFieldIsTrimmedValue(h: Header, line: string, p: nat, readReal: string -> real)
    requires FirstColon(line, p)
    requires line[..p] in {"COORDINATES", "PROJECTION", "DATUM"}
    requires !AllSpace(line[p + 1..])
    ensures var r := ApplyLine(h, line, readReal);
            var v := TrimValue(line[p + 1..]).value;
            (line[..p] == "COORDINATES" ==> r == h.(coords := v)) &&
            (line[..p] == "PROJECTION" ==> r == h.(proj := v)) &&
            (line[..p] == "DATUM" ==> r == h.(datum := v))
  {
    assert Entry(line) == Some((line[..p], TrimValue(line[p + 1..]).value));
  }

  /** A reference data file: the header fields and the unread rest of the stream. */
  class DataFile {
    var coords: string
    var proj: string
    var datum: string
    var lon0: Option<real>
    var fe: Option<real>
    var fn: Option<real>
    var latts: Option<real>
    var lonfp: Option<real>
    var lat0: Option<real>
    var k0: Option<real>
    var lat1: Option<real>
    var lat2: Option<real>
    var rest: seq<string>

    function Fields(): Header
      reads this
    {
      Header(coords, proj, datum, lon0, fe, fn, latts, lonfp, lat0, k0, lat1, lat2)
    }

    /** The assignment chain of the header loop for one key and value. */
    method Store(key: string, v: string, readReal: string -> real)
      modifies this
      ensures Fields() == Assign(old(Fields()), key, v, readReal)
      ensures rest == old(rest)
    {
      if key == "COORDINATES" {
        coords := v;
      } else if key == "PROJECTION" {
        proj := v;
      } else if key == "DATUM" {
        datum := v;
      } else if key == "CENTRAL MERIDIAN" {
        lon0 := Some(readReal(v));
      } else if key == "FALSE EASTING" {
        fe := Some(readReal(v));
      } else if key == "FALSE NORTHING" {
        fn := Some(readReal(v));
      } else if key == "LATITUDE OF TRUE SCALE" {
        latts := Some(readReal(v));
      } else if key == "LONGITUDE DOWN FROM POLE" {
        lonfp := Some(readReal(v));
      } else if key == "ORIGIN LATITUDE" {
        lat0 := Some(readReal(v));
      } else if key == "SCALE FACTOR" {
        k0 := Some(readReal(v));
      } else if key == "STANDARD PARALLEL ONE" {
        lat1 := Some(readReal(v));
      } else if key == "STANDARD PARALLEL TWO" {
        lat2 := Some(readReal(v));
      }
    }

    /** Reads the header from `lines`, the lines of the already opened stream. */
    constructor (lines: seq<string>, readReal: string -> real)
      ensures Fields() == ParseHeader(lines, readReal)
      ensures rest == Rest(lines)
    {
      coords, proj, datum := "NONE", "NONE", "NONE";
      lon0, fe, fn, latts, lonfp, lat0, k0, lat1, lat2 := None, None, None, None, None, None, None, None, None;
      rest := [];
      new;
      var i := 0;
      while i < |lines|
        invariant 0 <= i <= |lines|
        invariant Scan(Fields(), lines[i..], readReal) == ParseHeader(lines, readReal)
        invariant Rest(lines[i..]) == Rest(lines)
        invariant rest == []
      {
        var s := lines[i];
        assert lines[i..][0] == s && lines[i..][1..] == lines[i + 1..];
        if s == [] || s[0] == '#' {
          i := i + 1;
          continue;
        }
        if HasPrefix(s, Sentinel) {
          rest := lines[i + 1..];
          return;
        }
        i := i + 1;
        var p := FindFrom(s, ':', 0);
        if p.None? {
          continue;
        }
        var value := TrimValue(s[p.value + 1..]);
        if value.None? {
          continue;
        }
        Store(s[..p.value], value.value, readReal);
      }
      assert lines[i..] == [];
    }
  }
}
