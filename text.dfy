/** Character-level operations both front ends rely on: the C++ "C"-locale
    white-space class, searching, trimming, whitespace tokenising (what
    `istream >> std::string` does) and splitting a buffer into lines (what
    repeated `std::getline` does). */
module Text {
  import opened Wrappers

  /** The six characters `" \t\v\r\n\f"` that the header trimmer and the
      stream extractor treat as white space. */
  predicate IsSpace(c: char) {
    c == ' ' || c == '\t' || c == '\U{B}' || c == '\r' || c == '\n' || c == '\U{C}'
  }

  predicate AllSpace(s: string) {
    forall k :: 0 <= k < |s| ==> IsSpace(s[k])
  }

  predicate NoSpace(s: string) {
    forall k :: 0 <= k < |s| ==> !IsSpace(s[k])
  }

  predicate HasPrefix(s: string, p: string) {
    |p| <= |s| && s[..|p|] == p
  }

  /** `s.find(c, from)`: the first index at or after `from` holding `c`. */
  function FindFrom(s: string, c: char, from: nat): (r: Option<nat>)
    ensures r.Some? ==> from <= r.value < |s| && s[r.value] == c
    ensures r.Some? ==> forall j :: from <= j < r.value ==> s[j] != c
    ensures r.None? ==> forall j :: from <= j < |s| ==> s[j] != c
    decreases |s| - from
  {
    if from >= |s| then None
    else if s[from] == c then Some(from)
    else FindFrom(s, c, from + 1)
  }

  predicate OccursAt(s: string, d: string, m: nat) {
    m + |d| <= |s| && s[m..m + |d|] == d
  }

  /** `s.find(d, from)`: the first position at or after `from` where `d` occurs. */
  function FindSubFrom(s: string, d: string, from: nat): (r: Option<nat>)
    ensures r.Some? ==> from <= r.value && OccursAt(s, d, r.value)
    ensures r.Some? ==> forall j :: from <= j < r.value ==> !OccursAt(s, d, j)
    ensures r.None? ==> forall j :: from <= j ==> !OccursAt(s, d, j)
    decreases |s| - from
  {
    if from + |d| > |s| then None
    else if s[from..from + |d|] == d then Some(from)
    else FindSubFrom(s, d, from + 1)
  }

  /** The end of the run of white space that starts at `i`. */
  function SpanSpaces(s: string, i: nat): (j: nat)
    requires i <= |s|
    ensures i <= j <= |s|
    ensures forall k :: i <= k < j ==> IsSpace(s[k])
    ensures j < |s| ==> !IsSpace(s[j])
    decreases |s| - i
  {
    if i == |s| || !IsSpace(s[i]) then i else SpanSpaces(s, i + 1)
  }

  /** The start of the run of white space that ends at `j`. */
  function BackSpaces(s: string, j: nat): (i: nat)
    requires j <= |s|
    ensures i <= j
    ensures forall k :: i <= k < j ==> IsSpace(s[k])
    ensures i > 0 ==> !IsSpace(s[i - 1])
    decreases j
  {
    if j == 0 || !IsSpace(s[j - 1]) then j else BackSpaces(s, j - 1)
  }

  /** The text with leading and trailing white space removed, or None when
      nothing but white space is left (`find_first_not_of` gives npos). */
  function TrimValue(t: string): (r: Option<string>)
    ensures r.None? <==> AllSpace(t)
    ensures r.Some? ==> r.value != [] && !IsSpace(r.value[0]) && !IsSpace(r.value[|r.value| - 1])
    ensures r.Some? ==> exists i, j :: 0 <= i < j <= |t| && r.value == t[i..j] && AllSpace(t[..i]) && AllSpace(t[j..])
  {
    var i := SpanSpaces(t, 0);
    if i == |t| then None
    else
      var j := BackSpaces(t, |t|);
      assert !IsSpace(t[i]);
      assert AllSpace(t[..i]) && AllSpace(t[j..]);
      Some(t[i..j])
  }

  /** The index just past the run of non-space characters starting at `i`. */
  function WordEnd(s: string, i: nat): (j: nat)
    requires i <= |s|
    ensures i <= j <= |s|
    ensures forall k :: i <= k < j ==> !IsSpace(s[k])
    ensures j < |s| ==> IsSpace(s[j])
    decreases |s| - i
  {
    if i == |s| || IsSpace(s[i]) then i else WordEnd(s, i + 1)
  }

  /** The successive words `istream >> std::string` extracts from `s`. */
  function Tokens(s: string): (r: seq<string>)
    ensures forall k :: 0 <= k < |r| ==> r[k] != [] && NoSpace(r[k])
    decreases |s|
  {
    if s == [] then []
    else if IsSpace(s[0]) then Tokens(s[1..])
    else
      var n := WordEnd(s, 0);
      [s[..n]] + Tokens(s[n..])
  }

  function Concat(ws: seq<string>): string {
    if ws == [] then [] else ws[0] + Concat(ws[1..])
  }

  /** `s` with every white-space character deleted. */
  function Squeeze(s: string): string {
    if s == [] then [] else (if IsSpace(s[0]) then [] else [s[0]]) + Squeeze(s[1..])
  }

  lemma {:induction false} SqueezeAppend(a: string, b: string)
    ensures Squeeze(a + b) == Squeeze(a) + Squeeze(b)
  {
    if a == [] {
      assert a + b == b;
    } else {
      var head := if IsSpace(a[0]) then [] else [a[0]];
      assert (a + b)[0] == a[0] && (a + b)[1..] == a[1..] + b;
      SqueezeAppend(a[1..], b);
      calc {
        Squeeze(a + b);
        head + Squeeze(a[1..] + b);
        head + (Squeeze(a[1..]) + Squeeze(b));
        (head + Squeeze(a[1..])) + Squeeze(b);
      }
    }
  }

  /** Tokenising loses nothing but white space: the words, put back together,
      are the input with its white space deleted. */
  lemma {:induction false} TokensCoverInput(s: string)
    ensures Concat(Tokens(s)) == Squeeze(s)
    decreases |s|
  {
    if s == [] {
    } else if IsSpace(s[0]) {
      TokensCoverInput(s[1..]);
    } else {
      var n := WordEnd(s, 0);
      TokensCoverInput(s[n..]);
      assert s == s[..n] + s[n..];
      SqueezeAppend(s[..n], s[n..]);
      NoSpaceSqueeze(s[..n]);
      assert Tokens(s) == [s[..n]] + Tokens(s[n..]);
      assert Concat(Tokens(s)) == s[..n] + Concat(Tokens(s[n..]));
    }
  }

  /** A single word is tokenised as itself. */
  lemma {:induction false} TokensOfWord(w: string)
    requires w != [] && NoSpace(w)
    ensures Tokens(w) == [w]
  {
    assert WordEnd(w, 0) == |w|;
    assert w[..|w|] == w && w[|w|..] == [];
  }

  /** A white-space character in the input separates words: the words of
      `a + [c] + b` are the words of `a` followed by the words of `b`, so no
      word ever spans a white-space character. */
  lemma {:induction false} TokensSplitAtSpace(a: string, c: char, b: string)
    requires IsSpace(c)
    ensures Tokens(a + [c] + b) == Tokens(a) + Tokens(b)
    decreases |a|
  {
    var s := a + [c] + b;
    if a == [] {
      assert s == [c] + b && s[1..] == b;
    } else if IsSpace(a[0]) {
      assert s[0] == a[0] && s[1..] == a[1..] + [c] + b;
      TokensSplitAtSpace(a[1..], c, b);
    } else {
      var n := WordEnd(a, 0);
      WordEndStopsAtSpace(a, c, b, 0);
      assert s[0] == a[0];
      assert s[..n] == a[..n] && s[n..] == a[n..] + [c] + b;
      TokensSplitAtSpace(a[n..], c, b);
    }
  }

  lemma {:induction false} WordEndStopsAtSpace(a: string, c: char, b: string, i: nat)
    requires IsSpace(c) && i <= |a|
    ensures WordEnd(a + [c] + b, i) == WordEnd(a, i)
    decreases |a| - i
  {
    var s := a + [c] + b;
    if i < |a| {
      assert s[i] == a[i];
      if !IsSpace(a[i]) {
        WordEndStopsAtSpace(a, c, b, i + 1);
      }
    } else {
      assert s[i] == c;
    }
  }

  lemma {:induction false} NoSpaceSqueeze(w: string)
    requires NoSpace(w)
    ensures Squeeze(w) == w
  {
    if w != [] {
      NoSpaceSqueeze(w[1..]);
    }
  }

  /** The lines repeated `std::getline` reads from a buffer: split at each
      '\n', the separators dropped, and no empty line after a final '\n'. */
  function GetLines(s: string): (r: seq<string>)
    ensures forall k :: 0 <= k < |r| ==> '\n' !in r[k]
    decreases |s|
  {
    if s == [] then []
    else match FindFrom(s, '\n', 0)
      case None => [s]
      case Some(m) => [s[..m]] + GetLines(s[m + 1..])
  }

  /** Every line written back with its terminating '\n'. */
  function JoinLines(ls: seq<string>): string {
    if ls == [] then [] else ls[0] + "\n" + JoinLines(ls[1..])
  }

  /** Splitting into lines and joining them again gives the buffer back, with a
      '\n' added at the end when it had none. */
  lemma {:induction false} GetLinesRoundTrip(s: string)
    ensures JoinLines(GetLines(s)) == if s == [] || s[|s| - 1] == '\n' then s else s + "\n"
    decreases |s|
  {
    if s != [] {
      match FindFrom(s, '\n', 0)
      case None =>
      case Some(m) =>
        var rest := s[m + 1..];
        GetLinesRoundTrip(rest);
        assert s == s[..m] + "\n" + rest;
        if rest != [] {
          assert rest[|rest| - 1] == s[|s| - 1];
        }
    }
  }

  /** `s` with every `from` replaced by `to`. */
  function ReplaceAll(s: string, from: char, to: char): (r: string)
    ensures |r| == |s|
    ensures forall k :: 0 <= k < |s| ==> r[k] == if s[k] == from then to else s[k]
  {
    if s == [] then []
    else [if s[0] == from then to else s[0]] + ReplaceAll(s[1..], from, to)
  }
}
