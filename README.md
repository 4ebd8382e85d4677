# GeographicLib projection front ends in Dafny

This project models the decision logic of two front ends of GeographicLib. It
does not model the projection mathematics.

- **The projection test harness `ProjTest`.** It reads two reference files: a
  geographic one and a projected one, each with a `KEY: value` header ended by
  `END OF HEADER`. It checks that both describe the same catalogued datum. It
  turns one of five projection names and the header fields into a parameter
  tuple `(fe, fn, lon0, lat0, lat1, lat2, k1, type)`. It then replays the
  paired records through the projection in both directions, reports records
  whose round-trip error is at least 1e-6, and keeps the record count and five
  running error maxima.
- **The conic converter `ConicProj`.** It parses a command line that selects
  the Lambert conformal conic (`-c`) or Albers equal-area (`-a`) family and
  its parameters. It then chooses input and output: standard streams, files,
  or an input string whose line separator becomes a newline. It clamps the
  precision, and converts the input line by line. Each line has its comment
  split off and must hold exactly two fields. It yields exactly one output
  line, a result or `ERROR: ...`. The exit status records whether any line
  failed.

Modules:

- `Wrappers`: `Option` and `Result`.
- `Text`: the C++ white-space class, `find`, trimming, whitespace
  tokenising, `getline` splitting and character replacement.
- `DataFiles`: the header parser. The class `DataFile` is the imperative
  reader. It is proved equal to the pure scan `ParseHeader` and the remaining
  stream `Rest`.
- `Resolver`: the datum catalog and check, and the projection table.
- `Harness`: the false origin, the longitude wrap of `dist`, per-record errors
  and reports, the accumulation loop and the harness's `main`.
- `ConicArgs`: the argument loop. The method `ParseArguments` is proved equal
  to the step function `Step` iterated by `ParseFrom`.
- `ConicDriver`: the in-place separator substitution on an `array<char>`, the
  comment split, the precision clamp, the per-line loop and the converter's
  `main`.

The projection library, angle and number decoders and the number formatter are
function-valued parameters. The same goes for the stream extraction of records
(`Harness.Reader`) and the file system: contents of readable files, writable
names and standard input. A NaN header field is `None`. Stream extraction of a
number from a header value is a total function `readReal`, since a failed
extraction stores 0. The test sphere's radius 20000000/π is kept as
`MetresOverPi(20000000)`.

The longitude wrap of `dist` (tests/ProjTest.cpp:143-144) brings a
difference in [−540, 540) into [−180, 180).

## Model

| member | source | states |
|---|---|---|
| `Text.FindFrom` | tests/ProjTest.cpp:67-69 | the result is the first index at or after the start holding the character, or None when there is none |
| `Text.FindSubFrom` | tools/ConicProj.cpp:197-198 | the result is the first position at or after the start where the delimiter occurs, or None when it occurs nowhere |
| `Text.TrimValue` | tests/ProjTest.cpp:71-76 | None exactly when the text is all white space; otherwise a non-empty slice of the text with no white space at either end, preceded and followed only by white space |
| `Text.Tokens` | tools/ConicProj.cpp:205-213 | every extracted word is non-empty and contains no white space |
| `Text.TokensOfWord` | tools/ConicProj.cpp:205-213 | a non-empty text without white space is read as exactly one word, itself |
| `Text.TokensSplitAtSpace` | tools/ConicProj.cpp:205-213 | a white-space character separates words: the words of `a`, a space, `b` are the words of `a` followed by those of `b` |
| `Text.TokensCoverInput` | tools/ConicProj.cpp:205-213 | the words concatenated are the input with its white space deleted, so tokenising loses nothing else |
| `Text.GetLines` | tools/ConicProj.cpp:193 | no line read contains a newline |
| `Text.GetLinesRoundTrip` | tools/ConicProj.cpp:193 | joining the lines with newline terminators gives the buffer back, with a final newline added when it lacked one |
| `Text.ReplaceAll` | tools/ConicProj.cpp:151-158 | same length; every occurrence of the old character becomes the new one and every other character is unchanged |
| `DataFiles.Entry` | tests/ProjTest.cpp:67-76 | a line without a colon, or with only white space after its first colon, yields nothing; otherwise the key is the exact text before the first colon and the value the trimmed rest |
| `DataFiles.Assign` | tests/ProjTest.cpp:77-102 | a key outside the twelve recognised keys changes no field |
| `DataFiles.ApplyLine` | tests/ProjTest.cpp:67-102 | a line with no entry, or with an unrecognised key, leaves the header unchanged |
| `DataFiles.Scan` | tests/ProjTest.cpp:62-103 | the header loop from a given header; its properties are stated by `SentinelEndsHeader`, `SkippedLineIgnored` and `ScanLastWins`, and the class constructor is proved to compute it |
| `DataFiles.ParseHeader` | tests/ProjTest.cpp:50-103 | the header loop from "NONE" and NaN; the class constructor is proved to leave exactly this header in its fields |
| `DataFiles.Rest` | tests/ProjTest.cpp:62-103 | what the header loop leaves in the stream: by `SentinelEndsHeader`, exactly the lines after the first sentinel; the class constructor is proved to leave it |
| `DataFiles.SentinelEndsHeader` | tests/ProjTest.cpp:62-66 | reading stops at the first `END OF HEADER` line: nothing after it changes any field, and all of it is left in the stream |
| `DataFiles.SkippedLineIgnored` | tests/ProjTest.cpp:63-64 | inserting a blank or `#` line anywhere does not change the parsed header |
| `DataFiles.RepeatedKeyLastWins` | tests/ProjTest.cpp:77-102 | of two consecutive lines with the same key, the later value is the one kept |
| `DataFiles.AssignFieldwise` | tests/ProjTest.cpp:77-102 | the assignment chain changes exactly the field of its own key, to the text or to `readReal` of it, and keeps every other field |
| `DataFiles.AssignCommutes` | tests/ProjTest.cpp:77-102 | values for two different keys can be stored in either order |
| `DataFiles.ApplyCommutes` | tests/ProjTest.cpp:67-102 | two lines for different keys, or lines without an entry, have the same effect in either order |
| `DataFiles.Shadowed` | tests/ProjTest.cpp:62-102 | a line for a key followed, whatever lies between without a sentinel, by another line for that key has no effect on the header |
| `DataFiles.ScanLastWins` | tests/ProjTest.cpp:62-102 | inside the header, of two lines for the same key the earlier one can be dropped, whatever lines lie before and between them, without changing the parsed header |
| `DataFiles.NumericFieldIsReadValue` | tests/ProjTest.cpp:84-101 | each of the nine numeric keys stores `readReal` of the trimmed value in its own field and changes nothing else |
| `DataFiles.StringFieldIsTrimmedValue` | tests/ProjTest.cpp:70-82 | a `COORDINATES`, `PROJECTION` or `DATUM` line stores the trimmed value in that field and changes nothing else |
| `DataFiles.DataFile.Store` | tests/ProjTest.cpp:77-102 | the fields after the assignment chain are `Assign` of the fields before; the rest of the stream is untouched |
| `DataFiles.DataFile.constructor` | tests/ProjTest.cpp:50-104 | starting from "NONE" and NaN, the header loop leaves exactly `ParseHeader(lines)` in the fields and `Rest(lines)` in the stream |
| `Resolver.Catalog` | tests/ProjTest.cpp:174-185 | the catalog knows exactly `WGE` (WGS84), `Test_sphere` (a = 20000000/π, r = 0) and `Test_SRMmax` (a = 6400000, r = 150) |
| `Resolver.CheckDatum` | tests/ProjTest.cpp:172-188 | success exactly when the geographic file is geodetic, its datum catalogued and the projected file's datum identical; otherwise the first failing check, in that order, is reported |
| `Resolver.ResolveProjection` | tests/ProjTest.cpp:189-247 | fails exactly for names outside the five; per branch: LCC 1-parallel lat0 = lat1 = lat2 and k1 = k0; LCC 2-parallel k1 = 1; Mercator lat0 = 0, lat2 = −lat1, defaults 0 and 1; polar: a pole, the south one exactly when a negative true-scale latitude is given, k1 = 1/probe then, else k0 or 1, ps exactly when lon0 = 0; TM lat0 = lat1 = lat2 |
| `Harness.StdMax` | tests/ProjTest.cpp:290 | the result is one of its arguments and at least both |
| `Harness.WrapLon` | tests/ProjTest.cpp:142-144 | the difference moves by at most one turn, is unchanged inside [−180, 180), and lands in [−180, 180) exactly when it starts in [−540, 540) |
| `Harness.Dist` | tests/ProjTest.cpp:127-147 | the distance, with the longitude difference wrapped by `WrapLon`; `DistIgnoresFullTurn` states that a full turn of the second longitude does not change it |
| `Harness.Selected` | tests/ProjTest.cpp:278-309 | the projection object the record loop calls: the conic or transverse one at lon0, the polar one with the pole flag lat1 > 0; used by `RecordErrors` and `Prepare` |
| `Harness.DistIgnoresFullTurn` | tests/ProjTest.cpp:127-147 | moving the second longitude by 360 degrees does not change the distance, for differences in [−540, 180) |
| `Harness.Prepare` | tests/ProjTest.cpp:248-261 | a missing field fails before construction; with every field set, a scale k1 that is not positive is refused, and otherwise the setup succeeds exactly when the library accepts the constructor arguments; a success keeps the tuple's values; the false origin is (0, 0) for polar stereographic, else the forward image of (lat0, lon0) |
| `Harness.Configure` | tests/ProjTest.cpp:172-261 | a datum failure is the run's failure; after a good datum, an unknown projection fails as unsupported and a known one gives exactly the prepared setup of the resolved tuple; a success passed both checks |
| `Harness.RecordErrors` | tests/ProjTest.cpp:273-318 | the easting and northing errors are non-negative, and dividing by the larger of 1 and the local scale never enlarges the error |
| `Harness.RecordReports` | tests/ProjTest.cpp:289-331 | at most two reports, a reverse one exactly when the reverse error is not below 1e-6 and a forward one exactly when the scaled forward error is not, reverse first, each carrying the reference point and its own error |
| `Harness.SummaryMaxima` | tests/ProjTest.cpp:268-336 | the count is the number of pairs; each maximum is non-negative, at least every per-record error so far, and 0 or one of those errors |
| `Harness.SummaryUpTo` | tests/ProjTest.cpp:268-336 | the record loop's state after n pairs; `SummaryMaxima` and `SummaryMonotone` state its properties and `Accumulate` is proved to compute it |
| `Harness.SummaryMonotone` | tests/ProjTest.cpp:268-336 | maxima never decrease and reports only grow as records are read |
| `Harness.Accumulate` | tests/ProjTest.cpp:268-336 | the loop stops at the end of the shorter stream, with the count of pairs read and the summary `SummaryUpTo` of those pairs |
| `Harness.OpenLines` | tests/ProjTest.cpp:50-57 | opening fails, naming the file, exactly for a name other than "" or "-" that names no readable file; "" and "-" give the lines of standard input, and any other readable name the lines of that file |
| `Harness.ExitStatus` | tests/ProjTest.cpp:340-344 | status 0 exactly for a completed run, 1 for usage and every fatal error |
| `Harness.Run` | tests/ProjTest.cpp:158-344 | the harness's main as a value; `RunOutcomes` states its outcomes and `ProjTest` is proved to compute it |
| `Harness.RunOutcomes` | tests/ProjTest.cpp:158-338 | a datum failure, and any configuration failure, ends the run with that error before any record; a successful configuration always reaches the record loop and completes with that setup; a completed run has counted as many records as the shorter stream yields |
| `Harness.ProjTest` | tests/ProjTest.cpp:158-344 | the harness's main computes `Run`: usage, the first fatal error, or the setup and record summary |
| `ConicArgs.ExitStatus` | tools/ConicProj.cpp:129-134 | status 0 exactly for the version line and for usage with status 0 |
| `ConicArgs.LatitudeArg` | tools/ConicProj.cpp:52-57 | a parallel is accepted exactly when it decodes and is not marked as a longitude |
| `ConicArgs.LongitudeArg` | tools/ConicProj.cpp:66-71 | a central meridian is accepted exactly when it decodes and is not marked as a latitude, and is normalised |
| `ConicArgs.Step` | tools/ConicProj.cpp:43-135 | one trip consumes at least the flag and no more than the arguments; a `-c` or `-a` selects exactly its own family, and any other flag keeps the family and both parallels |
| `ConicArgs.ValueStep` | tools/ConicProj.cpp:64-128 | a one-value flag consumes its value and never changes the family or the parallels |
| `ConicArgs.ParseFrom` | tools/ConicProj.cpp:43-135 | the argument loop from argument i on; `ParseAppend`, `FamiliesExclusive` and `FamilyKept` state its properties |
| `ConicArgs.Parse` | tools/ConicProj.cpp:43-135 | the argument loop from the initial options; `ParseArguments` is proved to compute it, and `NoTwoFamilies`, `LastFamilyWins`, `LongFirstToggles`, `LineSeparatorSingleChar`, `MissingValueIsUsage` and `UnknownArgumentIsUsage` state its outcomes |
| `ConicArgs.ParseArguments` | tools/ConicProj.cpp:43-135 | the imperative argument loop computes `Parse`, the step function iterated |
| `ConicArgs.FamiliesExclusive` | tools/ConicProj.cpp:47-49 | from any state without both families, the loop never ends with both |
| `ConicArgs.NoTwoFamilies` | tools/ConicProj.cpp:47-49 | after parsing, `lcc` and `albers` are never both set |
| `ConicArgs.FamilyKept` | tools/ConicProj.cpp:43-135 | arguments without `-c` or `-a` leave the family and both parallels as they were |
| `ConicArgs.LastFamilyWins` | tools/ConicProj.cpp:47-63 | a `-c` or `-a` with good parallels selects that family alone and sets both parallels, whatever came before, and any later arguments without another `-c` or `-a` keep them |
| `ConicArgs.LongFirstToggles` | tools/ConicProj.cpp:99-100 | each `-w` flips longitude-first and changes nothing else |
| `ConicArgs.LineSeparatorSingleChar` | tools/ConicProj.cpp:119-125 | `--line-separator` takes a one-character value as the separator and refuses anything else |
| `ConicArgs.MissingValueIsUsage` | tools/ConicProj.cpp:50-127 | a flag missing its value, or a two-value flag with only one, stops with the brief usage and status 1 |
| `ConicArgs.UnknownArgumentIsUsage` | tools/ConicProj.cpp:133-134 | any other argument stops with the usage text: status 0 only for `-h` and `--help`, the full text only for `--help` |
| `ConicDriver.SeparatorStepAsWritten` | tools/ConicProj.cpp:151-157 | the loop step as written: rewrite the first separator at or after m and resume the search at that same index |
| `ConicDriver.NewlineSeparatorNeverAdvances` | tools/ConicProj.cpp:151-157 | with a newline as separator, a newline is a fixed point of that step, so the loop never ends |
| `ConicDriver.NewlineSeparatorExample` | tools/ConicProj.cpp:151-157 | on "1 2\n3 4" the step reaches index 3 and stays there |
| `ConicDriver.AsWrittenAgreesForOtherSeparators` | tools/ConicProj.cpp:151-157 | for any other separator, resuming at the rewritten index finds what resuming after it finds |
| `ConicDriver.SubstituteSeparator` | tools/ConicProj.cpp:150-158 | the buffer, rewritten in place, ends up as `ReplaceAll(old, lsep, '\n')`, and the loop terminates |
| `ConicDriver.SplitComment` | tools/ConicProj.cpp:195-202 | the text is a prefix of the line without the delimiter before its end; the terminator is "\n" exactly when there is no non-empty delimiter in the line, else a space, the rest of the line from the delimiter on, and "\n" |
| `ConicDriver.ClampPrecision` | tools/ConicProj.cpp:189 | the precision lies in [0, 10 + extra], is unchanged when already there, and is clamped to the nearer end otherwise |
| `ConicDriver.ProcessLine` | tools/ConicProj.cpp:194-233 | one input line's result; `LineOutcomes` states its failures and when it converts, `ForwardFields` and `LongFirstSwapsReverseFields` its output, `ChunkEndsLine` its terminator |
| `ConicDriver.DecodeFields` | tools/ConicProj.cpp:205-211 | the two fields as numbers in reverse mode and as a position otherwise; `LongFirstSwapsReverseFields` and `ForwardFields` state which decoder is used |
| `ConicDriver.Format` | tools/ConicProj.cpp:214-231 | the output fields of a converted line; `ForwardFields`, `LongFirstSwapsReverseFields` and `LineEndsWith` state them |
| `ConicDriver.Line` | tools/ConicProj.cpp:219-231 | four fields separated by single spaces, then the terminator; with a non-empty terminator it ends with the terminator's last character |
| `ConicDriver.LineOutcomes` | tools/ConicProj.cpp:203-213 | fewer than two fields fails as incomplete input, a field that does not decode fails with the decoder's message, then a third field fails as extraneous input; a line converts exactly when it has two decodable fields |
| `ConicDriver.LongFirstSwapsReverseFields` | tools/ConicProj.cpp:214-222 | in reverse mode a converted line starts with the latitude, then the longitude, of the reverse projection of its two numbers, with 5 more digits; longitude-first swaps exactly those two fields |
| `ConicDriver.Render` | tools/ConicProj.cpp:234-236 | a failed line is written as "ERROR: " and the message on its own line |
| `ConicDriver.ForwardFields` | tools/ConicProj.cpp:203-231 | in forward mode a converted line has two words decoded as a position, and is the easting and northing of its forward projection with the requested digits, the convergence and scale with 6 more, then the terminator |
| `ConicDriver.LineEndsWith` | tools/ConicProj.cpp:219-231 | a formatted output line ends with the terminator it is given |
| `ConicDriver.ChunkEndsLine` | tools/ConicProj.cpp:193-237 | whatever happens to a line, what it writes ends in '\n'; a converted line ends with the terminator of the comment split, which carries the echoed comment; a failed line is "ERROR: ", the message and '\n' |
| `ConicDriver.AnyFailedMeansSomeLine` | tools/ConicProj.cpp:234-236 | the failure flag of the loop is set exactly when some line failed |
| `ConicDriver.ProcessLines` | tools/ConicProj.cpp:193-239 | one output chunk per input line, in order; the status is 0 or 1, and 1 exactly when some line failed |
| `ConicDriver.InputText` | tools/ConicProj.cpp:137-161 | an input file and an input string exclude each other; "-" or nothing means standard input; an unreadable file fails; an input string has its separators turned into newlines (by the corrected loop of the Findings row) |
| `ConicDriver.OutputSink` | tools/ConicProj.cpp:163-172 | "-" or nothing means standard output; a named file must be writable |
| `ConicDriver.ProjectionOf` | tools/ConicProj.cpp:180-185 | the projection built from the options: the conformal family exactly when `-c` was given, with a, f, lat1, lat2 and k1; `Convert` states that the converter runs exactly when the library accepts it |
| `ConicDriver.Convert` | tools/ConicProj.cpp:137-239 | a parse stop is the outcome; an input or output failure is refused with its message; parsing with no family is refused; with a family, conversion happens exactly when the library accepts the projection, and its exception is the refusal otherwise; a conversion writes one chunk per input line with status 1 exactly when a line failed |
| `ConicDriver.ConicProj` | tools/ConicProj.cpp:29-249 | the converter's main, with the array-based separator substitution, computes `Convert`; the substitution is the corrected loop of the Findings row, so with a newline separator and a newline in the input string the model converts where the source's loop never ends |

## Left out

- The projection formulas (Lambert, Albers, polar stereographic, transverse Mercator, exact transverse Mercator), the polar scale probe, the tangent-plane metric and `hypot`: function parameters whose results are taken as given.
- The angle and number decoders, the latitude/longitude pair decoder, `AngNormalize` and the fixed-precision formatter: function parameters, the decoders failing with a message.
- Floating-point behaviour (rounding, NaN propagation, infinities): reals are exact.
- Harness.Prepare: a header field the chosen branch leaves NaN ends the run as `MissingField` before construction. The source instead carries the NaN into the arithmetic or into a library constructor, which rejects it.
- Harness.Prepare: the exact transverse Mercator object and the substitution of r at tests/ProjTest.cpp:251-253 are not modelled. Whether the library accepts its arguments is the single predicate `accepts`, jointly with k1 > 0.
- Harness.ProjTest: when both file names mean standard input, each header is parsed from the whole of standard input. In the source the second header and both record streams share one stream.
- Harness.SummaryUpTo: the record count is an unbounded natural; the source's `count` is `unsigned` (tests/ProjTest.cpp:268) and wraps at 2^32 records.
- Record extraction (`Next`, tests/ProjTest.cpp:105-112) is a parameter of the model.
- The printed text of the harness is not modelled: the parameter line, the fixed seven-digit formatting, the final `count records; maxerr` line and the unused string streams of lines 319-323. Reports and the summary are modelled as data.
- The usage and version texts, `Utility::set_digits`, and the outer `catch` handlers beyond the constructor failure are not modelled.
- ConicDriver.Convert: the unused projection object is built with fixed default arguments that are taken to be accepted. The forward and reverse calls are taken not to throw.
- ConicArgs.LineSeparatorSingleChar: arguments are sequences of characters here, while the source's size check at tools/ConicProj.cpp:121 counts bytes, so a separator that is a single non-ASCII character is accepted by the model and refused by the source.
- ConicDriver.ClampPrecision: `Math::extra_digits()` is the parameter `extra`.
- Creating or truncating an output file when the run later stops is not modelled; only whether the name is writable is.

## Findings

| source | as written | input that shows it | evidently intended | confidence | as-written member | corrected member |
|---|---|---|---|---|---|---|
| tools/ConicProj.cpp:151-157 | after writing '\n' at position m, the search for the separator resumes at m itself | `--input-string` "1 2", newline, "3 4" with `--line-separator` set to a newline: position 3 is found, overwritten with the same character and found again, forever | resume the search after the rewritten position (for a newline separator the substitution is then the identity) | not executed | `ConicDriver.NewlineSeparatorNeverAdvances` | `ConicDriver.SubstituteSeparator` |
