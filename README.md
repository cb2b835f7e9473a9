# Rebar schedule core, modelled in Dafny

This project models the core of a Python tool that reads reinforcing-bar
("rebar") call-outs from CAD drawings and turns them into a rebar schedule.
A call-out is a text such as `#10-900x2` (straight bar, size #10, 900 cm,
2 bars), `安#3-390x40` (bar with safety hooks), `V113°#10-900+200x2` (bent
bar), `弧450#10-700x1` (arc) or `直弧…` (straight plus arc).

The model covers:

- **Call-out parsers.** The five modular processors and their registry, the
  modular and legacy dispatchers, the `@spacing` extractor, the multi-segment
  mark parser of the DXF reader, and the converter's own parser in `test.py`.
  Regular expressions are written out as scanners with the exact `re.match`
  (anchored) or `re.search` (leftmost) semantics. `float` and `int` are
  modelled as they accept or raise.
- **Lookups, weights, grades and summaries**, with the unit-weight, diameter
  and grade tables as parameters wherever the source reads them from its
  configuration.
- **Zone assignment.** The ray-casting point-in-polygon test, the `$P-`
  layer tables and the grouping of records into zones.
- **Diagrams as data.** The diagram dispatcher, and the points, angles and
  labels that each shape drawer and each image generator computes before it
  calls the plotting library. The stirrup drawer's calls to its dimension-line
  helper are bound as Python binds arguments, and as written they raise.
- **Text renderers and registries.** The in-place ASCII canvas, fixed ASCII
  art, text descriptions, the spreadsheet writer's segment extraction and
  temporary-file list, and the processor and generator registries. The
  registries are shared objects: every holder sees every change.
- **Small utilities.** File-size and time formatting, line and polyline
  length, the progress tracker, and the OCR result filter.

Python exceptions are values: `Common.Outcome<T>` is either `Ok(value)` or
`Raises(error)`. Where the source catches an exception, the model shows what
the handler returns. Square roots, `cos`, `sin` and `π` are parameters with
only the facts the proofs need. File, DXF, image and OCR input arrive as
parameters.

`calculate_rebar_weight` in core/rebar_processor.py:70-73 is the same
expression over the same table as in core/rebar_processor_new.py:75-80. It
is modelled once, by `RebarProcessorNew.CalculateRebarWeight`.

## Model

| member | source | states |
|---|---|---|
| Pattern.RunLen | core/processors/type10_processor.py:16 | a `\d+` or `[\d\.]+` group takes the longest run of its class, and the character after the run is outside the class |
| Pattern.SearchFrom | utils/graphics/shapes/bent.py:42 | `re.search`: the leftmost start from which the pattern matches, with its groups; None exactly when it matches nowhere |
| Pattern.MatchRender | core/processors/base_processor.py:29 | round trip of `re.match`: the text spelled from valid groups, followed by text that does not extend a final run, matches with exactly those groups |
| Pattern.MatchSound | core/processors/base_processor.py:36 | a match's groups are non-empty runs of their classes, one per group |
| Pattern.MatchIff | core/processors/base_processor.py:36-40 | a well-formed pattern matches with given groups iff the text starts with their rendering and what follows does not extend the final run |
| Pattern.MatchLits | core/processors/type11_processor.py:16 | literal characters at the head of a pattern match exactly those characters at the start of the text |
| Dict.Keys | core/rebar_processor_new.py:37-39 | `list(d.keys())`: one key per entry, in insertion order |
| Dict.Get | core/processors/__init__.py:17-19 | `d.get(k)`: None iff the key is absent, otherwise a value stored under it |
| Dict.Put | core/rebar_processor_new.py:41-43 | `d[k] = v` adds at most one entry |
| Dict.Delete | core/rebar_processor_new.py:45-48 | `del d[k]` removes at most entries, never adds |
| Dict.PutGet | core/rebar_processor_new.py:41-43 | after `d[k] = v`, `d.get(k)` is v and every other key keeps its value |
| Dict.PutKeys | core/rebar_processor_new.py:41-43 | an existing key keeps its place, a new key is appended |
| Dict.PutDistinct | core/rebar_processor_new.py:41-43 | keys stay distinct |
| Dict.DeleteGet | core/rebar_processor_new.py:45-48 | after removal the key is absent and every other key keeps its value |
| Dict.DeleteKeys | core/rebar_processor_new.py:45-48 | no remaining entry has the removed key, and no entry is invented |
| Dict.DeleteAbsent | core/rebar_processor_new.py:47 | removing an absent key changes nothing |
| Dict.DeleteDistinct | core/rebar_processor_new.py:45-48 | keys stay distinct |
| Dict.DeleteSubsequence | core/rebar_processor_new.py:45-48 | every remaining key was a key before |
| BaseProcessor.Diameter | core/processors/base_processor.py:42-44 | the table diameter, 0 for an unknown designation |
| BaseProcessor.UnitWeight | core/processors/base_processor.py:46-48 | the table unit weight, 0 for an unknown designation |
| BaseProcessor.Grade | core/processors/base_processor.py:50-52 | the table grade, "未知" for an unknown designation |
| BaseProcessor.UnknownDesignation | core/processors/base_processor.py:42-57 | an unknown designation has diameter 0, unit weight 0, grade "未知" and weight 0 |
| BaseProcessor.WeightNonNegative | core/processors/base_processor.py:54-57 | the weight is non-negative for non-negative unit weights, length and count |
| BaseProcessor.WeightPerBar | core/processors/base_processor.py:54-57 | the weight of `count` bars is `count` times the weight with the default count 1 |
| BaseProcessor.MatchStripped | core/processors/base_processor.py:31-36 | `process` matches the stripped text; the groups are valid and the stripped text is passed on |
| BaseProcessor.MatchStrippedOf | core/processors/base_processor.py:31-39 | on already stripped text a match is passed on unchanged |
| BaseProcessor.MatchStrippedNone | core/processors/base_processor.py:38-40 | on already stripped text no match gives None |
| BaseProcessor.StripOnlyInProcess | core/processors/base_processor.py:25-40 | with leading whitespace `can_process` is false while `process` still matches the stripped text |
| Type10Processor.MatchGroups | core/processors/type10_processor.py:16 | the groups are designation digits, a `[\d\.]+` length token and count digits |
| Type10Processor.ParseMatch | core/processors/type10_processor.py:18-37 | succeeds iff `float(length)` does (else ValueError); one segment, the length equal to it, weight by the base formula, type 'type10', note '直料' |
| Type10Processor.Process | core/processors/type10_processor.py:16 | None iff the stripped text does not match; a record carries the stripped text, type 'type10' and the base weight (see also core/processors/base_processor.py:31-40) |
| Type10Processor.MatchCallout | core/processors/type10_processor.py:16 | `#n-LxC` followed by text that does not continue the count matches with groups n, L, C |
| Type10Processor.ProcessCallout | core/processors/type10_processor.py:16-37 | such a call-out gives segments `[float(L)]`, angles `[]`, count C and length `float(L)`, or ValueError |
| Type10Processor.MultiSegmentNoMatch | core/processors/type10_processor.py:16 | `#n-A+B...` does not match: the length run stops at '+' where 'x' is needed |
| Type10Processor.MultiSegmentRejected | core/processors/type10_processor.py:16 | `process` on a multi-segment call-out gives None |
| Type10Processor.MalformedLengthRaises | core/processors/type10_processor.py:16-21 | a length token with two dots matches and then `float` raises ValueError |
| Type11Processor.MatchGroups | core/processors/type11_processor.py:16 | the groups are designation digits, a length token and count digits |
| Type11Processor.ParseMatch | core/processors/type11_processor.py:18-37 | one segment, base weight, type 'type11', note '安全彎鉤直'; ValueError iff `float` fails |
| Type11Processor.Process | core/processors/type11_processor.py:16 | None iff no match; `raw_text` is the stripped text (see also core/processors/base_processor.py:31-40) |
| Type11Processor.MatchCallout | core/processors/type11_processor.py:16 | `安#n-LxC` matches with groups n, L, C |
| Type11Processor.ProcessCallout | core/processors/type11_processor.py:16-37 | such a call-out gives one segment `float(L)`, count C, type 'type11', or ValueError |
| Type11Processor.HashTextRejected | core/processors/type11_processor.py:16 | text starting with '#' never matches: the '安' prefix is required |
| Type12Processor.MatchGroups | core/processors/type12_processor.py:16 | the groups are angle digits, designation digits, two length tokens and count digits |
| Type12Processor.ParseMatch | core/processors/type12_processor.py:18-42 | two segments, one angle (one fewer than segments), length their sum with the weight on it, note `折料 <angle>°`; ValueError iff a `float` fails |
| Type12Processor.Process | core/processors/type12_processor.py:16 | None iff no match; a record is consistent and of type 'type12' (see also core/processors/base_processor.py:31-40) |
| Type12Processor.RenderCallout | core/processors/type12_processor.py:16 | the pattern spells `V<a>°#n-L1+L2xC` for its groups |
| Type12Processor.MatchCallout | core/processors/type12_processor.py:16 | the bent call-out matches with its five groups |
| Type12Processor.ParseCallout | core/processors/type12_processor.py:18-42 | the record built from the five groups, or ValueError |
| Type12Processor.ProcessCallout | core/processors/type12_processor.py:16-42 | a bent call-out gives segments `[L1, L2]`, angles `[a]`, length `L1 + L2` and note `折料 a°` |
| Type12Processor.CalloutFields | core/processors/type12_processor.py:18-42 | the record's fields for given group values |
| Type12Processor.Example | core/rebar_processor_new.py:21 | `V113°#10-900+200x2` gives segments [900, 200], angles [113], count 2, length 1100 |
| Type18Processor.MatchGroups | core/processors/type18_processor.py:16 | the groups are radius digits, designation digits, a length token and count digits |
| Type18Processor.ParseMatch | core/processors/type18_processor.py:18-39 | one segment, no angles, the integer radius, type 'type18', note `直料圓弧 R<radius>`; ValueError iff `float` fails |
| Type18Processor.Process | core/processors/type18_processor.py:16 | None iff no match; a record carries a radius (see also core/processors/base_processor.py:31-40) |
| Type18Processor.RenderCallout | core/processors/type18_processor.py:16 | the pattern spells `弧R#n-LxC` |
| Type18Processor.MatchCallout | core/processors/type18_processor.py:16 | the arc call-out matches with its four groups |
| Type18Processor.ProcessCallout | core/processors/type18_processor.py:16-39 | an arc call-out gives `[L]`, no angles, the radius and the note |
| Type18Processor.CalloutFields | core/processors/type18_processor.py:18-39 | the record's fields for given group values |
| Type18Processor.Example | test_type18.py:18-22 | `弧450#10-700x1` gives radius 450, #10, length 700, count 1 |
| Type19Processor.MatchGroups | core/processors/type19_processor.py:17 | the groups are radius, designation, straight and arc tokens and count |
| Type19Processor.ParseMatch | core/processors/type19_processor.py:19-44 | segments `[straight, arc]` summed into the length with the weight on it, no angles, the radius, note `直段+弧段 R<radius>` |
| Type19Processor.Process | core/processors/type19_processor.py:17 | None iff no match; a record carries a radius (see also core/processors/base_processor.py:31-40) |
| Type19Processor.RenderCallout | core/processors/type19_processor.py:17 | the pattern spells `直弧R#n-S+AxC` |
| Type19Processor.MatchCallout | core/processors/type19_processor.py:17 | the call-out matches with its five groups |
| Type19Processor.ParseCallout | core/processors/type19_processor.py:19-44 | the record built from the five groups, or ValueError |
| Type19Processor.ProcessCallout | core/processors/type19_processor.py:17-44 | a straight+arc call-out gives `[S, A]`, length `S + A`, the radius and the note |
| Processors.Process | core/processors/base_processor.py:31-40 | any kind's `process`: None iff no match, else a consistent record of the stripped text |
| Processors.LeadOf | core/processors/type10_processor.py:16 | text a processor can handle starts with that processor's leading literal |
| Processors.AtMostOneKind | core/processors/type10_processor.py:16 | the five patterns start with distinct literals, so at most one kind accepts any text |
| Processors.ProcessAccepted | core/processors/base_processor.py:31-40 | a processor that accepts stripped text yields a record or raises, never None |
| Processors.DefaultKeys | core/processors/__init__.py:11-15 | the registry keys are exactly type10, type11, type12, in order, each bound to its own kind |
| Processors.ArcKindsUnregistered | core/processors/__init__.py:5-15 | the type18 and type19 processors exist but are not registered |
| Processors.GetProcessor | core/processors/__init__.py:17-19 | None iff the key is not registered, else the registered processor |
| Processors.GetProcessorDefault | core/processors/__init__.py:17-19 | on the initial registry the three types are found and nothing else |
| Processors.ProcessorTable.constructor | core/processors/__init__.py:11-15 | the module registry starts with the three entries |
| RebarProcessorNew.RebarProcessor.constructor | core/rebar_processor_new.py:11-12 | the instance holds the module registry itself |
| RebarProcessorNew.RebarProcessor.ParseRebarText | core/rebar_processor_new.py:14-35 | strips the text and returns what dispatch over the registry, in order, gives |
| RebarProcessorNew.RebarProcessor.GetSupportedTypes | core/rebar_processor_new.py:37-39 | the registry's keys in order |
| RebarProcessorNew.RebarProcessor.AddProcessor | core/rebar_processor_new.py:41-43 | inserts or overwrites one key of the shared registry |
| RebarProcessorNew.RebarProcessor.RemoveProcessor | core/rebar_processor_new.py:45-48 | deletes the key if present, else changes nothing |
| RebarProcessorNew.DispatchStep | core/rebar_processor_new.py:26-31 | a processor that accepts the text decides, with a result that is not None; otherwise the next one is tried |
| RebarProcessorNew.DispatchNone | core/rebar_processor_new.py:33-35 | None exactly when no registered processor accepts the text |
| RebarProcessorNew.DispatchAgrees | core/rebar_processor_new.py:26-31 | when processor i accepts the text, dispatch gives exactly its result, wherever it sits: registry order does not matter |
| RebarProcessorNew.DispatchTypeIn | core/rebar_processor_new.py:26-31 | a record dispatch yields carries the type of one of the registered processors |
| RebarProcessorNew.DefaultDispatchTypes | core/processors/__init__.py:11-15 | on the initial registry dispatch only yields type10, type11 or type12 records |
| RebarProcessorNew.ArcTextUnparsed | core/processors/__init__.py:11-15 | an arc call-out starting with '弧' is not parsed by the initial registry |
| RebarProcessorNew.ArcTextParsedWithAll | test_type18.py:18-22 | with all five processors registered `弧450#10-700x1` gives the type18 record with radius 450 |
| RebarProcessorNew.CalculateRebarWeight | core/rebar_processor_new.py:75-80 | unit weight × length × count, 100 times the processors' formula |
| RebarProcessorNew.InvalidWeighsNothing | core/rebar_processor_new.py:82-86 | a designation missing from the unit-weight table weighs 0 under both formulas |
| RebarProcessorNew.GetRebarSummary | core/rebar_processor_new.py:88-108 | the summary accumulated record by record, each entry with the designation's table grade or "未知" |
| RebarProcessorNew.SharedRegistry | core/rebar_processor_new.py:11-12 | a processor added through one instance is found through another (see also core/processors/__init__.py:21-23) |
| Common.Strip | core/processors/base_processor.py:34 | `str.strip()`: no whitespace left at either end, and the result is empty iff the text is all whitespace |
| Common.StripIdempotent | core/processors/base_processor.py:34 | stripping twice is stripping once |
| Common.StripPadded | core/rebar_processor_new.py:24 | whitespace around a call-out does not change the stripped text |
| Common.PyFloat | core/processors/type10_processor.py:21 | `float()` of a `[\d\.]+` token succeeds iff it holds a digit and at most one point, and raises ValueError otherwise |
| Common.PyFloatOfDigits | core/processors/type10_processor.py:21-22 | a digit string converts to its integer value |
| Common.NatToString | core/dxf_parser.py:16 | `str(n)`: digits without leading zeros whose value is n |
| Common.PyTrunc | utils/image_ocr.py:164 | `int(x)` truncates toward zero |
| Common.PyFloorDiv | utils/helpers.py:28-34 | `x // m` for positive m is the floor of the quotient |
| Common.PyMod | utils/helpers.py:29-34 | `x % m` for positive m lies in [0, m) and rebuilds x with the floor quotient |
| Common.PyIndex | utils/graphics.py:141 | a list index is valid iff `-n <= i < n`, a negative one counts from the end, otherwise IndexError |
| Common.Repeat | utils/graphics.py:133 | `c * n`: n copies of c, none for n <= 0 |
| Common.PyBound | test.py:1513-1566 | a slice bound counts a negative value from the end and is clamped to the string |
| Summary.GradeOr | core/rebar_processor.py:64-67 | the table grade, or the given default for an unknown designation |
| Summary.GetRebarSummary | core/rebar_processor.py:180-200 | the loop's dictionary is the summary of the record list and its keys are distinct |
| Summary.SummaryGet | core/rebar_processor.py:185-198 | a designation has an entry iff some record carries it; the entry's count is the number of such records, its totals their summed lengths and weights (missing ones 0), its diameter and grade the lookups |
| Summary.NoRecordsNoTotals | core/rebar_processor.py:196-198 | a designation without records has no length and no weight |
| Summary.SummaryDistinct | core/rebar_processor.py:187-194 | no designation appears twice |
| Summary.SummaryOrder | core/rebar_processor.py:185-194 | the summary lists the designations in order of first appearance |
| Summary.CountsTotal | core/rebar_processor.py:196 | a count is at most the number of records, and positive iff some record has the designation |
| LegacyRebarProcessor.ParseRebarText | core/rebar_processor.py:75-173 | None iff none of the three patterns matches the stripped text; otherwise a consistent record of type10, 11 or 12 for the stripped text, or ValueError |
| LegacyRebarProcessor.ParseText | core/rebar_processor.py:87-173 | on stripped text: None iff none of the three patterns matches; otherwise a consistent record of type10, 11 or 12 for that text, or ValueError |
| LegacyRebarProcessor.StraightNoteOnly | core/rebar_processor.py:89-111 | whatever the stored characters, a straight call-out gives the same record or error, only the note differs |
| LegacyRebarProcessor.IntendedPatterns | core/rebar_processor.py:115 | with the characters the authors meant, the hooked and bent patterns and the bent note are those of the per-type processors (see also core/rebar_processor.py:142) |
| LegacyRebarProcessor.IntendedAgrees | core/rebar_processor.py:75-173 | with the intended characters the cascade gives exactly what the modular dispatcher on its initial registry gives |
| LegacyRebarProcessor.ParseStripped | core/rebar_processor.py:85 | stripping beforehand changes nothing |
| LegacyRebarProcessor.IntendedCascade | core/rebar_processor.py:87-173 | the intended cascade is the three processors tried in turn |
| LegacyRebarProcessor.DefaultDispatch | core/processors/__init__.py:11-15 | dispatch over the initial registry is the same three processors tried in turn |
| LegacyRebarProcessor.Agrees10 | core/rebar_processor.py:89-111 | when the straight pattern matches, the result is the type10 processor's |
| LegacyRebarProcessor.Agrees11 | core/rebar_processor.py:115-137 | when only the hooked pattern matches, the result is the type11 processor's |
| LegacyRebarProcessor.Agrees12 | core/rebar_processor.py:142-170 | when only the bent pattern matches, the result is the type12 processor's |
| LegacyRebarProcessor.HookedUnparsedAsWritten | core/rebar_processor.py:115 | as stored, any stripped text starting with '安' gives None |
| LegacyRebarProcessor.BentUnparsedAsWritten | core/rebar_processor.py:142 | as stored, every bent call-out `V<a>°#n-L1+L2xC` gives None |
| LegacyRebarProcessor.BentMismatch | core/rebar_processor.py:142 | as stored, the bent pattern fails where a call-out has its degree sign |
| LegacyRebarProcessor.HookedCalloutLost | core/rebar_processor.py:115 | as stored, every hooked call-out `安#n-LxC` gives None |
| LegacyRebarProcessor.StraightParsedAsWritten | core/rebar_processor.py:89-111 | a straight call-out is parsed as stored, with the same record as intended apart from the note's characters |
| LegacyRebarProcessor.FindSpacing | core/rebar_processor.py:35-37 | the spacing group is a non-empty digit run |
| LegacyRebarProcessor.FindSpacingFirst | core/rebar_processor.py:35 | `re.search` takes the leftmost `@` followed by a digit; None iff there is none |
| LegacyRebarProcessor.HasUnitSpacingAny | core/rebar_processor.py:39 | true iff some `@` position carries digits and a unit |
| LegacyRebarProcessor.ExtractRebarInfo | core/rebar_processor.py:12-52 | None iff the stripped text is empty, does not start with '#', or has no digit after it; else the `#n` prefix, a spacing iff one is found, and the table diameter and unit weight |
| LegacyRebarProcessor.ExtractStripped | core/rebar_processor.py:26-52 | the same on already stripped text |
| LegacyRebarProcessor.SkipNoAt | core/rebar_processor.py:35-39 | text before the first `@` changes neither search |
| LegacyRebarProcessor.SpacingOfCallout | core/rebar_processor.py:17-40 | `#n@g` gives spacing `10 * g`; `#n@gc/c`, `#n@gcm`, `#n@gmm` give g as written |
| LegacyRebarProcessor.SpacingAfterAt | core/rebar_processor.py:35-40 | after `@` the spacing digits are g, and only a unit makes it a spacing with a unit |
| LegacyRebarProcessor.GetRebarSummary | core/rebar_processor.py:180-200 | the summary of the records with the file's own stored grade literal for unknown designations; keys distinct |
| Helpers.Divisions | utils/helpers.py:17-19 | the loop divides at most four times, once per larger unit |
| Helpers.FormatFileSize | utils/helpers.py:10-21 | zero gives "0 B"; otherwise the size divided by 1024 once per division the loop makes, with the matching unit name |
| Helpers.UnitChoice | utils/helpers.py:17-21 | the unit chosen is the largest whose size does not exceed the value, so the shown value is in [1, 1024) except at the ends of the unit list |
| Helpers.FormatTime | utils/helpers.py:23-35 | seconds below 60, minutes and seconds below 3600, otherwise hours, minutes and seconds |
| Helpers.FormatTimeParts | utils/helpers.py:27-35 | the parts add back up to the duration, minutes and seconds each below 60 |
| Helpers.TruncIsFloorDiv | utils/helpers.py:28 | `int(s / 60)` equals `s // 60` for non-negative s |
| Helpers.ModOfMod | utils/helpers.py:33-34 | the seconds of a long duration are the remainder of its remainder below an hour |
| Helpers.ModUnique | utils/helpers.py:29-34 | quotient and remainder are the only pair with the remainder in range |
| Helpers.Square | utils/helpers.py:41 | `x ** 2` is never negative and zero exactly at zero |
| Helpers.SquaredDistance | utils/helpers.py:37-41 | the sum of squared differences is zero exactly when the points coincide |
| Helpers.LineLength | utils/helpers.py:37-41 | `calculate_line_length`: non-negative, its square is the squared distance, zero iff the points coincide |
| Helpers.LineLengthSymmetric | utils/helpers.py:37-41 | the distance does not depend on the direction |
| Helpers.PolylineLength | utils/helpers.py:43-48 | non-negative, and 0 for fewer than two points |
| Helpers.CalculatePolylineLength | utils/helpers.py:43-48 | the loop's total is the sum of the consecutive distances |
| Helpers.PolylineReversed | utils/helpers.py:43-48 | walking the points backwards gives the same length |
| Helpers.PolylineFront | utils/helpers.py:43-48 | the length is the first segment plus the length of the rest |
| Helpers.ProgressTracker.constructor | utils/helpers.py:65-72 | step 0, the given total, the start time and no descriptions |
| Helpers.ProgressTracker.UpdateProgress | utils/helpers.py:74-91 | takes the given step, records a non-empty detail under the current step, and reports; a total of 0 raises ZeroDivisionError after the update |
| Helpers.Report | utils/helpers.py:82-91 | the report's step and total, a percentage with `percentage * total == step * 100`, and the detail recorded for the step or "" |
| Helpers.ReportBounds | utils/helpers.py:83 | the percentage is within [0, 100] for steps within the total, 100 at the end and 0 at the start |
| DxfParser.LazyClose | core/dxf_parser.py:10 | the lazy `.*?x[0-9]+` stops at the first 'x' followed by a digit, never crossing a newline |
| DxfParser.MarkAt | core/dxf_parser.py:10 | a match of the narrowing pattern starts at '#' and ends inside the text |
| DxfParser.SearchFrom | core/dxf_parser.py:10 | `re.search`: the leftmost position where the narrowing pattern matches; None iff it matches nowhere |
| DxfParser.Narrow | core/dxf_parser.py:10-12 | the text is replaced by the leftmost match, or kept when there is none |
| DxfParser.ScanTokens | core/dxf_parser.py:14 | the length group: '+'-separated tokens, each as long as possible, spelling a prefix of the text, present iff the text starts with a number character |
| DxfParser.MatchMark | core/dxf_parser.py:14 | a match gives well-formed groups that spell a prefix of the text |
| DxfParser.ToSegment | core/dxf_parser.py:17 | a token without '.' becomes an integer, with one a float; ValueError iff `float` rejects it |
| DxfParser.ToSegments | core/dxf_parser.py:17 | all tokens converted in order, raising iff some token raises |
| DxfParser.ParseRebarMark | core/dxf_parser.py:5-24 | None iff the anchored match fails on the narrowed text; else designation `#n`, the count, and the segments the tokens convert to; ValueError otherwise |
| DxfParser.ScanJoin | core/dxf_parser.py:14 | round trip: tokens joined by '+' are scanned back |
| DxfParser.MatchMarkText | core/dxf_parser.py:14 | round trip: a rendered mark followed by a non-digit is matched back with its groups |
| DxfParser.LazyCloseAt | core/dxf_parser.py:10 | without 'x' or a newline before it, the lazy part stops at the closing 'x' |
| DxfParser.NarrowMarkText | core/dxf_parser.py:10-12 | a mark on its own is left unchanged by narrowing |
| DxfParser.ParseMarkText | core/dxf_parser.py:14-23 | a well-formed mark gives its designation, count and token conversion |
| DxfParser.DigitTokens | core/dxf_parser.py:17 | all-digit tokens become integers, one per token, in order |
| DxfParser.ParseDigitMark | core/dxf_parser.py:14-23 | a mark with all-digit lengths parses to one integer segment per length |
| DxfParser.ExampleMultiple | core/dxf_parser.py:13 | `#10-1000+1000+1000x31` gives three integer segments of 1000 and count 31 |
| DxfParser.ExampleTwo | core/dxf_parser.py:13 | `#9-45+700x50` gives 45 and 700 and count 50 |
| DxfParser.ExampleDecimal | core/dxf_parser.py:13 | `#10-510.5x11` gives one float segment 510.5 and count 11 |
| DxfParser.TwoDotsRaise | core/dxf_parser.py:14-17 | a token with two dots passes the match and then `float` raises ValueError |
| DxfParser.ExampleMultipleText | core/dxf_parser.py:13 | the mark of `ExampleMultiple` is the text `#10-1000+1000+1000x31` |
| DxfParser.ExampleTwoText | core/dxf_parser.py:13 | the mark of `ExampleTwo` is the text `#9-45+700x50` |
| DxfParser.ExampleDecimalText | core/dxf_parser.py:13 | the mark of `ExampleDecimal` is the text `#10-510.5x11` |
| CadReader.EdgeToggles | core/cad_reader.py:88-93 | an edge flips the answer only when its ends lie on different sides of the ray's height; a zero denominator raises ZeroDivisionError |
| CadReader.InsideAfter | core/cad_reader.py:84-94 | the answer after the first k edges, or the first edge's ZeroDivisionError |
| CadReader.Inside | core/cad_reader.py:82-95 | an empty polygon contains nothing |
| CadReader.PointInPolygon | core/cad_reader.py:82-95 | the loop's answer is the ray-casting answer over all edges |
| CadReader.InsideStep | core/cad_reader.py:87-94 | one more edge flips the answer iff it toggles, and an error is kept |
| CadReader.InsideIsParity | core/cad_reader.py:82-95 | without a zero denominator the answer is the parity of the number of crossing edges |
| CadReader.ZeroDenominatorRaises | core/cad_reader.py:91 | one edge that divides by zero makes the whole test raise |
| CadReader.OutsideVerticalExtent | core/cad_reader.py:90 | a point level with or above every vertex, or below every vertex, is outside |
| CadReader.SquareExample | core/cad_reader.py:82-95 | in the square (0,0)-(10,10) the centre is inside and (20, 20) is not |
| CadReader.ZeroDenominatorExample | core/cad_reader.py:91 | an edge from height 1e-12 down to 0, for a point at height 0, raises ZeroDivisionError |
| CadReader.ZoneName | core/cad_reader.py:76 | the layer name after `$P-`, or the whole name when nothing follows |
| CadReader.TablesOf | core/cad_reader.py:68-79 | at most one frame per polyline |
| CadReader.TablesOfSound | core/cad_reader.py:73-78 | every frame comes from a `$P-` polyline with its name and points, and every such polyline gives one |
| CadReader.TablesOfAllFrames | core/cad_reader.py:73-78 | a drawing whose polylines are all frames gives one frame each |
| CadReader.SplitLines | core/cad_reader.py:55 | `split('\n')` gives at least one piece and none holds a line break |
| CadReader.SplitJoin | core/cad_reader.py:55 | splitting and joining back gives the text again |
| CadReader.LinesOf | core/cad_reader.py:51-62 | an MTEXT gives at least one line |
| CadReader.Extract | core/cad_reader.py:39-66 | at most one record per text |
| CadReader.ExtractSound | core/cad_reader.py:41-62 | each record comes from a text that parsed to it, placed at that text |
| CadReader.ExtractStopsAtError | core/cad_reader.py:39-65 | nothing after a text whose parse raises is reported: the outer `try` ends the scan |
| CadReader.ExtractComplete | core/cad_reader.py:41-62 | before any raising text, every text that parses is reported |
| CadReader.ExtractCons | core/cad_reader.py:41-62 | one step of the scan: skip on None, stop on an error, keep a record |
| CadReader.Zones | core/cad_reader.py:108-111 | the drawing's frames, or the single catch-all frame when it has none |
| CadReader.FirstContaining | core/cad_reader.py:116-123 | the name of a frame or the default, or ZeroDivisionError |
| CadReader.ZoneOf | core/cad_reader.py:115-123 | a frame's name, the first frame's for a falsy position |
| CadReader.FirstZoneWins | core/cad_reader.py:120-123 | the first frame that contains the point wins, whatever later frames say |
| CadReader.NoZoneDefault | core/cad_reader.py:116 | a point in no frame goes to the first frame |
| CadReader.Enrich | core/cad_reader.py:126-131 | the row keeps the record and adds the designation's lookups, the grade with the legacy default |
| CadReader.ZoneLocator | core/cad_reader.py:114-123 | the locator is the zone lookup over the frames |
| CadReader.InZone | core/cad_reader.py:134 | at most one row per record |
| CadReader.InitGroups | core/cad_reader.py:106-111 | one empty group per distinct frame name, keys distinct |
| CadReader.InZoneStep | core/cad_reader.py:134 | one more record adds its row to its own zone only |
| CadReader.AddRowStep | core/cad_reader.py:134 | appending a record's row keeps the groups in step with the records |
| CadReader.AddRowKeys | core/cad_reader.py:134 | appending never adds a key |
| CadReader.AddRowValues | core/cad_reader.py:134 | after appending, each group holds its zone's rows so far |
| CadReader.Group | core/cad_reader.py:101-140 | None iff some zone test raises; otherwise one group per frame name, each holding the rows of its zone in record order |
| CadReader.ZoneHasGroup | core/cad_reader.py:106-134 | every zone a record can get has a group |
| CadReader.ZonedStep | core/cad_reader.py:114-134 | zoning the next record keeps every record zoned |
| CadReader.FindZone | core/cad_reader.py:115-123 | the inner loop with `break` gives the zone lookup |
| CadReader.OccursOnce | core/cad_reader.py:106 | a name among distinct names occurs once |
| CadReader.RowCountStep | core/cad_reader.py:134 | one more record adds one row to each occurrence of its zone |
| CadReader.EachRecordOnce | core/cad_reader.py:114-134 | over distinct zone names covering every record's zone, the rows add up to the records: each record is placed exactly once |
| CadReader.GroupKeysCover | core/cad_reader.py:106-123 | the group keys are distinct and cover every zone a record can get |
| CadReader.CadReader.constructor | core/cad_reader.py:11-14 | no drawing open |
| CadReader.CadReader.OpenFile | core/cad_reader.py:16-24 | true iff the file reads, which opens it; a failed read leaves the reader as it was |
| CadReader.CadReader.CloseFile | core/cad_reader.py:26-30 | forgets an open drawing |
| CadReader.CadReader.ExtractRebarTexts | core/cad_reader.py:32-66 | nothing without a drawing, else the records of the TEXT entities and then of every MTEXT line |
| CadReader.CadReader.GetRebarTables | core/cad_reader.py:68-79 | nothing without a drawing, else the frames of its polylines |
| CadReader.CadReader.ProcessDrawing | core/cad_reader.py:97-140 | None without a drawing; else the grouping of the extracted records over the frames |
| CadReader.ExtractFrom | core/cad_reader.py:39-62 | the two scanning loops give the records of the texts in order |
| Converter.FirstHit | test.py:1397 | `re.search`: the first position where the pattern matches; None iff it matches nowhere |
| Converter.RunAfter | test.py:1397 | the digit run right after a marker, non-empty when a digit follows |
| Converter.SearchMarker | test.py:1397-1403 | the digits after the first `#` or `D` followed by a digit; None iff there is none |
| Converter.SearchCount | test.py:1441 | the digits after the first separator of `[xX×*-]` followed by a digit; None iff there is none |
| Converter.MmAt | test.py:1414 | a match of `\d+(?:\.\d+)?\s*mm` gives the integer digits and the fraction digits |
| Converter.SearchMm | test.py:1414-1416 | None iff the millimetre pattern matches nowhere |
| Converter.ScanDigits | test.py:1426 | the group `\d+(?:\+\d+)*`: '+'-separated digit runs spelling a prefix of the text, present iff it starts with a digit |
| Converter.LengthCountAt | test.py:1426 | a match gives digit length tokens and count digits |
| Converter.SearchLengthCount | test.py:1426 | the first length-and-count match; None iff there is none |
| Converter.Values | test.py:1430-1431 | each token's value, in order |
| Converter.NearKey | test.py:1407-1410 | the key of the first entry within 0.1 of the size; None iff there is none |
| Converter.FirstNear | test.py:1407-1410 | the loop with its `break` finds that key |
| Converter.ExtractRebarInfo | test.py:1370-1448 | the loop's locals end as the designation, count, total length and segments the searches define |
| Converter.FindNumber | test.py:1396-1421 | the designation from `#n`, else a `D` size, else a `mm` size, else "" |
| Converter.EmptyText | test.py:1386-1387 | the all-None tuple exactly for empty text |
| Converter.CalloutRoundTrip | test.py:1425-1435 | round trip: `#n-L1+...+Lkxc` is read back as `#n`, count c, length the sum and segments the lengths |
| Converter.CalloutNumber | test.py:1397-1399 | a call-out's designation is its `#n` |
| Converter.CalloutAmounts | test.py:1426-1435 | a call-out's lengths, sum and count |
| Converter.ScanJoinDigits | test.py:1426 | round trip: digit tokens joined by '+' are scanned back |
| Converter.NoLengthCount | test.py:1426 | text without '-' and '_' has no length-and-count group |
| Converter.CountOnlyCallout | test.py:1439-1446 | `#nxc` is c bars of unknown length and no segments |
| Converter.DSizeLookup | test.py:1402-1410 | `Dd` with no `#` gives the first table key near d |
| Converter.D25ReadsAsNumber16 | test.py:1402-1410 | as written, the `D` size is compared with unit weights: `D25` reads as `#16` (see also test.py:94-112) |
| Converter.WeightNear25 | test.py:94-112 | in the unit-weight table the first value near 25 is that of `#16` |
| Converter.D13ReadsAsNothing | test.py:1402-1421 | as written, `D13`, the size of `#4`, gives no designation (see also test.py:94-112) |
| Converter.SeparatedLookup | test.py:1407-1410 | in a table whose values are more than 0.1 apart, an entry's own value finds that entry |
| Converter.NominalSeparated | test.py:94-112 | the nominal diameters are more than 0.1 apart |
| Converter.DSizeReadsAsNominal | test.py:1402-1410 | searching the nominal diameters instead, every `D` size reads as its own number (see also test.py:94-112) |
| Converter.PyInt | test.py:488 | `int(s)` drops surrounding whitespace and reads the rest as `IntOf` does; blank text fails |
| Converter.IntOf | test.py:488 | succeeds exactly for an optional sign followed by digits grouped by single underscores; the value is that of the digits with the underscores dropped, negated after '-' |
| Converter.Ungrouped | test.py:488 | dropping the underscores leaves only digits, taken from the numeral, and leaves a plain digit string unchanged |
| Converter.GroupedValue | test.py:488 | `int("1_0") == 10` |
| Converter.MisgroupedRefused | test.py:488 | a leading, trailing or doubled underscore makes `int` fail |
| Converter.GradeByValue | test.py:485-496 | after a '#', the grade follows the integer `int` reads, however it is spelt |
| Converter.GroupedGrade | test.py:485-496 | `#1_0` is graded SD420, as bar 10 |
| Converter.PyIntOfNat | test.py:485-499 | `int(str(n)) == n` |
| Converter.TestGrade | test.py:485-499 | one of SD280, SD420, SD490 |
| Converter.TestGradeOf | test.py:485-499 | `#n` grades SD280 up to 6, SD420 up to 10, SD490 above; anything else SD280 |
| Converter.PySqrt | test.py:1344-1349 | `math.sqrt` succeeds iff the argument is non-negative, with a root whose square is it, else ValueError |
| Converter.SquaredDistance3 | test.py:1344-1349 | the 3-D squared distance is non-negative |
| Converter.LineLengthAsWritten | test.py:1344-1349 | raises iff the points are not both 3-D and the second has a negative third coordinate |
| Converter.FlatLineLengthZero | test.py:1344-1349 | as written, two 2-D points are at distance 0 |
| Converter.LineLengthIntended | test.py:1344-1349 | the distance the docstring describes is non-negative |
| Converter.LineLengthIntendedAgrees | test.py:1344-1349 | it agrees with the code on 3-D points and with the 2-D helper on planar ones |
| Converter.PolylineAsWritten | test.py:1351-1366 | fewer than two points give 0 |
| Converter.PolylineLength | test.py:1351-1366 | the loop gives the sum over consecutive points or the first error |
| Converter.PolylineRaisesOn | test.py:1351-1366 | once a prefix raises, the whole polyline raises the same error |
| Converter.FlatPolylineZero | test.py:1351-1366 | as written, a polyline of 2-D points has length 0 |
| Converter.TestWeight | test.py:1492-1509 | 0 when the designation has no unit weight or the length is None |
| Converter.TestWeightAgrees | test.py:1492-1509 | with the same unit weights it is the processors' formula with the length in centimetres (see also core/processors/base_processor.py:54-57) |
| Converter.AsciiRebar | test.py:1513-1570 | a dash for no segments |
| Converter.MiddleLabelCentred | test.py:1540-1570 | a short middle caption sits inside the bar's width, centred over the line, on an otherwise blank first line |
| Converter.StraightLabelCentred | test.py:1531-1538 | one segment: its caption centred over the ten-character line |
| Converter.EnhancedDiagram | test.py:228-271 | the drawer chosen by segment count (1, 2, 3, more), and the ASCII sketch exactly when graphics are off or the drawer raises |
| Converter.DiagramKeepsSegments | test.py:228-271 | every drawer is given the segments in order and the designation |
| Converter.TestFileSize | test.py:1032-1052 | always a size with a unit |
| Converter.TestFileSizeAgrees | test.py:1032-1052 | below a terabyte it agrees with the helper module's formatter (see also utils/helpers.py:10-21) |
| Converter.TestTimeAgrees | test.py:1135-1155 | the same unit, minutes and hours as the helper module's `format_time` (see also utils/helpers.py:23-35) |
| ShapeCommon.DegreesOfRadians | utils/graphics/shapes/bent.py:22 | converting degrees to radians and back gives the degrees |
| Straight.Clamp | utils/graphics/shapes/straight.py:26 | the length clamped to [100, 2000], unchanged inside it |
| Straight.RatioBounds | utils/graphics/shapes/straight.py:21-26 | the canvas share stays within [0.3, 0.9], reaching 0.3 at 100 and below and 0.9 at 2000 and above |
| Straight.RatioMonotone | utils/graphics/shapes/straight.py:26 | a longer bar never gets a shorter line |
| Straight.ProfessionalCentred | utils/graphics/shapes/straight.py:26-35 | the line's ends are equally far from the canvas edges and the length is written at the canvas middle |
| Straight.Basic | utils/graphics/shapes/straight.py:43-54 | a line from the origin along +x with the designation over its middle |
| Straight.DrawStraight | utils/graphics/shapes/straight.py:7-14 | ValueError iff basic mode without settings; otherwise the professional or the basic drawing |
| LShape.ProfessionalLayout | utils/graphics/shapes/l_shape.py:16-35 | the two legs meet at a right angle, 80 and 220 long, centred on the canvas |
| LShape.ProfessionalFixed | utils/graphics/shapes/l_shape.py:20-35 | only the labels depend on the lengths |
| LShape.BasicCorner | utils/graphics/shapes/l_shape.py:42-59 | the basic legs meet at the corner (length1, 0) |
| LShape.DrawL | utils/graphics/shapes/l_shape.py:7-14 | ValueError iff basic mode without settings; otherwise the professional or the basic drawing |
| NShape.DrawN | utils/graphics/shapes/n_shape.py:7-33 | three lines and three labels, the lengths in order |
| NShape.NLayout | utils/graphics/shapes/n_shape.py:11-28 | fixed vertices (30,20), (30,52), (110,52), (110,84) whatever the lengths |
| UShape.Vertices | utils/graphics/shapes/u_shape.py:36-54 | four vertices |
| UShape.LegsEqual | utils/graphics/shapes/u_shape.py:46-54 | both legs are drawn with the first length's scaled size; the third length only shares in the scale |
| UShape.VerticesFit | utils/graphics/shapes/u_shape.py:31-54 | for positive lengths every vertex lies inside the margins |
| UShape.BasicClosed | utils/graphics/shapes/u_shape.py:70-93 | the basic drawing is a closed rectangle |
| UShape.DrawU | utils/graphics/shapes/u_shape.py:7-24 | a symmetric U (within 0.001) is drawn here, basic mode needing settings; a stepped one goes to the complex drawer with no angles, or without one to the professional U |
| UShape.SteppedProfessionalRaises | utils/graphics/shapes/u_shape.py:17-20 | a stepped U handed to the complex drawer in professional mode always raises (see also utils/graphics/shapes/complex_shape.py:31-32) |
| Bent.LengthsCaps | utils/graphics/shapes/bent.py:42 | the groups are designation digits and two number tokens |
| Bent.ParseBent | utils/graphics/shapes/bent.py:35-47 | None when the lengths pattern is found nowhere |
| Bent.ParseBentRoundTrip | utils/graphics/shapes/bent.py:35-47 | round trip: `折a#n-L1+L2` followed by anything not continuing L2 reads back as a, L1, L2 |
| Bent.AngleRead | utils/graphics/shapes/bent.py:39-40 | the angle after a leading '折' is read back |
| Bent.LengthsFound | utils/graphics/shapes/bent.py:42 | the search finds the lengths right after the angle |
| Bent.LengthsMatch | utils/graphics/shapes/bent.py:42 | the lengths pattern matches `#n-L1+L2` with those groups |
| Bent.LengthsRender | utils/graphics/shapes/bent.py:42 | the pattern spells `#n-L1+L2` for its three groups |
| Bent.BentLayout | utils/graphics/shapes/bent.py:14-27 | the first segment is horizontal and 120 long whatever the lengths, and a 180-degree bend continues it straight |
| ComplexShape.Walk | utils/graphics/shapes/complex_shape.py:23-66 | one point more than segments, starting at the start |
| ComplexShape.Lines | utils/graphics/shapes/complex_shape.py:41-44 | one line per segment |
| ComplexShape.WalkPrefix | utils/graphics/shapes/complex_shape.py:34-66 | walking a prefix visits a prefix of the points |
| ComplexShape.AdvanceDir | utils/graphics/shapes/complex_shape.py:26-39 | an even segment moves right by its scaled length, an odd one down |
| ComplexShape.Staircase | utils/graphics/shapes/complex_shape.py:26-66 | segment i goes from point i to point i + 1, right when i is even and down when odd, and the line drawn joins them |
| ComplexShape.AngleText | utils/graphics/shapes/complex_shape.py:59-62 | an angle is written only past the first segment, when given and not 90 |
| ComplexShape.DrawProfessional | utils/graphics/shapes/complex_shape.py:34-94 | the drawing loop gives the staircase, its texts, the designation and the information caption |
| ComplexShape.DiameterOf | utils/graphics/shapes/complex_shape.py:75 | the caption's diameter is the table's for a listed designation and 12.7 otherwise |
| ComplexShape.MaxX | utils/graphics/shapes/complex_shape.py:79-81 | the largest x among the points: no point lies right of it and one point has it |
| ComplexShape.MaxY | utils/graphics/shapes/complex_shape.py:80-82 | the largest y among the points: no point lies above it and one point has it |
| ComplexShape.WalkMonotone | utils/graphics/shapes/complex_shape.py:34-66 | with non-negative lengths every point of the staircase lies left of its last point and no higher than its start |
| ComplexShape.InfoCorner | utils/graphics/shapes/complex_shape.py:79-83 | the caption is placed 30 right of the staircase's end, level with its start |
| ComplexShape.RightAngleTexts | utils/graphics/shapes/complex_shape.py:45-62 | with only right angles, exactly one text per segment, its length, above a horizontal segment or right of a vertical one |
| ComplexShape.PadAngles | utils/graphics/shapes/complex_shape.py:31-32 | a short list is padded with 90s up to one fewer than the segments, keeping its own entries |
| ComplexShape.DrawComplex | utils/graphics/shapes/complex_shape.py:7-32 | professional mode without its helpers (an empty diameter table) raises ValueError, with no angles TypeError; basic mode raises iff there are no segments |
| ComplexShape.IntendedNoAngles | utils/graphics/shapes/complex_shape.py:31-94 | with every missing bend taken as 90 the professional drawing never raises and shows only the lengths, the designation and the caption |
| Stirrup.HookLength | utils/graphics/shapes/stirrup.py:6-8 | the table's hook length, 15 for an unknown designation |
| Stirrup.KindsDrawn | utils/graphics/shapes/stirrup.py:23-95 | as written, every known kind raises TypeError at its first dimension line and an unknown kind draws only the '?'; the geometry of the known kinds: closed kinds draw the rectangle with hooks at its top corners |
| Stirrup.Bind | utils/graphics/shapes/common.py:17-18 | binding a call's arguments fails with TypeError, and always when a keyword names a parameter already filled by position; a successful binding fills every required parameter and only known ones |
| Stirrup.BindAll | utils/graphics/shapes/stirrup.py:48-49 | a run of calls succeeds exactly when each binds; a failure is a TypeError |
| Stirrup.OffsetTwice | utils/graphics/shapes/stirrup.py:48 | the width dimension call fills `offset` by position with the label and names it again, so it raises TypeError |
| Stirrup.IntendedCallsBind | utils/graphics/shapes/common.py:17-18 | passing the label, settings and offset by name binds both dimension calls |
| Stirrup.IntendedDrawn | utils/graphics/shapes/stirrup.py:23-95 | with the dimension calls corrected the stirrup is drawn, with lines exactly for the known kinds |
| Stirrup.WallHookAngle | utils/graphics/shapes/stirrup.py:29-45 | a wall tie and a column tie differ only in the hook angle, 90 against 45 degrees |
| Stirrup.GroundHook | utils/graphics/shapes/stirrup.py:38-41 | the ground tie's right hook goes up by the hook length and back left by the same |
| Stirrup.USymmetric | utils/graphics/shapes/stirrup.py:51-54 | the U tie is open at the top and mirror-symmetric about x = w/2 |
| Stirrup.HalfTieZ | utils/graphics/shapes/stirrup.py:77-88 | the half tie is a Z: a half turn about the box centre traces it backwards and swaps its hooks |
| Stirrup.LTie | utils/graphics/shapes/stirrup.py:60-71 | the L tie runs down the left and along the bottom, its straight hook continuing the bottom leg |
| Manager.Diameter | utils/graphics/manager.py:39-43 | every diameter the table gives, and the 12.7 mm default, is positive |
| Manager.Multiplier | utils/graphics/manager.py:46-50 | every bend-radius multiplier, and the default 4, is at least 3 |
| Manager.BendRadius | utils/graphics/manager.py:104-108 | the bend radius (diameter times multiplier) is positive |
| Manager.BendRadiusDefaults | utils/graphics/manager.py:104-108 | both tables cover exactly #2 to #14, and an unknown designation gets 12.7 × 4, the radius of a #4 bar |
| Manager.BendRadiusStep | utils/graphics/manager.py:39-50 | each size in the table has a strictly larger bend radius than the one before |
| Manager.BendRadiusGrows | utils/graphics/manager.py:39-50 | the bend radius grows strictly from #2 to #14 |
| Manager.Grade | utils/graphics/manager.py:110-117 | SD280 exactly for the texts #2 to #6, SD420 exactly for #7 to #10, SD490 otherwise |
| Manager.DesignationValue | utils/graphics/manager.py:110-117 | the digits after '#' determine the bar number uniquely |
| Manager.ListedSize | utils/graphics/manager.py:112-115 | only #2 to #6 and #7 to #10 are in the two grade lists |
| Manager.GradeOf | utils/graphics/manager.py:110-117 | `#n` is SD280 for n in 2..6, SD420 for 7..10, SD490 for every other n including #0 and #1 |
| Manager.UnhashedGrade | utils/graphics/manager.py:116-117 | text that does not start with '#' is SD490 |
| Manager.GradeVersionsDiffer | utils/graphics/manager.py:110-117 | this grade and the converter's agree on `#n` exactly when n ≥ 2; text without '#' is SD490 here and SD280 there |
| Manager.AsciiShape | utils/graphics/manager.py:119-148 | the sketch is empty exactly for no segments or one segment under 10; one segment gives `min(int(L)//10, 20)` dashes; 4 or more segments all give the same fixed art |
| Manager.RightJust | utils/graphics/manager.py:177 | `:>4` pads with spaces on the left to the width and keeps the text as its suffix |
| Manager.FormulaSnoc | utils/graphics/manager.py:178-181 | adding a segment appends " + " and its whole length to the formula |
| Manager.FormulaConcat | utils/graphics/manager.py:175-181 | the formula of two runs is their formulas joined by " + " |
| Manager.SegmentInfoLast | utils/graphics/manager.py:175-177 | the line of segment i, lettered chr(65+i), ends the first i+1 segment lines |
| Manager.CreateDetailedDescription | utils/graphics/manager.py:150-215 | the loop builds the same lines and formula as the one-pass definition of the description |
| Manager.FloorOfMultiple | utils/graphics/manager.py:207 | floor-dividing m·d by a positive d gives m |
| Manager.RadiusRatio | utils/graphics/manager.py:207 | the "minimum bend radius = k × D" line shows the designation's multiplier (4 when unknown) |
| Manager.BendCount | utils/graphics/manager.py:158-170 | one segment has no bend, otherwise the description counts one bend fewer than segments |
| Manager.Positive | utils/graphics/manager.py:240 | the kept segments are exactly the positive ones |
| Manager.PositiveConcat | utils/graphics/manager.py:240 | filtering keeps the segments' order |
| Manager.GenerateDiagram | utils/graphics/manager.py:217-275 | whenever the dispatch raises, the result is the ASCII sketch of the unfiltered segments; otherwise it is the dispatch's result |
| Manager.StirrupFirst | utils/graphics/manager.py:222-227 | a '箍' shape type with ≥2 segments goes to the stirrup drawer with the first two segments, before every other rule; outside professional mode, and for every known kind in it, the result is the sketch of the segments; only an unknown kind in professional mode gives the '?' picture |
| Manager.SteppedRaises | utils/graphics/manager.py:240-270 | past the stirrup and bent rules, a stepped U or four or more segments without angles raise in professional mode |
| Caption.CaptionFigures | utils/graphics/shapes/complex_shape.py:77-78 | for 100/50/100/50 the total reads 300 and the lengths `100 + 50 + 100 + 50` |
| Caption.CaptionGrade | utils/graphics/shapes/complex_shape.py:76 | with the manager's grade function #4 is SD280 and an unknown designation SD490 |
| Caption.CaptionDiameter | utils/graphics/shapes/complex_shape.py:75 | with the manager's diameters #4 and an unknown designation both show 12.7 |
| Caption.CaptionKnown | utils/graphics/shapes/complex_shape.py:74-94 | the caption for #4 and 100/50/100/50: D12.7mm, SD280, 300cm, the joined lengths, 4段, 階梯 |
| Caption.CaptionUnknown | utils/graphics/shapes/complex_shape.py:74-94 | the caption for a designation outside the tables: D12.7mm and SD490, then the same figures |
| Manager.BentWhenParsed | utils/graphics/manager.py:229-237 | a `折` designation is drawn bent exactly when it parses; a parse error gives the sketch; no parse and no segments gives None |
| Manager.DispatchByCount | utils/graphics/manager.py:236-261 | no positive segment gives None; `N#` with 3 positive segments is the N shape in every mode; ascii mode sketches the positive segments; 1 and 2 segments go to the straight and L drawers |
| Manager.SteppedFallsBack | utils/graphics/manager.py:262-275 | a stepped U or ≥4 segments in professional mode without angles raises inside the complex drawer, and the ASCII sketch is returned |
| BaseGenerator.FirstWithPrefix | utils/graphics/generators/base_generator.py:27-33 | a material is returned only if it is in the list and starts with the prefix; None exactly when no listed material does |
| BaseGenerator.FirstWithPrefixIsFirst | utils/graphics/generators/base_generator.py:30-32 | no material listed before the one returned has the prefix |
| BaseGenerator.FindMaterial | utils/graphics/generators/base_generator.py:27-33 | the search loop returns the first listed material with the prefix, or None |
| BaseGenerator.SvgPath | utils/graphics/generators/base_generator.py:35-37 | the path is the materials directory, then the material, then `graphic-material.svg` |
| BaseGenerator.CentredTextBalance | utils/graphics/generators/base_generator.py:62-67 | starting at `x - w // 2` centres the text on x to within one pixel, the extra pixel on the right |
| BaseGenerator.LocateSvg | utils/graphics/generators/base_generator.py:39-47 | the generators go on only with a material found and an SVG that exists and parses; None otherwise |
| Type18Generator.SpanFacts | utils/graphics/generators/type18_generator.py:83-87 | the span is at most 180 degrees, 90 when the radius is not positive, and `degrees(length/radius)` when that is at most 180 |
| Type18Generator.ArcLayout | utils/graphics/generators/type18_generator.py:74-150 | one arc, from `-span/2` to `span/2`, in a box centred at (400, 200), 2·radius wide and 2·radius (scaled: 2·radius·400/600) high; the length caption at `200 - radius - 50`, the radius caption at `200 + radius + 30` |
| Type18Generator.GenerateImage | utils/graphics/generators/type18_generator.py:19-72 | None exactly when no `18-` material or no parsable SVG is found; otherwise the arc drawn from the SVG when it has a path, else the default arc |
| Type19Generator.SpanFacts | utils/graphics/generators/type19_generator.py:92-93 | the span is 90 degrees when the radius is not positive and is not capped: an arc longer than half its circle spans over 180 degrees |
| Type19Generator.StraightArcLayout | utils/graphics/generators/type19_generator.py:76-175 | the straight run is fixed from x = 50 to 550 at y = 375 (250 scaled) whatever the lengths; the arc runs from 0 to the span around a centre straight above the run's end by the (scaled) radius |
| Type19Generator.GenerateImage | utils/graphics/generators/type19_generator.py:19-74 | None exactly when no `19-` material or no parsable SVG is found; otherwise the SVG drawing when it has a line and a path, else the default drawing |
| Generators.DefaultKeys | utils/graphics/generators/__init__.py:13-19 | the registry's keys are exactly type10, type11, type12, type18, type19, in that order and distinct |
| Generators.Registry.constructor | utils/graphics/generators/__init__.py:13-19 | the module registry starts with the five generators |
| Generators.GetGenerator | utils/graphics/generators/__init__.py:21-23 | None exactly for an unregistered key; otherwise the generator registered under the key |
| Generators.GetGeneratorDefault | utils/graphics/generators/__init__.py:13-23 | on the initial registry each of the five keys finds its own generator and every other key finds None |
| Generators.Run | utils/graphics/generators/type18_generator.py:19-39 | an arc generator gives a picture only when called with its exact arguments and its material and SVG are found |
| Generators.DesignationIgnored | utils/graphics/generators/type18_generator.py:19-41 | the arc generators' result does not depend on the designation argument, which they never read |
| ImageManager.ImageFor | utils/graphics/manager_new.py:32-45 | an unregistered type gives None; a registered one gives its generator's result on the manager's materials |
| ImageManager.ArcNeedsMaterial | utils/graphics/generators/type18_generator.py:22-26 | on the initial registry an arc picture is None when no material is named `18-...` |
| ImageManager.GraphicsManager.constructor | utils/graphics/manager_new.py:12-16 | the manager holds the shared registry itself and the scanned materials |
| ImageManager.GraphicsManager.GenerateRebarImage | utils/graphics/manager_new.py:32-45 | looks the type up in the shared registry and always passes the manager's materials |
| ImageManager.GraphicsManager.GenerateType10Image | utils/graphics/manager_new.py:48-50 | forwards the length and designation as a type10 call |
| ImageManager.GraphicsManager.GenerateType11Image | utils/graphics/manager_new.py:52-54 | forwards the length and designation as a type11 call |
| ImageManager.GraphicsManager.GenerateType12Image | utils/graphics/manager_new.py:56-58 | forwards segments, angles and designation as a type12 call |
| ImageManager.GraphicsManager.AddGenerator | utils/graphics/manager_new.py:60-62 | sets the key in the shared registry; the key then finds the generator and every other key is unchanged |
| ImageManager.GraphicsManager.RemoveGenerator | utils/graphics/manager_new.py:64-67 | deletes the key only if present; afterwards it is not found and every other key is unchanged |
| ImageManager.GraphicsManager.GetSupportedTypes | utils/graphics/manager_new.py:69-71 | the registry's keys, in order |
| ImageManager.GraphicsManager.ListAvailableMaterials | utils/graphics/manager_new.py:73-75 | a copy of the materials list, equal to it, which the caller cannot use to change the manager |
| ImageManager.SharedRegistry | utils/graphics/manager_new.py:16 | a generator added through one manager is found by another on the same registry, and a removal through either is seen by both |
| AsciiCanvas.MaxInts | utils/graphics.py:130 | `max` is an element and at least every element |
| AsciiCanvas.Blank | utils/graphics.py:133 | the grid has the given rows, each the given width, all spaces |
| AsciiCanvas.Put | utils/graphics.py:141 | writing a cell succeeds exactly when both indices are valid under Python's negative indexing, else IndexError; the shape is kept and only that cell changes |
| AsciiCanvas.Stroke | utils/graphics.py:140-146 | a stroke keeps the grid's shape, writes only its character, and marks each of its cells |
| AsciiCanvas.VerticalStrokeRaises | utils/graphics.py:145-146 | a vertical stroke fails exactly when it starts below the last row or climbs more than the row count above row 0 |
| AsciiCanvas.Walk | utils/graphics.py:137-147 | the only failure is an IndexError, and the grid keeps its shape |
| AsciiCanvas.Render | utils/graphics.py:122-150 | no segments give ""; the only failure is an IndexError |
| AsciiCanvas.RenderShape | utils/graphics.py:129-133 | a successful drawing has `max + 2` rows, each `sum` characters wide |
| AsciiCanvas.WrapsToBottom | utils/graphics.py:143-150 | a bar that starts on row 0 wraps to the bottom row: [3, 2] draws three dashes and bars on the first and last rows |
| AsciiCanvas.DropPastGridRaises | utils/graphics.py:146 | [0, 4, 0, 4] climbs past the 6-row grid and raises IndexError |
| AsciiCanvas.DrawStroke | utils/graphics.py:140-146 | the cell-by-cell loop of one segment does what `Stroke` describes |
| AsciiCanvas.DrawAsciiRebar | utils/graphics.py:122-150 | the nested loops over the in-place grid give `Render`'s result |
| AsciiCanvas.DependenciesShape | utils/graphics.py:14-40 | success is a bare True and failure the truthy pair (False, missing) naming exactly the missing packages |
| ExcelWriterBase.Positives | core/excel_writers/base_excel_writer.py:56-60 | the kept letter values are all positive, every positive one is kept, and nothing else |
| ExcelWriterBase.PositivesConcat | core/excel_writers/base_excel_writer.py:50-60 | the letters are read in A to E order |
| ExcelWriterBase.SegmentsOf | core/excel_writers/base_excel_writer.py:43-64 | the lookup raises TypeError exactly when nothing before the length gives segments and the length is None |
| ExcelWriterBase.GetRebarSegments | core/excel_writers/base_excel_writer.py:43-64 | the loop over the field names gives `SegmentsOf` |
| ExcelWriterBase.SegmentSources | core/excel_writers/base_excel_writer.py:45-64 | a non-empty segments list wins; then a lengths list; then the positive A..E values in order; the result is empty exactly when all those are empty and the length is absent or not positive |
| ExcelWriterBase.TextDescription | core/excel_writers/base_excel_writer.py:29-41 | the description fails exactly when the segment lookup does |
| ExcelWriterBase.JoinPlusShort | core/excel_writers/base_excel_writer.py:37-41 | for two and three segments the general " + " join equals the fixed forms |
| Common.ShowWhole | utils/graphics/shapes/complex_shape.py:77-78 | `str(int(x))` of a whole number of centimetres is its decimal numeral |
| Common.SumJoinFour | utils/graphics/shapes/complex_shape.py:77-78 | four segments sum and join in order |
| ExcelWriterBase.DescriptionLayout | core/excel_writers/base_excel_writer.py:29-41 | shape name by count (1 straight, 2 L, 3 U, other complex), the designation ('#4' by default), then the lengths |
| ExcelWriterBase.ExcelWriter.constructor | core/excel_writers/base_excel_writer.py:13-17 | graphics are available exactly when a manager is given; no temporary files yet |
| ExcelWriterBase.ExcelWriter.SaveImageToTemp | core/excel_writers/base_excel_writer.py:66-73 | no image: None and the list unchanged; an image: its fresh path returned and appended |
| ExcelWriterBase.ExcelWriter.CleanupTempFiles | core/excel_writers/base_excel_writer.py:75-84 | every remembered file that exists is removed, in order, and the list ends empty |
| ExcelWriterBase.Existing | core/excel_writers/base_excel_writer.py:77-80 | the removed files are exactly the remembered ones that exist |
| ExcelWriterBase.SaveThenCleanup | core/excel_writers/base_excel_writer.py:66-84 | an image saved on a fresh writer is removed by the next cleanup when it still exists |
| ImageOcr.IsNumericText | utils/image_ocr.py:188-192 | true exactly for non-empty text made only of digits, '.' and '-' |
| ImageOcr.NoStructureCheck | utils/image_ocr.py:191-192 | "1-." and "--" are accepted; "", "#5" and "1 2" are not |
| ImageOcr.FilterMap | utils/image_ocr.py:162-180 | the filter keeps no more entries than it is given |
| ImageOcr.FilterMapSnoc | utils/image_ocr.py:162-180 | one more entry adds its result at the end exactly when it is kept |
| ImageOcr.FilterMapConcat | utils/image_ocr.py:162-180 | filtering two runs gives their results one after the other |
| ImageOcr.FilterMapExact | utils/image_ocr.py:162-180 | a result is in the output exactly when some kept entry produces it |
| ImageOcr.Readings | utils/image_ocr.py:162-180 | no more readings than OCR rows |
| ImageOcr.ReadingsConcat | utils/image_ocr.py:162-180 | readings keep the OCR order |
| ImageOcr.ReadingsExact | utils/image_ocr.py:163-178 | a reading comes from a row whose stripped text is non-empty, `int(conf) > 60` and numeric, with bbox (left, top, left+width, top+height), and each such row gives one |
| ImageOcr.ReadingsSound | utils/image_ocr.py:167-169 | every reading is numeric text with confidence over 60 |
| ImageOcr.KeepRow | utils/image_ocr.py:163-169 | the tests on one row are exactly the keep rule |
| ImageOcr.ExtractNumbers | utils/image_ocr.py:162-180 | the loop gives `Readings` of the rows |
| ImageOcr.AllReadingsConcat | utils/image_ocr.py:202-222 | each image is handled on its own: two runs of images give their results one after the other |
| ImageOcr.UnloadableSkipped | utils/image_ocr.py:204-206 | an image that fails to load adds nothing; a loaded one adds its readings tagged with its details |
| ImageOcr.AppendTagged | utils/image_ocr.py:212-222 | the inner loop appends the image's readings, each tagged, in order |
| ImageOcr.ProcessDxfImages | utils/image_ocr.py:194-227 | the loop over the images gives `AllReadings` |

## Left out

- The GUI and threads (the window modules, `main.py` and the Tk parts of `test.py`): event loops and widget state, not logic.
- Spreadsheet writing (core/excel_writer.py and the per-type writers): openpyxl output, outside this model. Only the shared base writer's logic is modelled.
- Drawing calls: matplotlib and PIL calls, `figure_to_base64`, the drawing done by `draw_dimension_line`, `save_figure_as_file`, `save_image`, and the base generator's `create_base_image` and `get_font`. The model returns the points, arcs and captions that would be drawn, and binds the arguments of the stirrup drawer's `draw_dimension_line` calls. Font sizes, colours, boxes and the plot limits are not modelled.
- Imports: the model assumes the graphics modules import. As written, utils/graphics/manager.py:21-30 imports `draw_stirrup` from the shapes package, whose utils/graphics/shapes/__init__.py:5-10 does not export it, and utils/graphics/shapes/stirrup.py:3 imports `set_plot_limits`, which utils/graphics/shapes/common.py does not define. Either raises ImportError when the manager module is loaded.
- Common.OneDecimal: `str` of a float is written out only for values with at most one decimal place, which holds for every diameter in the manager's table.
- The type10, type11 and type12 image generators: they draw fixed or SVG-read coordinates. Calls to them are the `others` parameter of `Generators.Run`.
- `quick_draw_rebar`, `create_graphics_manager` and `test_graphics_manager` in utils/graphics/manager.py: a factory and demonstrations around the modelled dispatcher.
- The `check_dependencies` in utils/graphics/manager.py:77-102 is a copy of the one in utils/graphics.py. Only the latter is modelled, by `AsciiCanvas.DependenciesShape`. Both modules import matplotlib at load time, so in practice the failure branch cannot be reached.
- File, DXF and image I/O: ezdxf, the materials-directory scan, SVG parsing, image loading, OpenCV preprocessing, Tesseract, `tempfile`, `os.path.exists`, `os.remove` and `time.time`. Their results are parameters: entity lists, material names, `SvgFile` values, OCR rows, fresh paths, an "on disk" predicate and clock readings.
- The configuration tables (unit weights, diameters, grades, hook lengths) are parameters. Only the tables printed in `test.py` and utils/graphics/manager.py are constants.
- Floating point: numbers are reals. Rounding, `round`, and the `:.1f`/`:.2f` formats are not modelled. Where the source prints a number, the model states which unit or branch is chosen.
- `cos`, `sin`, `sqrt` and `π` are parameters constrained only by the facts used (cos 0 = 1, sin 0 = 0, sqrt of a square).
- Python's `\d` also matches non-ASCII decimal digits. The scanners accept ASCII digits only.
- OCR confidences are reals truncated by `int`. A confidence string that `int` rejects is not modelled.
- ExcelWriterBase.Rebar: an absent `rebar_number` and one present as None are both `None`, so the model prints `#4` where Python would print `None`. Letter values are numbers; comparing a non-number with 0 is not modelled.
- AsciiCanvas.DrawAsciiRebar: segments are integers, which `range(length)` requires. A float segment raises TypeError in the source and is not modelled.
- CadReader.PointInPolygon: the `1e-12` guard does not prevent a zero denominator. A polygon edge from (0, 1e-12) to (0, 0), for the point (0, 0), divides by zero (`CadReader.ZeroDenominatorExample`), and `process_drawing`'s handler then returns None. This is modelled as the source behaves. No corrected version is given, because the evident intent is unclear.
- Manager.CreateDetailedDescription: requires fewer than 55231 segments, so that `chr(65 + i)` stays below the surrogate range that Dafny's `char` excludes.
- ImageOcr.FilterMap: its own contract bounds only the length; what it keeps is stated by `ImageOcr.FilterMapExact` and its order by `ImageOcr.FilterMapConcat`.
- ImageOcr.Readings: its own contract bounds only the length; content and order are stated by `ImageOcr.ReadingsExact`, `ImageOcr.ReadingsSound` and `ImageOcr.ReadingsConcat`.
- Bent.ParseBent: its own contract states only the None case; the parse of a well-formed designation is `Bent.ParseBentRoundTrip`.
- AsciiCanvas.Render: its own contract states only the empty case and the kind of error; the drawn text is stated by `AsciiCanvas.RenderShape`, `AsciiCanvas.WrapsToBottom` and `AsciiCanvas.DropPastGridRaises`.
- ExcelWriterBase.TextDescription: its own contract states only when it fails; the text is stated by `ExcelWriterBase.DescriptionLayout`.

## Findings

| source | as written | input that shows it | evidently intended | confidence | as-written member | corrected member |
|---|---|---|---|---|---|---|
| core/rebar_processor.py:115 | the file's non-ASCII literals are stored double-encoded, so the hooked pattern starts with three other characters instead of `安`, and the bent pattern's `°` is also garbled | `安#3-390x40` gives None; `V113°#10-900+200x2` gives None | the hooked and bent call-outs parse as in the modular processors | not executed | LegacyRebarProcessor.HookedCalloutLost | LegacyRebarProcessor.IntendedAgrees |
| core/processors/__init__.py:11-15 | the registry holds only type10, type11 and type12, so arc call-outs are never dispatched | `弧450#10-700x1` gives None | radius 450, #10, length 700, count 1, as test_type18.py:18-22 expects | not executed | RebarProcessorNew.ArcTextUnparsed | RebarProcessorNew.ArcTextParsedWithAll |
| test.py:1402-1410 | a `D` size is looked up among the unit weights (kg/m), not the diameters | `D25` reads as `#16`; `D13` reads as nothing | `D25` is `#8` and `D13` is `#4` | not executed | Converter.D25ReadsAsNumber16 | Converter.DSizeReadsAsNominal |
| test.py:1344-1349 | the conditional expression takes in the whole sum, so two 2-D points give `sqrt(0)` | (0, 0) to (3, 4) gives 0, not 5 | the planar distance for 2-D points | not executed | Converter.FlatLineLengthZero | Converter.LineLengthIntendedAgrees |
| utils/graphics/shapes/stirrup.py:48 | the label goes into `offset` by position and `offset=` is passed again by name, so `draw_dimension_line` raises TypeError; lines 57, 74 and 91 repeat the call | 地箍, width 100, height 50, professional mode: the manager returns the ASCII sketch | the offset passed once and the stirrup's lines returned | not executed | Stirrup.KindsDrawn | Stirrup.IntendedDrawn |
| utils/graphics/shapes/complex_shape.py:31-32 | when `angles` is None, `len(angles)` raises TypeError | a stepped U (100, 200, 150) or any four segments in professional mode without angles: the manager returns the ASCII sketch | missing angles are taken as 90 degrees and the staircase is drawn | not executed | UShape.SteppedProfessionalRaises | ComplexShape.IntendedNoAngles |
