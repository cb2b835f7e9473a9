// The older, monolithic `RebarProcessor` of core/rebar_processor.py: a
// spacing extractor for `#4@20`-style call-outs, a three-way cascade of the
// straight, hooked and bent patterns, and the same lookups and summary.
//
// The file is stored double-encoded: its UTF-8 bytes were once read as
// Windows-1252 and saved again, so each non-ASCII literal in it is a run of
// Latin characters (the hook prefix `安` is the three characters U+00E5
// U+00AE U+2030, the degree sign is U+00C2 U+00B0). The model takes the
// literals as a parameter: `AsWritten` holds the characters the file
// contains, `Intended` the characters its authors typed.

module LegacyRebarProcessor {
  import opened Common
  import opened Pattern
  import opened BaseProcessor
  import opened Dict
  import opened Processors
  import Summary
  import Type10Processor
  import Type11Processor
  import Type12Processor
  import RebarProcessorNew

  /** The non-ASCII literals of the file. */
  datatype Literals = Literals(hook: string, degree: string, straightNote: string, hookNote: string,
                               bentNote: string, unknownGrade: string)

  /** The literals as the file stores them (its hooked-bar note has also lost one character). */
  const AsWritten: Literals := Literals(
    "\U{e5}\U{ae}\U{2030}",
    "\U{c2}\U{b0}",
    "\U{e7}\U{203a}\U{b4}\U{e6}\U{2013}\U{2122}",
    "\U{e5}\U{ae}\U{2030}\U{e5}\U{2026}\U{a8}\U{e5}\U{bd}\U{e9}\U{2030}\U{a4}\U{e7}\U{203a}\U{b4}",
    "\U{e6}\U{160}\U{2dc}\U{e6}\U{2013}\U{2122}",
    "\U{e6}\U{153}\U{aa}\U{e7}\U{178}\U{a5}")

  /** The literals the file was written with: the same ones the per-type processors use. */
  const Intended: Literals := Literals("安", "°", "直料", "安全彎鉤直", "折料", "未知")

  // ---------------------------------------------------------------------------
  // `parse_rebar_text`: the cascade

  /** `type11_pattern`: the hook prefix, then the straight pattern. */
  function HookPattern(L: Literals): Pat
  {
    Lits(L.hook, Type10Processor.Pattern10)
  }

  /** What follows the angle and the degree sign in the bent pattern. */
  const BentTail: Pat :=
    Lit('#', Run(Digits, Lit('-', Run(Num, Lit('+', Run(Num, Lit('x', Run(Digits, End))))))))

  /** `type12_pattern`: 'V', the angle, the degree sign, then the two-length tail. */
  function BentPattern(L: Literals): Pat
  {
    Lit('V', Run(Digits, Lits(L.degree, BentTail)))
  }

  lemma HookGroups(L: Literals, caps: seq<string>)
    requires ValidCaps(HookPattern(L), caps)
    ensures Type11Processor.Groups(caps)
  {
    LitsValid(L.hook, Type10Processor.Pattern10, caps);
    Type10Processor.MatchGroups(caps);
  }

  lemma BentGroups(L: Literals, caps: seq<string>)
    requires ValidCaps(BentPattern(L), caps)
    ensures Type12Processor.Groups(caps)
  {
    LitsValid(L.degree, BentTail, caps[1..]);
    assert Type12Processor.Pattern12 == Lit('V', Run(Digits, Lit('°', BentTail)));
    assert ValidCaps(Type12Processor.Pattern12, caps);
    Type12Processor.MatchGroups(caps);
  }

  /** The note of the legacy bent record: `<bent note> <angle><degree sign>`. */
  function BentNote(L: Literals, angle: nat): string
  {
    L.bentNote + " " + NatToString(angle) + L.degree
  }

  /**
   * `parse_rebar_text`: strip, then try the straight, the hooked and the bent
   * pattern in that order; the first that matches builds the record.
   */
  function ParseRebarText(L: Literals, t: Tables, text: string): (r: Outcome<Option<RebarRecord>>)
    ensures r.Ok? && r.value.None?
            <==> MatchAt(Type10Processor.Pattern10, Strip(text)).None?
                 && MatchAt(HookPattern(L), Strip(text)).None? && MatchAt(BentPattern(L), Strip(text)).None?
    ensures r.Raises? ==> r.error == ValueError
    ensures r.Ok? && r.value.Some? ==>
              Consistent(t, r.value.value) && r.value.value.rawText == Strip(text)
              && r.value.value.rtype in ["type10", "type11", "type12"]
  {
    ParseText(L, t, Strip(text))
  }

  /** The cascade of `parse_rebar_text` after its `strip()`. */
  function ParseText(L: Literals, t: Tables, s: string): (r: Outcome<Option<RebarRecord>>)
    ensures r.Ok? && r.value.None?
            <==> MatchAt(Type10Processor.Pattern10, s).None?
                 && MatchAt(HookPattern(L), s).None? && MatchAt(BentPattern(L), s).None?
    ensures r.Raises? ==> r.error == ValueError
    ensures r.Ok? && r.value.Some? ==>
              Consistent(t, r.value.value) && r.value.value.rawText == s
              && r.value.value.rtype in ["type10", "type11", "type12"]
  {
    match MatchAt(Type10Processor.Pattern10, s)
    case Some(caps) =>
      MatchSound(Type10Processor.Pattern10, s);
      Type10Processor.MatchGroups(caps);
      var rec :- Type10Processor.ParseMatch(t, caps, s);
      Ok(Some(rec.(note := L.straightNote)))
    case None =>
      match MatchAt(HookPattern(L), s)
      case Some(caps) =>
        MatchSound(HookPattern(L), s);
        HookGroups(L, caps);
        var rec :- Type11Processor.ParseMatch(t, caps, s);
        Ok(Some(rec.(note := L.hookNote)))
      case None =>
        match MatchAt(BentPattern(L), s)
        case Some(caps) =>
          MatchSound(BentPattern(L), s);
          BentGroups(L, caps);
          var rec :- Type12Processor.ParseMatch(t, caps, s);
          Ok(Some(rec.(note := BentNote(L, DigitsValue(caps[0])))))
        case None => Ok(None)
  }

  /** With the intended literals the patterns and notes are those of the per-type processors. */
  lemma IntendedPatterns()
    ensures HookPattern(Intended) == Type11Processor.Pattern11
    ensures BentPattern(Intended) == Type12Processor.Pattern12
    ensures forall a :: BentNote(Intended, a) == Type12Processor.Note(a)
  {
  }

  /**
   * With the intended literals the cascade is the modular dispatcher on its
   * initial registry: same records, same errors, same None.
   */
  lemma IntendedAgrees(t: Tables, L: Literals, es: Entries<string, Kind>, text: string)
    requires L == Intended && es == DefaultEntries
    ensures ParseRebarText(L, t, text) == RebarProcessorNew.Dispatch(t, es, Strip(text))
  {
    StripIdempotent(text);
    var s := Strip(text);
    ParseStripped(L, t, text);
    IntendedCascade(t, L, s);
    DefaultDispatch(t, es, s);
  }

  /** The cascade strips first, so stripping beforehand changes nothing. */
  lemma ParseStripped(L: Literals, t: Tables, text: string)
    ensures ParseRebarText(L, t, text) == ParseRebarText(L, t, Strip(text))
  {
    StripIdempotent(text);
  }

  /** The three per-type processors tried in turn. */
  function Cascade(t: Tables, s: string): Outcome<Option<RebarRecord>>
  {
    if CanProcess(Type10Processor.Pattern10, s) then Type10Processor.Process(t, s)
    else if CanProcess(Type11Processor.Pattern11, s) then Type11Processor.Process(t, s)
    else if CanProcess(Type12Processor.Pattern12, s) then Type12Processor.Process(t, s)
    else Ok(None)
  }

  lemma IntendedCascade(t: Tables, L: Literals, s: string)
    requires L == Intended && Strip(s) == s
    ensures ParseRebarText(L, t, s) == Cascade(t, s)
  {
    if MatchAt(Type10Processor.Pattern10, s).Some? {
      Agrees10(t, L, s);
    } else if MatchAt(Type11Processor.Pattern11, s).Some? {
      Agrees11(t, L, s);
    } else if MatchAt(Type12Processor.Pattern12, s).Some? {
      Agrees12(t, L, s);
    } else {
      IntendedPatterns();
    }
  }

  lemma DefaultDispatch(t: Tables, es: Entries<string, Kind>, s: string)
    requires es == DefaultEntries && Strip(s) == s
    ensures RebarProcessorNew.Dispatch(t, es, s) == Cascade(t, s)
  {
    assert |es| == 3 && es[0].1 == Type10 && es[1].1 == Type11 && es[2].1 == Type12;
    DispatchKinds(t, es, s);
  }

  /** A registry of the three straight and bent kinds, in that order, dispatches as the cascade. */
  lemma DispatchKinds(t: Tables, es: Entries<string, Kind>, s: string)
    requires Strip(s) == s
    requires |es| == 3 && es[0].1 == Type10 && es[1].1 == Type11 && es[2].1 == Type12
    ensures RebarProcessorNew.Dispatch(t, es, s) == Cascade(t, s)
  {
    if CanProcess(PatternOf(Type10), s) {
      RebarProcessorNew.DispatchAgrees(t, es, s, 0);
    } else if CanProcess(PatternOf(Type11), s) {
      RebarProcessorNew.DispatchAgrees(t, es, s, 1);
    } else if CanProcess(PatternOf(Type12), s) {
      RebarProcessorNew.DispatchAgrees(t, es, s, 2);
    } else {
      RebarProcessorNew.DispatchNone(t, es, s);
      assert RebarProcessorNew.NoneAccepts(es, s);
    }
  }

  lemma Agrees10(t: Tables, L: Literals, s: string)
    requires L == Intended
    requires Strip(s) == s && MatchAt(Type10Processor.Pattern10, s).Some?
    ensures ParseRebarText(L, t, s) == Type10Processor.Process(t, s)
  {
    assert ParseRebarText(L, t, s) == ParseText(L, t, s);
    StraightProcess(L, t, s);
  }

  /** With the per-type processor's note, a straight call-out gives what that processor gives. */
  lemma StraightProcess(L: Literals, t: Tables, s: string)
    requires L.straightNote == "直料"
    requires Strip(s) == s && MatchAt(Type10Processor.Pattern10, s).Some?
    ensures ParseText(L, t, s) == Type10Processor.Process(t, s)
  {
    var caps := MatchAt(Type10Processor.Pattern10, s).value;
    assert MatchStripped(Type10Processor.Pattern10, s) == Some((caps, s));
  }

  lemma Agrees11(t: Tables, L: Literals, s: string)
    requires L == Intended
    requires Strip(s) == s && MatchAt(Type10Processor.Pattern10, s).None?
    requires MatchAt(Type11Processor.Pattern11, s).Some?
    ensures ParseRebarText(L, t, s) == Type11Processor.Process(t, s)
  {
    IntendedPatterns();
  }

  lemma Agrees12(t: Tables, L: Literals, s: string)
    requires L == Intended
    requires Strip(s) == s && MatchAt(Type10Processor.Pattern10, s).None?
    requires MatchAt(Type11Processor.Pattern11, s).None? && MatchAt(Type12Processor.Pattern12, s).Some?
    ensures ParseRebarText(L, t, s) == Type12Processor.Process(t, s)
  {
    IntendedPatterns();
  }

  /** As written, the hook prefix starts with U+00E5, so no hooked call-out is recognised. */
  lemma HookedUnparsedAsWritten(t: Tables, text: string)
    requires Strip(text) != [] && Strip(text)[0] == '安'
    ensures ParseRebarText(AsWritten, t, text) == Ok(None)
  {
    var s := Strip(text);
    MatchLits(AsWritten.hook, Type10Processor.Pattern10, s);
  }

  /** As written, the bent pattern wants U+00C2 where a call-out has its degree sign. */
  lemma BentUnparsedAsWritten(t: Tables, L: Literals, a: string, n: string, l1: string,
                              l2: string, c: string, rest: string, text: string)
    requires L == AsWritten
    requires Type12Processor.CalloutGroups(a, n, l1, l2, c)
    requires rest == [] || (!IsDigit(rest[0]) && !IsSpace(rest[|rest| - 1]))
    requires text == Type12Processor.Callout(a, n, l1, l2, c) + rest
    ensures ParseRebarText(L, t, text) == Ok(None)
  {
    var after := "°#" + n + "-" + l1 + "+" + l2 + "x" + c + rest;
    BentShapeOf(L, a, n, l1, l2, c, rest, text);
    BentNone(L, t, a, after, text);
  }

  /** A bent call-out with a tail that is not a digit has the shape above and needs no stripping. */
  lemma BentShapeOf(L: Literals, a: string, n: string, l1: string, l2: string, c: string, rest: string, text: string)
    requires L == AsWritten
    requires Type12Processor.CalloutGroups(a, n, l1, l2, c)
    requires rest == [] || (!IsDigit(rest[0]) && !IsSpace(rest[|rest| - 1]))
    requires text == Type12Processor.Callout(a, n, l1, l2, c) + rest
    ensures BentShape(L, a, "°#" + n + "-" + l1 + "+" + l2 + "x" + c + rest, text) && Strip(text) == text
  {
    BentText(a, n, l1, l2, c, rest);
    Type12Processor.CalloutStripped(a, n, l1, l2, c, rest);
  }

  /** Text `V<digits>°...`, read with the literals as written. */
  predicate BentShape(L: Literals, a: string, after: string, text: string)
  {
    L == AsWritten && a != [] && AllDigits(a) && after != [] && after[0] == '°'
    && text == "V" + (a + after)
  }

  /** As written, such text gives None. */
  lemma BentNone(L: Literals, t: Tables, a: string, after: string, text: string)
    requires BentShape(L, a, after, text) && Strip(text) == text
    ensures ParseRebarText(L, t, text) == Ok(None)
  {
    BentMisses(L, a, after, text);
    ParseNone(L, t, text);
  }

  /** As written, such text matches none of the three patterns. */
  lemma BentMisses(L: Literals, a: string, after: string, text: string)
    requires BentShape(L, a, after, text)
    ensures MatchAt(Type10Processor.Pattern10, text).None? && MatchAt(HookPattern(L), text).None?
    ensures MatchAt(BentPattern(L), text).None?
  {
    NotStraightOrHooked(L, text);
    BentMismatch(L, a, after);
  }

  /** As written, text starting with 'V' matches neither the straight nor the hooked pattern. */
  lemma NotStraightOrHooked(L: Literals, text: string)
    requires L == AsWritten && text != [] && text[0] == 'V'
    ensures MatchAt(Type10Processor.Pattern10, text).None? && MatchAt(HookPattern(L), text).None?
  {
    MatchLits(L.hook, Type10Processor.Pattern10, text);
  }

  /** Stripped text that none of the three patterns matches gives None. */
  lemma ParseNone(L: Literals, t: Tables, s: string)
    requires Strip(s) == s
    requires MatchAt(Type10Processor.Pattern10, s).None? && MatchAt(HookPattern(L), s).None?
    requires MatchAt(BentPattern(L), s).None?
    ensures ParseRebarText(L, t, s) == Ok(None)
  {
    assert ParseText(L, t, s) == Ok(None);
  }

  /** A bent call-out is 'V', the angle digits and a text starting with the degree sign. */
  lemma BentText(a: string, n: string, l1: string, l2: string, c: string, rest: string)
    ensures Type12Processor.Callout(a, n, l1, l2, c) + rest == "V" + (a + ("°#" + n + "-" + l1 + "+" + l2 + "x" + c + rest))
    ensures ("°#" + n + "-" + l1 + "+" + l2 + "x" + c + rest)[0] == '°'
  {
  }

  lemma BentMismatch(L: Literals, a: string, after: string)
    requires L == AsWritten
    requires a != [] && AllDigits(a) && after != [] && after[0] == '°'
    ensures MatchAt(BentPattern(L), "V" + (a + after)) == None
  {
    var text := "V" + (a + after);
    MatchLitStep('V', Run(Digits, Lits(L.degree, BentTail)), text);
    assert text[1..] == a + after;
    MatchRunStep(Digits, Lits(L.degree, BentTail), a, after);
    MatchLits(L.degree, BentTail, after);
    assert L.degree[0] != after[0];
  }

  /**
   * The hooked call-out `安#<n>-<len>x<count>` that the intended cascade
   * parses (or rejects with ValueError) is silently dropped as written.
   */
  lemma HookedCalloutLost(t: Tables, n: string, len: string, c: string)
    requires n != [] && AllDigits(n) && c != [] && AllDigits(c)
    requires len != [] && forall i :: 0 <= i < |len| ==> IsNumChar(len[i])
    ensures var text := Type11Processor.Callout(n, len, c);
      ParseRebarText(AsWritten, t, text) == Ok(None)
      && ParseRebarText(Intended, t, text) == Type11Processor.Process(t, text)
      && ParseRebarText(Intended, t, text) != Ok(None)
  {
    var text := Type11Processor.Callout(n, len, c);
    Type11Processor.ProcessCallout(t, n, len, c, "");
    assert text + "" == text;
    Type11Processor.MatchCallout(n, len, c, "");
    assert Strip(text) == text;
    assert text[0] == '安';
    HookedUnparsedAsWritten(t, text);
    IntendedAgrees(t, Intended, DefaultEntries, text);
    assert PatternOf(DefaultEntries[1].1) == Type11Processor.Pattern11;
    RebarProcessorNew.DispatchAgrees(t, DefaultEntries, text, 1);
  }

  /** A straight call-out is still parsed as written; only its note carries the stored characters. */
  lemma StraightParsedAsWritten(t: Tables, text: string)
    requires MatchAt(Type10Processor.Pattern10, Strip(text)).Some?
    ensures ParseRebarText(AsWritten, t, text)
            == match ParseRebarText(Intended, t, text)
               case Raises(e) => Raises(e)
               case Ok(r) => Ok(Some(r.value.(note := AsWritten.straightNote)))
    ensures ParseRebarText(Intended, t, text).Ok? ==> ParseRebarText(Intended, t, text).value.Some?
  {
    StraightNoteOnly(AsWritten, Intended, t, Strip(text));
  }

  /** Under any two sets of literals a straight call-out gives the same record but for the note. */
  lemma StraightNoteOnly(L: Literals, M: Literals, t: Tables, s: string)
    requires MatchAt(Type10Processor.Pattern10, s).Some?
    ensures ParseText(L, t, s)
            == match ParseText(M, t, s)
               case Raises(e) => Raises(e)
               case Ok(r) => Ok(Some(r.value.(note := L.straightNote)))
    ensures ParseText(M, t, s).Ok? ==> ParseText(M, t, s).value.Some?
  {
  }

  // ---------------------------------------------------------------------------
  // `extract_rebar_info`: designation and `@` spacing

  /** The dictionary `extract_rebar_info` returns. */
  datatype SpacingInfo = SpacingInfo(rebarNumber: string, spacing: Option<nat>, diameter: real,
                                     unitWeight: real, grade: string)

  /** An `@` at `i` followed by at least one digit. */
  predicate SpacingAt(s: string, i: nat)
  {
    i < |s| && s[i] == '@' && RunLen(Digits, s[i + 1..]) > 0
  }

  /** `re.search(r'@(\d+)(?:c/c|cm|mm)?', s).group(1)`: the digits after the leftmost spacing `@`. */
  function FindSpacing(s: string): (r: Option<string>)
    ensures r.Some? ==> r.value != [] && AllDigits(r.value)
  {
    if s == [] then None
    else if SpacingAt(s, 0) then Some(s[1..][..RunLen(Digits, s[1..])])
    else FindSpacing(s[1..])
  }

  predicate UnitSuffix(t: string)
  {
    StartsWith(t, "c/c") || StartsWith(t, "cm") || StartsWith(t, "mm")
  }

  /** An `@`, all the digits after it, then a unit. */
  predicate UnitSpacingAt(s: string, i: nat)
  {
    SpacingAt(s, i) && UnitSuffix(s[i + 1 + RunLen(Digits, s[i + 1..])..])
  }

  /** `re.search(r'@\d+(?:c/c|cm|mm)', s)`: some spacing anywhere carries a unit. */
  predicate HasUnitSpacing(s: string)
  {
    s != [] && (UnitSpacingAt(s, 0) || HasUnitSpacing(s[1..]))
  }

  lemma SpacingAtShift(s: string, i: nat)
    requires s != [] && i < |s| - 1
    ensures SpacingAt(s, i + 1) <==> SpacingAt(s[1..], i)
    ensures UnitSpacingAt(s, i + 1) <==> UnitSpacingAt(s[1..], i)
  {
    assert s[i + 2..] == s[1..][i + 1..];
  }

  /** The leftmost spacing position decides `FindSpacing`; there is none iff it gives None. */
  lemma {:induction false} FindSpacingFirst(s: string)
    ensures FindSpacing(s).None? <==> forall i :: 0 <= i < |s| ==> !SpacingAt(s, i)
    ensures FindSpacing(s).Some? ==>
              exists i :: 0 <= i < |s| && SpacingAt(s, i) && (forall j :: 0 <= j < i ==> !SpacingAt(s, j))
                          && FindSpacing(s).value == s[i + 1..][..RunLen(Digits, s[i + 1..])]
  {
    if s != [] && !SpacingAt(s, 0) {
      FindSpacingFirst(s[1..]);
      forall i | 0 <= i < |s| - 1 ensures SpacingAt(s, i + 1) <==> SpacingAt(s[1..], i) {
        SpacingAtShift(s, i);
      }
      if FindSpacing(s).Some? {
        var i :| 0 <= i < |s[1..]| && SpacingAt(s[1..], i) && (forall j :: 0 <= j < i ==> !SpacingAt(s[1..], j))
                 && FindSpacing(s[1..]).value == s[1..][i + 1..][..RunLen(Digits, s[1..][i + 1..])];
        assert s[1..][i + 1..] == s[i + 2..];
        assert SpacingAt(s, i + 1);
        assert forall j :: 0 <= j < i + 1 ==> !SpacingAt(s, j) by {
          forall j | 0 < j < i + 1 ensures !SpacingAt(s, j) { SpacingAtShift(s, j - 1); }
        }
      } else {
        assert forall i :: 0 <= i < |s| ==> !SpacingAt(s, i) by {
          forall i | 0 < i < |s| ensures !SpacingAt(s, i) { SpacingAtShift(s, i - 1); }
        }
      }
    }
  }

  /** `HasUnitSpacing` holds iff some position carries a spacing with a unit. */
  lemma {:induction false} HasUnitSpacingAny(s: string)
    ensures HasUnitSpacing(s) <==> exists i :: 0 <= i < |s| && UnitSpacingAt(s, i)
  {
    if s != [] {
      HasUnitSpacingAny(s[1..]);
      if exists i :: 0 <= i < |s[1..]| && UnitSpacingAt(s[1..], i) {
        var i :| 0 <= i < |s[1..]| && UnitSpacingAt(s[1..], i);
        SpacingAtShift(s, i);
      }
      if exists i :: 0 < i < |s| && UnitSpacingAt(s, i) {
        var i :| 0 < i < |s| && UnitSpacingAt(s, i);
        SpacingAtShift(s, i - 1);
      }
    }
  }

  /**
   * `extract_rebar_info`: None for empty text, text not starting with '#',
   * or '#' not followed by a digit (the failed match raises and is caught);
   * otherwise the designation `#<digits>`, the spacing (times 10 unless some
   * spacing in the text carries a unit) and the lookups.
   */
  function ExtractRebarInfo(L: Literals, t: Tables, text: string): (r: Option<SpacingInfo>)
    ensures r.None? <==> Strip(text) == [] || Strip(text)[0] != '#' || !(|Strip(text)| > 1 && IsDigit(Strip(text)[1]))
    ensures r.Some? ==> StartsWith(Strip(text), r.value.rebarNumber) && |r.value.rebarNumber| > 1
                        && r.value.rebarNumber[0] == '#' && AllDigits(r.value.rebarNumber[1..])
    ensures r.Some? ==> (r.value.spacing.None? <==> FindSpacing(Strip(text)).None?)
    ensures r.Some? ==> r.value.diameter == Diameter(t, r.value.rebarNumber)
                        && r.value.unitWeight == UnitWeight(t, r.value.rebarNumber)
                        && r.value.grade == Summary.GradeOr(t, r.value.rebarNumber, L.unknownGrade)
  {
    ExtractStripped(L, t, Strip(text))
  }

  /** `extract_rebar_info` after its `strip()`. */
  function ExtractStripped(L: Literals, t: Tables, s: string): (r: Option<SpacingInfo>)
    ensures r.None? <==> s == [] || s[0] != '#' || !(|s| > 1 && IsDigit(s[1]))
    ensures r.Some? ==> StartsWith(s, r.value.rebarNumber) && |r.value.rebarNumber| > 1
                        && r.value.rebarNumber[0] == '#' && AllDigits(r.value.rebarNumber[1..])
    ensures r.Some? ==> (r.value.spacing.None? <==> FindSpacing(s).None?)
    ensures r.Some? ==> r.value.diameter == Diameter(t, r.value.rebarNumber)
                        && r.value.unitWeight == UnitWeight(t, r.value.rebarNumber)
                        && r.value.grade == Summary.GradeOr(t, r.value.rebarNumber, L.unknownGrade)
  {
    if s == [] || s[0] != '#' then None
    else
      var k := RunLen(Digits, s[1..]);
      if k == 0 then None
      else
        var number := s[..k + 1];
        assert number[1..] == s[1..][..k];
        var spacing := match FindSpacing(s)
          case None => None
          case Some(g) => Some(if HasUnitSpacing(s) then DigitsValue(g) else DigitsValue(g) * 10);
        Some(SpacingInfo(number, spacing, Diameter(t, number), UnitWeight(t, number),
                         Summary.GradeOr(t, number, L.unknownGrade)))
  }

  predicate NoAt(s: string)
  {
    forall i :: 0 <= i < |s| ==> s[i] != '@'
  }

  /** Text before the first '@' changes neither search. */
  lemma {:induction false} SkipNoAt(pre: string, rest: string)
    requires NoAt(pre)
    ensures FindSpacing(pre + rest) == FindSpacing(rest)
    ensures HasUnitSpacing(pre + rest) == HasUnitSpacing(rest)
  {
    if pre != [] {
      assert (pre + rest)[1..] == pre[1..] + rest;
      SkipNoAt(pre[1..], rest);
    } else {
      assert pre + rest == rest;
    }
  }

  /**
   * `#<n>@<g><unit>`: with no unit the spacing is `10 * g`; with `c/c`, `cm`
   * or `mm` it is `g` as written (the docstring's `#4@20`, `#4@20c/c`,
   * `#4@20cm`, `#4@200mm`).
   */
  lemma SpacingOfCallout(L: Literals, t: Tables, n: string, g: string, unit: string)
    requires n != [] && AllDigits(n) && g != [] && AllDigits(g)
    requires unit in ["", "c/c", "cm", "mm"]
    ensures var r := ExtractRebarInfo(L, t, "#" + n + "@" + g + unit);
      r.Some? && r.value.rebarNumber == "#" + n
      && r.value.spacing == Some(if unit == "" then 10 * DigitsValue(g) else DigitsValue(g))
  {
    var s := "#" + n + "@" + g + unit;
    SpacingShape(n, g, unit, s);
    SpacingExtract(L, t, n, g, unit, s);
  }

  /** What `SpacingShape` establishes about `#<n>@<g><unit>`. */
  predicate SpacingFacts(n: string, g: string, unit: string, s: string)
  {
    Strip(s) == s && s != [] && s[0] == '#' && n != [] && RunLen(Digits, s[1..]) == |n| && s[..|n| + 1] == "#" + n
    && FindSpacing(s) == Some(g) && (HasUnitSpacing(s) <==> unit != "")
  }

  /** With those facts, `extract_rebar_info` finds `#<n>` and a spacing of ten times g without a unit, g itself with one. */
  lemma SpacingExtract(L: Literals, t: Tables, n: string, g: string, unit: string, s: string)
    requires SpacingFacts(n, g, unit, s)
    ensures var r := ExtractRebarInfo(L, t, s);
      r.Some? && r.value.rebarNumber == "#" + n
      && r.value.spacing == Some(if unit == "" then 10 * DigitsValue(g) else DigitsValue(g))
  {
    ExtractOf(L, t, s, |n|, g);
  }

  /** A spacing with or without a unit does not end in whitespace. */
  lemma UnitEnd(g: string, unit: string)
    requires g != [] && AllDigits(g)
    requires unit in ["", "c/c", "cm", "mm"]
    ensures var at := "@" + g + unit; at != [] && at[0] == '@' && !IsSpace(at[|at| - 1])
  {
    var at := "@" + g + unit;
    assert at[|at| - 1] == if unit == "" then g[|g| - 1] else unit[|unit| - 1];
  }

  /** `#<n>@<g><unit>` needs no stripping, has designation `#<n>` and spacing digits `g`. */
  lemma SpacingShape(n: string, g: string, unit: string, s: string)
    requires n != [] && AllDigits(n) && g != [] && AllDigits(g)
    requires unit in ["", "c/c", "cm", "mm"]
    requires s == "#" + n + "@" + g + unit
    ensures SpacingFacts(n, g, unit, s)
  {
    UnitEnd(g, unit);
    HeadShape(n, "@" + g + unit, s);
    SpacingAfterAt(g, unit);
  }

  /** `#<n>` before a spacing: no stripping, designation `#<n>`, and both searches start at the `@`. */
  lemma HeadShape(n: string, at: string, s: string)
    requires n != [] && AllDigits(n) && at != [] && at[0] == '@' && !IsSpace(at[|at| - 1])
    requires s == "#" + n + at
    ensures Strip(s) == s && s != [] && s[0] == '#' && RunLen(Digits, s[1..]) == |n| && s[..|n| + 1] == "#" + n
    ensures FindSpacing(s) == FindSpacing(at) && HasUnitSpacing(s) == HasUnitSpacing(at)
  {
    HeadNumber(n, at, s);
    HeadSearch(n, at, s);
  }

  /** The designation half of `HeadShape`. */
  lemma HeadNumber(n: string, at: string, s: string)
    requires n != [] && AllDigits(n) && at != [] && at[0] == '@' && !IsSpace(at[|at| - 1])
    requires s == "#" + n + at
    ensures Strip(s) == s && s != [] && s[0] == '#' && RunLen(Digits, s[1..]) == |n| && s[..|n| + 1] == "#" + n
  {
    var pre := "#" + n;
    CalloutStripped(pre, at);
    CalloutNumber(n, at);
  }

  /** The search half of `HeadShape`: `#<n>` holds no `@`, so the spacing search skips it. */
  lemma HeadSearch(n: string, at: string, s: string)
    requires AllDigits(n) && s == "#" + n + at
    ensures FindSpacing(s) == FindSpacing(at) && HasUnitSpacing(s) == HasUnitSpacing(at)
  {
    var pre := "#" + n;
    assert NoAt(pre) by {
      assert forall i :: 1 <= i < |pre| ==> pre[i] == n[i - 1];
    }
    SkipNoAt(pre, at);
  }

  /** Stripped text: `extract_rebar_info` on it is the stripped case below. */
  lemma ExtractOf(L: Literals, t: Tables, s: string, k: nat, g: string)
    requires Strip(s) == s
    requires s != [] && s[0] == '#' && RunLen(Digits, s[1..]) == k && k > 0 && FindSpacing(s) == Some(g)
    ensures var r := ExtractRebarInfo(L, t, s);
      r.Some? && r.value.rebarNumber == s[..k + 1]
      && r.value.spacing == Some(if HasUnitSpacing(s) then DigitsValue(g) else DigitsValue(g) * 10)
  {
    ExtractStrippedOf(L, t, s, k, g);
  }

  /** What `extract_rebar_info` gives from the length of the designation digits and the spacing digits. */
  lemma ExtractStrippedOf(L: Literals, t: Tables, s: string, k: nat, g: string)
    requires s != [] && s[0] == '#' && RunLen(Digits, s[1..]) == k && k > 0 && FindSpacing(s) == Some(g)
    ensures var r := ExtractStripped(L, t, s);
      r.Some? && r.value.rebarNumber == s[..k + 1]
      && r.value.spacing == Some(if HasUnitSpacing(s) then DigitsValue(g) else DigitsValue(g) * 10)
  {
  }

  lemma CalloutStripped(pre: string, at: string)
    requires pre != [] && pre[0] == '#' && at != [] && !IsSpace(at[|at| - 1])
    ensures Strip(pre + at) == pre + at
  {
    var s := pre + at;
    assert s[0] == '#' && s[|s| - 1] == at[|at| - 1];
    StripUnchanged(s);
  }

  lemma CalloutNumber(n: string, at: string)
    requires n != [] && AllDigits(n) && at != [] && at[0] == '@'
    ensures var s := "#" + n + at; StartsWith(s, "#" + n) && RunLen(Digits, s[1..]) == |n|
  {
    var s := "#" + n + at;
    assert s[1..] == n + at;
    RunLenExact(Digits, n, at);
    assert s[..|n| + 1] == "#" + n;
  }

  /** `@<g><unit>`: the spacing digits are `g`, and only a unit makes it a spacing with a unit. */
  lemma SpacingAfterAt(g: string, unit: string)
    requires g != [] && AllDigits(g)
    requires unit in ["", "c/c", "cm", "mm"]
    ensures FindSpacing("@" + g + unit) == Some(g)
    ensures HasUnitSpacing("@" + g + unit) <==> unit != ""
  {
    var at := "@" + g + unit;
    assert at[1..] == g + unit;
    RunLenExact(Digits, g, unit);
    assert (g + unit)[..|g|] == g;
    assert at[1 + |g|..] == unit;
    assert SpacingAt(at, 0);
    if unit == "" {
      assert at[1..] == g + "";
      assert NoAt(g);
      SkipNoAt(g, "");
      assert !UnitSpacingAt(at, 0);
    } else {
      assert UnitSpacingAt(at, 0);
    }
  }

  // ---------------------------------------------------------------------------
  // Static helpers

  /** `get_rebar_summary` of this module: unknown designations get the file's own grade literal. */
  method GetRebarSummary(L: Literals, t: Tables, items: seq<Summary.Item>)
    returns (s: Entries<string, Summary.Entry>)
    ensures s == Summary.SummaryOf(t, L.unknownGrade, items)
    ensures DistinctKeys(s)
  {
    s := Summary.GetRebarSummary(t, L.unknownGrade, items);
  }
}
