// Type18, the arc bar `弧<radius>#<n>-<length>x<count>`.

module Type18Processor {
  import opened Common
  import opened Pattern
  import opened BaseProcessor

  /** `弧(\d+)(#\d+)-([\d\.]+)x(\d+)`. */
  const Pattern18: Pat :=
    Lit('弧', Run(Digits, Lit('#', Run(Digits, Lit('-', Run(Num, Lit('x', Run(Digits, End))))))))

  predicate IsNumToken(s: string)
  {
    forall i :: 0 <= i < |s| ==> IsNumChar(s[i])
  }

  /** The groups of a match: radius digits, designation digits, a length token, count digits. */
  predicate Groups(caps: seq<string>)
  {
    |caps| == 4 && AllDigits(caps[0]) && AllDigits(caps[1])
    && IsNumToken(caps[2]) && AllDigits(caps[3])
  }

  lemma MatchGroups(caps: seq<string>)
    requires ValidCaps(Pattern18, caps)
    ensures Groups(caps)
  {
    ValidCapsClasses(Pattern18, caps);
    assert Classes(Pattern18) == [Digits, Digits, Num, Digits];
    assert AllIn(Digits, caps[0]) && AllIn(Digits, caps[1]) && AllIn(Num, caps[2])
           && AllIn(Digits, caps[3]);
  }

  /** The note of an arc of the given radius. */
  function Note(radius: nat): string
  {
    "直料圓弧 R" + NatToString(radius)
  }

  /** `parse_match`: one straight segment, no angles, and the integer radius. */
  function ParseMatch(t: Tables, caps: seq<string>, text: string): (r: Outcome<RebarRecord>)
    requires Groups(caps)
    ensures r.Ok? <==> PyFloat(caps[2]).Ok?
    ensures r.Raises? ==> r.error == ValueError
    ensures r.Ok? ==> Consistent(t, r.value) && |r.value.segments| == 1 && r.value.angles == []
                      && r.value.radius == Some(DigitsValue(caps[0]))
    ensures r.Ok? ==> r.value.rtype == "type18" && r.value.note == Note(DigitsValue(caps[0]))
  {
    var radius := DigitsValue(caps[0]);
    var number := "#" + caps[1];
    var length :- PyFloat(caps[2]);
    var count := DigitsValue(caps[3]);
    SumOneTwo(length, 0.0);
    Ok(RebarRecord(number, [length], [], Some(radius), count, text, length,
                   CalculateWeight(t, number, length, count), "type18", Note(radius)))
  }

  /** `process`: strip, match, parse; `Ok(None)` when the pattern does not match. */
  function Process(t: Tables, text: string): (r: Outcome<Option<RebarRecord>>)
    ensures r.Ok? && r.value.None? <==> !CanProcess(Pattern18, Strip(text))
    ensures r.Raises? ==> r.error == ValueError
    ensures r.Ok? && r.value.Some? ==> Consistent(t, r.value.value) && r.value.value.rawText == Strip(text)
                                       && r.value.value.radius.Some?
    ensures r.Ok? && r.value.Some? ==> r.value.value.rtype == "type18"
  {
    match MatchStripped(Pattern18, text)
    case None => Ok(None)
    case Some((caps, s)) =>
      MatchGroups(caps);
      var rec :- ParseMatch(t, caps, s);
      Ok(Some(rec))
  }

  /** The text of a call-out with the given groups. */
  function Callout(rad: string, n: string, len: string, c: string): string
  {
    "弧" + rad + "#" + n + "-" + len + "x" + c
  }

  predicate CalloutGroups(rad: string, n: string, len: string, c: string)
  {
    rad != [] && AllDigits(rad) && n != [] && AllDigits(n) && c != [] && AllDigits(c)
    && len != [] && IsNumToken(len)
  }

  lemma {:induction false} RenderCallout(rad: string, n: string, len: string, c: string)
    ensures Render(Pattern18, [rad, n, len, c]) == Callout(rad, n, len, c)
  {
    var p4 := Run(Num, Lit('x', Run(Digits, End)));
    var p2 := Run(Digits, Lit('-', p4));
    var p0 := Run(Digits, Lit('#', p2));
    var r4 := len + ("x" + c);
    var r2 := n + ("-" + r4);
    var r0 := rad + ("#" + r2);
    assert Render(Run(Digits, End), [c]) == c;
    assert Render(p4, [len, c]) == r4 by { assert [len, c][1..] == [c]; }
    assert Render(p2, [n, len, c]) == r2 by { assert [n, len, c][1..] == [len, c]; }
    assert Render(Lit('#', p2), [n, len, c]) == "#" + r2;
    assert Render(p0, [rad, n, len, c]) == r0 by { assert [rad, n, len, c][1..] == [n, len, c]; }
    assert Pattern18 == Lit('弧', p0);
    assert Callout(rad, n, len, c) == "弧" + r0;
  }

  lemma MatchCallout(rad: string, n: string, len: string, c: string, rest: string)
    requires CalloutGroups(rad, n, len, c)
    requires rest == [] || (!IsDigit(rest[0]) && !IsSpace(rest[|rest| - 1]))
    ensures var text := Callout(rad, n, len, c) + rest;
      MatchStripped(Pattern18, text) == Some(([rad, n, len, c], text))
  {
    var text := Callout(rad, n, len, c) + rest;
    var caps := [rad, n, len, c];
    CalloutCaps(rad, n, len, c);
    RenderCallout(rad, n, len, c);
    StopsFinal(Pattern18, rest);
    MatchRender(Pattern18, caps, rest);
    CalloutStripped(rad, n, len, c, rest);
    MatchStrippedOf(Pattern18, text, caps);
  }

  /** The groups of a call-out are valid groups of the pattern. */
  lemma CalloutCaps(rad: string, n: string, len: string, c: string)
    requires CalloutGroups(rad, n, len, c)
    ensures ValidCaps(Pattern18, [rad, n, len, c]) && FinalRun(Pattern18) == Some(Digits) && WellFormed(Pattern18)
  {
    assert Classes(Pattern18) == [Digits, Digits, Num, Digits];
    ClassesValid(Pattern18, [rad, n, len, c]);
  }

  /** A call-out followed by such text has nothing to strip. */
  lemma CalloutStripped(rad: string, n: string, len: string, c: string, rest: string)
    requires c != [] && AllDigits(c)
    requires rest == [] || !IsSpace(rest[|rest| - 1])
    ensures Strip(Callout(rad, n, len, c) + rest) == Callout(rad, n, len, c) + rest
  {
    var text := Callout(rad, n, len, c) + rest;
    assert text[|text| - 1] == if rest == [] then c[|c| - 1] else rest[|rest| - 1];
    StripUnchanged(text);
  }

  /**
   * An arc call-out parses to one segment `[len]`, no angles, the integer
   * radius, type 'type18' and note `直料圓弧 R<radius>`; it raises ValueError
   * when the length is not a valid float.
   */
  lemma ProcessCallout(t: Tables, rad: string, n: string, len: string, c: string, rest: string)
    requires CalloutGroups(rad, n, len, c)
    requires rest == [] || (!IsDigit(rest[0]) && !IsSpace(rest[|rest| - 1]))
    ensures var text := Callout(rad, n, len, c) + rest;
      Process(t, text)
      == match PyFloat(len)
         case Raises(e) => Raises(e)
         case Ok(v) => Ok(Some(RebarRecord("#" + n, [v], [], Some(DigitsValue(rad)), DigitsValue(c), text,
                                           v, CalculateWeight(t, "#" + n, v, DigitsValue(c)),
                                           "type18", Note(DigitsValue(rad)))))
  {
    MatchCallout(rad, n, len, c, rest);
  }

  /** The fields of an arc call-out whose groups have the given values. */
  lemma {:induction false} CalloutFields(t: Tables, rad: string, n: string, len: string, c: string,
                                         radius: nat, v: real, count: nat, text: string)
    requires CalloutGroups(rad, n, len, c) && text == Callout(rad, n, len, c)
    requires DigitsValue(rad) == radius && DigitsValue(c) == count && PyFloat(len) == Ok(v)
    ensures var r := Process(t, text);
      r.Ok? && r.value.Some?
      && r.value.value.segments == [v] && r.value.value.radius == Some(radius)
      && r.value.value.count == count && r.value.value.length == v
      && r.value.value.rebarNumber == "#" + n && r.value.value.note == Note(radius)
  {
    ProcessCallout(t, rad, n, len, c, "");
    assert Callout(rad, n, len, c) + "" == Callout(rad, n, len, c);
  }

  lemma ExampleGroups()
    ensures CalloutGroups("450", "10", "700", "1")
    ensures DigitsValue("450") == 450 && DigitsValue("1") == 1
    ensures PyFloat("700") == Ok(700.0)
  {
    var rad, len, c := "450", "700", "1";
    assert DigitsValue(rad) == 450 by { assert rad[..2] == "45" && "45"[..1] == "4"; }
    assert DigitsValue(len) == 700 by { assert len[..2] == "70" && "70"[..1] == "7"; }
    assert DigitsValue(c) == 1 by { assert c[..0] == ""; }
    PyFloatOfDigits(len);
  }

  /** `弧450#10-700x1` gives radius 450, designation #10, length 700 and count 1. */
  lemma Example(t: Tables, text: string)
    requires text == "弧450#10-700x1"
    ensures Process(t, text).Ok? && Process(t, text).value.Some?
    ensures var rec := Process(t, text).value.value;
      rec.radius == Some(450) && rec.rebarNumber == "#10" && rec.length == 700.0
      && rec.segments == [700.0] && rec.count == 1
  {
    ExampleGroups();
    CalloutFields(t, "450", "10", "700", "1", 450, 700.0, 1, text);
  }
}
