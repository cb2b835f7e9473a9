// Type19, the straight-plus-arc bar `直弧<radius>#<n>-<straight>+<arc>x<count>`.

module Type19Processor {
  import opened Common
  import opened Pattern
  import opened BaseProcessor

  /** `直弧(\d+)(#\d+)-([\d\.]+)\+([\d\.]+)x(\d+)`. */
  const Pattern19: Pat :=
    Lit('直', Lit('弧', Run(Digits, Lit('#', Run(Digits, Lit('-',
      Run(Num, Lit('+', Run(Num, Lit('x', Run(Digits, End)))))))))))

  predicate IsNumToken(s: string)
  {
    forall i :: 0 <= i < |s| ==> IsNumChar(s[i])
  }

  /** The groups of a match: radius, designation digits, straight and arc tokens, count. */
  predicate Groups(caps: seq<string>)
  {
    |caps| == 5 && AllDigits(caps[0]) && AllDigits(caps[1])
    && IsNumToken(caps[2]) && IsNumToken(caps[3]) && AllDigits(caps[4])
  }

  lemma MatchGroups(caps: seq<string>)
    requires ValidCaps(Pattern19, caps)
    ensures Groups(caps)
  {
    ValidCapsClasses(Pattern19, caps);
    assert Classes(Pattern19) == [Digits, Digits, Num, Num, Digits];
    assert AllIn(Digits, caps[0]) && AllIn(Digits, caps[1]) && AllIn(Num, caps[2])
           && AllIn(Num, caps[3]) && AllIn(Digits, caps[4]);
  }

  /** The note of a straight-plus-arc bar of the given radius. */
  function Note(radius: nat): string
  {
    "直段+弧段 R" + NatToString(radius)
  }

  /** `parse_match`: segments `[straight, arc]` summed into the length, no angles, the radius. */
  function ParseMatch(t: Tables, caps: seq<string>, text: string): (r: Outcome<RebarRecord>)
    requires Groups(caps)
    ensures r.Ok? <==> PyFloat(caps[2]).Ok? && PyFloat(caps[3]).Ok?
    ensures r.Raises? ==> r.error == ValueError
    ensures r.Ok? ==> Consistent(t, r.value) && |r.value.segments| == 2 && r.value.angles == []
                      && r.value.radius == Some(DigitsValue(caps[0]))
    ensures r.Ok? ==> r.value.rtype == "type19" && r.value.note == Note(DigitsValue(caps[0]))
  {
    var radius := DigitsValue(caps[0]);
    var number := "#" + caps[1];
    var straight :- PyFloat(caps[2]);
    var arc :- PyFloat(caps[3]);
    var count := DigitsValue(caps[4]);
    var total := straight + arc;
    SumOneTwo(straight, arc);
    Ok(RebarRecord(number, [straight, arc], [], Some(radius), count, text, total,
                   CalculateWeight(t, number, total, count), "type19", Note(radius)))
  }

  /** `process`: strip, match, parse; `Ok(None)` when the pattern does not match. */
  function Process(t: Tables, text: string): (r: Outcome<Option<RebarRecord>>)
    ensures r.Ok? && r.value.None? <==> !CanProcess(Pattern19, Strip(text))
    ensures r.Raises? ==> r.error == ValueError
    ensures r.Ok? && r.value.Some? ==> Consistent(t, r.value.value) && r.value.value.rawText == Strip(text)
                                       && r.value.value.radius.Some?
    ensures r.Ok? && r.value.Some? ==> r.value.value.rtype == "type19"
  {
    match MatchStripped(Pattern19, text)
    case None => Ok(None)
    case Some((caps, s)) =>
      MatchGroups(caps);
      var rec :- ParseMatch(t, caps, s);
      Ok(Some(rec))
  }

  /** The text of a call-out with the given groups. */
  function Callout(rad: string, n: string, s: string, a: string, c: string): string
  {
    "直弧" + rad + "#" + n + "-" + s + "+" + a + "x" + c
  }

  predicate CalloutGroups(rad: string, n: string, s: string, a: string, c: string)
  {
    rad != [] && AllDigits(rad) && n != [] && AllDigits(n) && c != [] && AllDigits(c)
    && s != [] && IsNumToken(s) && a != [] && IsNumToken(a)
  }

  lemma {:induction false} RenderCallout(rad: string, n: string, s: string, a: string, c: string)
    ensures Render(Pattern19, [rad, n, s, a, c]) == Callout(rad, n, s, a, c)
  {
    var p6 := Run(Num, Lit('x', Run(Digits, End)));
    var p4 := Run(Num, Lit('+', p6));
    var p2 := Run(Digits, Lit('-', p4));
    var p0 := Run(Digits, Lit('#', p2));
    var r6 := a + ("x" + c);
    var r4 := s + ("+" + r6);
    var r2 := n + ("-" + r4);
    var r0 := rad + ("#" + r2);
    assert Render(Run(Digits, End), [c]) == c;
    assert Render(p6, [a, c]) == r6 by { assert [a, c][1..] == [c]; }
    assert Render(p4, [s, a, c]) == r4 by { assert [s, a, c][1..] == [a, c]; }
    assert Render(p2, [n, s, a, c]) == r2 by { assert [n, s, a, c][1..] == [s, a, c]; }
    assert Render(Lit('#', p2), [n, s, a, c]) == "#" + r2;
    assert Render(p0, [rad, n, s, a, c]) == r0 by { assert [rad, n, s, a, c][1..] == [n, s, a, c]; }
    assert Render(Lit('弧', p0), [rad, n, s, a, c]) == "弧" + r0;
    assert Pattern19 == Lit('直', Lit('弧', p0));
    CalloutNested(rad, n, s, a, c);
  }

  /** The call-out text, associated to the right as the pattern renders it. */
  lemma CalloutNested(rad: string, n: string, s: string, a: string, c: string)
    ensures Callout(rad, n, s, a, c) == "直" + ("弧" + (rad + ("#" + (n + ("-" + (s + ("+" + (a + ("x" + c)))))))))
  {
  }

  lemma MatchCallout(rad: string, n: string, s: string, a: string, c: string, rest: string)
    requires CalloutGroups(rad, n, s, a, c)
    requires rest == [] || (!IsDigit(rest[0]) && !IsSpace(rest[|rest| - 1]))
    ensures var text := Callout(rad, n, s, a, c) + rest;
      MatchStripped(Pattern19, text) == Some(([rad, n, s, a, c], text))
  {
    var text := Callout(rad, n, s, a, c) + rest;
    var caps := [rad, n, s, a, c];
    CalloutCaps(rad, n, s, a, c);
    RenderCallout(rad, n, s, a, c);
    StopsFinal(Pattern19, rest);
    MatchRender(Pattern19, caps, rest);
    CalloutStripped(rad, n, s, a, c, rest);
    MatchStrippedOf(Pattern19, text, caps);
  }

  /** The groups of a call-out are valid groups of the pattern. */
  lemma CalloutCaps(rad: string, n: string, s: string, a: string, c: string)
    requires CalloutGroups(rad, n, s, a, c)
    ensures ValidCaps(Pattern19, [rad, n, s, a, c]) && FinalRun(Pattern19) == Some(Digits) && WellFormed(Pattern19)
  {
    assert Classes(Pattern19) == [Digits, Digits, Num, Num, Digits];
    ClassesValid(Pattern19, [rad, n, s, a, c]);
  }

  /** A call-out followed by such text has nothing to strip. */
  lemma CalloutStripped(rad: string, n: string, s: string, a: string, c: string, rest: string)
    requires c != [] && AllDigits(c)
    requires rest == [] || !IsSpace(rest[|rest| - 1])
    ensures Strip(Callout(rad, n, s, a, c) + rest) == Callout(rad, n, s, a, c) + rest
  {
    var text := Callout(rad, n, s, a, c) + rest;
    assert text[|text| - 1] == if rest == [] then c[|c| - 1] else rest[|rest| - 1];
    StripUnchanged(text);
  }

  /** The record `parse_match` builds from well-formed groups. */
  lemma {:induction false} ParseCallout(t: Tables, rad: string, n: string, s: string, a: string, c: string,
                                        text: string)
    requires CalloutGroups(rad, n, s, a, c)
    ensures ParseMatch(t, [rad, n, s, a, c], text)
      == if PyFloat(s).Raises? || PyFloat(a).Raises? then Raises(ValueError)
         else
           var vs := PyFloat(s).value;
           var va := PyFloat(a).value;
           Ok(RebarRecord("#" + n, [vs, va], [], Some(DigitsValue(rad)), DigitsValue(c), text,
                          vs + va, CalculateWeight(t, "#" + n, vs + va, DigitsValue(c)),
                          "type19", Note(DigitsValue(rad))))
  {
  }

  /**
   * A straight-plus-arc call-out parses to segments `[straight, arc]`, length
   * `straight + arc` with the weight on that total, no angles, the radius,
   * type 'type19' and note `直段+弧段 R<radius>`; it raises ValueError when
   * either length is not a valid float.
   */
  lemma ProcessCallout(t: Tables, rad: string, n: string, s: string, a: string, c: string, rest: string)
    requires CalloutGroups(rad, n, s, a, c)
    requires rest == [] || (!IsDigit(rest[0]) && !IsSpace(rest[|rest| - 1]))
    ensures var text := Callout(rad, n, s, a, c) + rest;
      Process(t, text)
      == if PyFloat(s).Raises? || PyFloat(a).Raises? then Raises(ValueError)
         else
           var vs := PyFloat(s).value;
           var va := PyFloat(a).value;
           Ok(Some(RebarRecord("#" + n, [vs, va], [], Some(DigitsValue(rad)), DigitsValue(c), text,
                               vs + va, CalculateWeight(t, "#" + n, vs + va, DigitsValue(c)),
                               "type19", Note(DigitsValue(rad)))))
  {
    var text := Callout(rad, n, s, a, c) + rest;
    MatchCallout(rad, n, s, a, c, rest);
    ParseCallout(t, rad, n, s, a, c, text);
  }
}
