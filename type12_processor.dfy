// Type12, the bent bar `V<angle>°#<n>-<L1>+<L2>x<count>`.

module Type12Processor {
  import opened Common
  import opened Pattern
  import opened BaseProcessor

  /** `V(\d+)°(#\d+)-([\d\.]+)\+([\d\.]+)x(\d+)`. */
  const Pattern12: Pat :=
    Lit('V', Run(Digits, Lit('°', Lit('#', Run(Digits, Lit('-',
      Run(Num, Lit('+', Run(Num, Lit('x', Run(Digits, End)))))))))))

  predicate IsNumToken(s: string)
  {
    forall i :: 0 <= i < |s| ==> IsNumChar(s[i])
  }

  /** The groups of a match: angle digits, designation digits, two length tokens, count digits. */
  predicate Groups(caps: seq<string>)
  {
    |caps| == 5 && AllDigits(caps[0]) && AllDigits(caps[1])
    && IsNumToken(caps[2]) && IsNumToken(caps[3]) && AllDigits(caps[4])
  }

  lemma MatchGroups(caps: seq<string>)
    requires ValidCaps(Pattern12, caps)
    ensures Groups(caps)
  {
    ValidCapsClasses(Pattern12, caps);
    assert Classes(Pattern12) == [Digits, Digits, Num, Num, Digits];
    assert AllIn(Digits, caps[0]) && AllIn(Digits, caps[1]) && AllIn(Num, caps[2])
           && AllIn(Num, caps[3]) && AllIn(Digits, caps[4]);
  }

  /** The note of a bend of `angle` degrees. */
  function Note(angle: nat): string
  {
    "折料 " + NatToString(angle) + "°"
  }

  /** `parse_match`: two float lengths whose sum is the length, and one bend angle. */
  function ParseMatch(t: Tables, caps: seq<string>, text: string): (r: Outcome<RebarRecord>)
    requires Groups(caps)
    ensures r.Ok? <==> PyFloat(caps[2]).Ok? && PyFloat(caps[3]).Ok?
    ensures r.Raises? ==> r.error == ValueError
    ensures r.Ok? ==> Consistent(t, r.value) && |r.value.segments| == 2
                      && |r.value.angles| == |r.value.segments| - 1
    ensures r.Ok? ==> r.value.rtype == "type12" && r.value.note == Note(DigitsValue(caps[0]))
  {
    var angle := DigitsValue(caps[0]);
    var number := "#" + caps[1];
    var length1 :- PyFloat(caps[2]);
    var length2 :- PyFloat(caps[3]);
    var count := DigitsValue(caps[4]);
    var total := length1 + length2;
    SumOneTwo(length1, length2);
    Ok(RebarRecord(number, [length1, length2], [angle], None, count, text, total,
                   CalculateWeight(t, number, total, count), "type12", Note(angle)))
  }

  /** `process`: strip, match, parse; `Ok(None)` when the pattern does not match. */
  function Process(t: Tables, text: string): (r: Outcome<Option<RebarRecord>>)
    ensures r.Ok? && r.value.None? <==> !CanProcess(Pattern12, Strip(text))
    ensures r.Raises? ==> r.error == ValueError
    ensures r.Ok? && r.value.Some? ==> Consistent(t, r.value.value) && r.value.value.rawText == Strip(text)
    ensures r.Ok? && r.value.Some? ==> r.value.value.rtype == "type12"
  {
    match MatchStripped(Pattern12, text)
    case None => Ok(None)
    case Some((caps, s)) =>
      MatchGroups(caps);
      var rec :- ParseMatch(t, caps, s);
      Ok(Some(rec))
  }

  /** The text of a call-out with the given groups. */
  function Callout(a: string, n: string, l1: string, l2: string, c: string): string
  {
    "V" + a + "°#" + n + "-" + l1 + "+" + l2 + "x" + c
  }

  predicate CalloutGroups(a: string, n: string, l1: string, l2: string, c: string)
  {
    a != [] && AllDigits(a) && n != [] && AllDigits(n) && c != [] && AllDigits(c)
    && l1 != [] && IsNumToken(l1) && l2 != [] && IsNumToken(l2)
  }

  lemma {:induction false} RenderCallout(a: string, n: string, l1: string, l2: string, c: string)
    ensures Render(Pattern12, [a, n, l1, l2, c]) == Callout(a, n, l1, l2, c)
  {
    var p6 := Run(Num, Lit('x', Run(Digits, End)));
    var p4 := Run(Num, Lit('+', p6));
    var p2 := Run(Digits, Lit('-', p4));
    var p0 := Run(Digits, Lit('°', Lit('#', p2)));
    var r6 := l2 + ("x" + c);
    var r4 := l1 + ("+" + r6);
    var r2 := n + ("-" + r4);
    var r0 := a + ("°" + ("#" + r2));
    assert Render(Run(Digits, End), [c]) == c;
    assert Render(p6, [l2, c]) == r6 by { assert [l2, c][1..] == [c]; }
    assert Render(p4, [l1, l2, c]) == r4 by { assert [l1, l2, c][1..] == [l2, c]; }
    assert Render(p2, [n, l1, l2, c]) == r2 by { assert [n, l1, l2, c][1..] == [l1, l2, c]; }
    assert Render(Lit('#', p2), [n, l1, l2, c]) == "#" + r2;
    assert Render(Lit('°', Lit('#', p2)), [n, l1, l2, c]) == "°" + ("#" + r2);
    assert Render(p0, [a, n, l1, l2, c]) == r0 by { assert [a, n, l1, l2, c][1..] == [n, l1, l2, c]; }
    assert Pattern12 == Lit('V', p0);
    assert Callout(a, n, l1, l2, c) == "V" + r0;
  }

  lemma MatchCallout(a: string, n: string, l1: string, l2: string, c: string, rest: string)
    requires CalloutGroups(a, n, l1, l2, c)
    requires rest == [] || (!IsDigit(rest[0]) && !IsSpace(rest[|rest| - 1]))
    ensures var text := Callout(a, n, l1, l2, c) + rest;
      MatchStripped(Pattern12, text) == Some(([a, n, l1, l2, c], text))
  {
    var text := Callout(a, n, l1, l2, c) + rest;
    CalloutCaps(a, n, l1, l2, c);
    RenderCallout(a, n, l1, l2, c);
    StopsFinal(Pattern12, rest);
    MatchRender(Pattern12, [a, n, l1, l2, c], rest);
    CalloutStripped(a, n, l1, l2, c, rest);
    MatchStrippedOf(Pattern12, text, [a, n, l1, l2, c]);
  }

  /** The groups of a call-out are valid groups of the pattern. */
  lemma CalloutCaps(a: string, n: string, l1: string, l2: string, c: string)
    requires CalloutGroups(a, n, l1, l2, c)
    ensures ValidCaps(Pattern12, [a, n, l1, l2, c]) && FinalRun(Pattern12) == Some(Digits) && WellFormed(Pattern12)
  {
    assert Classes(Pattern12) == [Digits, Digits, Num, Num, Digits];
    ClassesValid(Pattern12, [a, n, l1, l2, c]);
  }

  /** A call-out followed by such text has nothing to strip. */
  lemma CalloutStripped(a: string, n: string, l1: string, l2: string, c: string, rest: string)
    requires c != [] && AllDigits(c)
    requires rest == [] || !IsSpace(rest[|rest| - 1])
    ensures Strip(Callout(a, n, l1, l2, c) + rest) == Callout(a, n, l1, l2, c) + rest
  {
    var text := Callout(a, n, l1, l2, c) + rest;
    assert text[|text| - 1] == if rest == [] then c[|c| - 1] else rest[|rest| - 1];
    assert text[0] == 'V';
    StripUnchanged(text);
  }

  /** The record `parse_match` builds from well-formed groups. */
  lemma {:induction false} ParseCallout(t: Tables, a: string, n: string, l1: string, l2: string, c: string, text: string)
    requires CalloutGroups(a, n, l1, l2, c)
    ensures ParseMatch(t, [a, n, l1, l2, c], text)
      == if PyFloat(l1).Raises? || PyFloat(l2).Raises? then Raises(ValueError)
         else
           var v1 := PyFloat(l1).value;
           var v2 := PyFloat(l2).value;
           Ok(RebarRecord("#" + n, [v1, v2], [DigitsValue(a)], None, DigitsValue(c), text,
                          v1 + v2, CalculateWeight(t, "#" + n, v1 + v2, DigitsValue(c)),
                          "type12", Note(DigitsValue(a))))
  {
  }

  /**
   * A bent call-out parses to segments `[L1, L2]`, angles `[angle]`, length
   * `L1 + L2` with the weight on that total, and note `折料 <angle>°`; it
   * raises ValueError when either length is not a valid float.
   */
  lemma ProcessCallout(t: Tables, a: string, n: string, l1: string, l2: string, c: string, rest: string)
    requires CalloutGroups(a, n, l1, l2, c)
    requires rest == [] || (!IsDigit(rest[0]) && !IsSpace(rest[|rest| - 1]))
    ensures var text := Callout(a, n, l1, l2, c) + rest;
      Process(t, text)
      == if PyFloat(l1).Raises? || PyFloat(l2).Raises? then Raises(ValueError)
         else
           var v1 := PyFloat(l1).value;
           var v2 := PyFloat(l2).value;
           Ok(Some(RebarRecord("#" + n, [v1, v2], [DigitsValue(a)], None, DigitsValue(c), text,
                               v1 + v2, CalculateWeight(t, "#" + n, v1 + v2, DigitsValue(c)),
                               "type12", Note(DigitsValue(a)))))
  {
    var text := Callout(a, n, l1, l2, c) + rest;
    MatchCallout(a, n, l1, l2, c, rest);
    ParseCallout(t, a, n, l1, l2, c, text);
  }

  /** The fields of a bent call-out whose groups have the given values. */
  lemma {:induction false} CalloutFields(t: Tables, a: string, n: string, l1: string, l2: string, c: string,
                                         angle: nat, v1: real, v2: real, count: nat, text: string)
    requires CalloutGroups(a, n, l1, l2, c) && text == Callout(a, n, l1, l2, c)
    requires DigitsValue(a) == angle && DigitsValue(c) == count
    requires PyFloat(l1) == Ok(v1) && PyFloat(l2) == Ok(v2)
    ensures var r := Process(t, text);
      r.Ok? && r.value.Some?
      && r.value.value.segments == [v1, v2] && r.value.value.angles == [angle]
      && r.value.value.count == count && r.value.value.length == v1 + v2
      && r.value.value.rebarNumber == "#" + n
  {
    ProcessCallout(t, a, n, l1, l2, c, "");
    assert Callout(a, n, l1, l2, c) + "" == Callout(a, n, l1, l2, c);
  }

  lemma ExampleGroups()
    ensures CalloutGroups("113", "10", "900", "200", "2")
    ensures DigitsValue("113") == 113 && DigitsValue("2") == 2
    ensures PyFloat("900") == Ok(900.0) && PyFloat("200") == Ok(200.0)
  {
    ExampleValues();
    PyFloatOfDigits("900");
    PyFloatOfDigits("200");
  }

  lemma ExampleValues()
    ensures AllDigits("900") && AllDigits("200") && DigitsValue("900") == 900 && DigitsValue("200") == 200
    ensures DigitsValue("113") == 113 && DigitsValue("2") == 2
  {
    assert DigitsValue("113") == 113 by { assert "113"[..2] == "11" && "11"[..1] == "1"; }
    assert DigitsValue("900") == 900 by { assert "900"[..2] == "90" && "90"[..1] == "9"; }
    assert DigitsValue("200") == 200 by { assert "200"[..2] == "20" && "20"[..1] == "2"; }
    assert DigitsValue("2") == 2 by { assert "2"[..0] == ""; }
  }

  lemma ExampleText()
    ensures Callout("113", "10", "900", "200", "2") == "V113°#10-900+200x2"
  {
  }

  /** `V113°#10-900+200x2` gives segments [900, 200], angles [113], count 2 and length 1100. */
  lemma Example(t: Tables, text: string)
    requires text == "V113°#10-900+200x2"
    ensures Process(t, text).Ok? && Process(t, text).value.Some?
    ensures var rec := Process(t, text).value.value;
      rec.segments == [900.0, 200.0] && rec.angles == [113] && rec.count == 2
      && rec.length == 1100.0 && rec.rebarNumber == "#10"
  {
    ExampleGroups();
    ExampleText();
    CalloutFields(t, "113", "10", "900", "200", "2", 113, 900.0, 200.0, 2, text);
  }
}
