// Type11, the straight bar with safety hooks `安#<n>-<length>x<count>`.

module Type11Processor {
  import opened Common
  import opened Pattern
  import opened BaseProcessor

  /** `安(#\d+)-([\d\.]+)x(\d+)`; the designation group is '#' plus the first run. */
  const Pattern11: Pat := Lit('安', Lit('#', Run(Digits, Lit('-', Run(Num, Lit('x', Run(Digits, End)))))))

  /** The groups of a match: designation digits, a `[\d\.]+` length token and count digits. */
  predicate Groups(caps: seq<string>)
  {
    |caps| == 3 && AllDigits(caps[0])
    && (forall i :: 0 <= i < |caps[1]| ==> IsNumChar(caps[1][i])) && AllDigits(caps[2])
  }

  lemma MatchGroups(caps: seq<string>)
    requires ValidCaps(Pattern11, caps)
    ensures Groups(caps)
  {
    ValidCapsClasses(Pattern11, caps);
    assert Classes(Pattern11) == [Digits, Num, Digits];
    assert AllIn(Digits, caps[0]) && AllIn(Num, caps[1]) && AllIn(Digits, caps[2]);
  }

  /** `parse_match`: float length, integer count, one straight segment. */
  function ParseMatch(t: Tables, caps: seq<string>, text: string): (r: Outcome<RebarRecord>)
    requires Groups(caps)
    ensures r.Ok? <==> PyFloat(caps[1]).Ok?
    ensures r.Raises? ==> r.error == ValueError
    ensures r.Ok? ==> Consistent(t, r.value) && |r.value.segments| == 1
    ensures r.Ok? ==> r.value.rtype == "type11" && r.value.note == "安全彎鉤直"
  {
    var length :- PyFloat(caps[1]);
    var number := "#" + caps[0];
    var count := DigitsValue(caps[2]);
    SumOneTwo(length, 0.0);
    Ok(RebarRecord(number, [length], [], None, count, text, length,
                   CalculateWeight(t, number, length, count), "type11", "安全彎鉤直"))
  }

  /** `process`: strip, match, parse; `Ok(None)` when the pattern does not match. */
  function Process(t: Tables, text: string): (r: Outcome<Option<RebarRecord>>)
    ensures r.Ok? && r.value.None? <==> !CanProcess(Pattern11, Strip(text))
    ensures r.Raises? ==> r.error == ValueError
    ensures r.Ok? && r.value.Some? ==> Consistent(t, r.value.value) && r.value.value.rawText == Strip(text)
    ensures r.Ok? && r.value.Some? ==> r.value.value.rtype == "type11"
  {
    match MatchStripped(Pattern11, text)
    case None => Ok(None)
    case Some((caps, s)) =>
      MatchGroups(caps);
      var rec :- ParseMatch(t, caps, s);
      Ok(Some(rec))
  }

  /** The text of a call-out with the given groups. */
  function Callout(n: string, len: string, c: string): string
  {
    "安#" + n + "-" + len + "x" + c
  }

  lemma MatchCallout(n: string, len: string, c: string, rest: string)
    requires n != [] && AllDigits(n) && c != [] && AllDigits(c)
    requires len != [] && forall i :: 0 <= i < |len| ==> IsNumChar(len[i])
    requires rest == [] || (!IsDigit(rest[0]) && !IsSpace(rest[|rest| - 1]))
    ensures MatchStripped(Pattern11, Callout(n, len, c) + rest) == Some(([n, len, c], Callout(n, len, c) + rest))
  {
    var text := Callout(n, len, c) + rest;
    CalloutCaps(n, len, c);
    RenderCallout(n, len, c);
    StopsFinal(Pattern11, rest);
    MatchRender(Pattern11, [n, len, c], rest);
    CalloutStripped(n, len, c, rest);
    MatchStrippedOf(Pattern11, text, [n, len, c]);
  }

  /** The groups of a call-out are valid groups of the pattern. */
  lemma CalloutCaps(n: string, len: string, c: string)
    requires n != [] && AllDigits(n) && c != [] && AllDigits(c)
    requires len != [] && forall i :: 0 <= i < |len| ==> IsNumChar(len[i])
    ensures ValidCaps(Pattern11, [n, len, c]) && FinalRun(Pattern11) == Some(Digits) && WellFormed(Pattern11)
  {
    assert Classes(Pattern11) == [Digits, Num, Digits];
    ClassesValid(Pattern11, [n, len, c]);
  }

  /** The pattern rendered with a call-out's groups is the call-out. */
  lemma RenderCallout(n: string, len: string, c: string)
    ensures Render(Pattern11, [n, len, c]) == Callout(n, len, c)
  {
    var p4 := Run(Num, Lit('x', Run(Digits, End)));
    var p2 := Run(Digits, Lit('-', p4));
    var r4 := len + ("x" + c);
    var r2 := n + ("-" + r4);
    assert Render(Run(Digits, End), [c]) == c;
    assert Render(p4, [len, c]) == r4 by { assert [len, c][1..] == [c]; }
    assert Render(p2, [n, len, c]) == r2 by { assert [n, len, c][1..] == [len, c]; }
    assert Render(Lit('#', p2), [n, len, c]) == "#" + r2;
    assert Pattern11 == Lit('安', Lit('#', p2));
    CalloutNested(n, len, c);
  }

  /** The call-out text, associated to the right as the pattern renders it. */
  lemma CalloutNested(n: string, len: string, c: string)
    ensures Callout(n, len, c) == "安" + ("#" + (n + ("-" + (len + ("x" + c)))))
  {
  }

  /** A call-out followed by such text has nothing to strip. */
  lemma CalloutStripped(n: string, len: string, c: string, rest: string)
    requires c != [] && AllDigits(c)
    requires rest == [] || !IsSpace(rest[|rest| - 1])
    ensures Strip(Callout(n, len, c) + rest) == Callout(n, len, c) + rest
  {
    var text := Callout(n, len, c) + rest;
    assert text[|text| - 1] == if rest == [] then c[|c| - 1] else rest[|rest| - 1];
    assert text[0] == "安#"[0];
    StripUnchanged(text);
  }

  /**
   * A hooked call-out `安#<n>-<len>x<count>` followed by text that does not
   * continue the count parses to one segment of `float(len)`, type 'type11'
   * and note '安全彎鉤直', or raises ValueError when `len` is not a valid float.
   */
  lemma ProcessCallout(t: Tables, n: string, len: string, c: string, rest: string)
    requires n != [] && AllDigits(n) && c != [] && AllDigits(c)
    requires len != [] && forall i :: 0 <= i < |len| ==> IsNumChar(len[i])
    requires rest == [] || (!IsDigit(rest[0]) && !IsSpace(rest[|rest| - 1]))
    ensures var text := Callout(n, len, c) + rest;
      Process(t, text)
      == match PyFloat(len)
         case Raises(e) => Raises(e)
         case Ok(v) => Ok(Some(RebarRecord("#" + n, [v], [], None, DigitsValue(c), text, v,
                                           CalculateWeight(t, "#" + n, v, DigitsValue(c)),
                                           "type11", "安全彎鉤直")))
  {
    MatchCallout(n, len, c, rest);
  }

  /** The '安' prefix is required: text that starts with '#' once stripped never matches. */
  lemma HashTextRejected(t: Tables, text: string)
    requires Strip(text) != [] && Strip(text)[0] == '#'
    ensures !CanProcess(Pattern11, Strip(text))
    ensures Process(t, text) == Ok(None)
  {
  }
}
