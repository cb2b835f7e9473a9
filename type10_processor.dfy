// Type10, the straight bar `#<n>-<length>x<count>`.

module Type10Processor {
  import opened Common
  import opened Pattern
  import opened BaseProcessor

  /** `(#\d+)-([\d\.]+)x(\d+)`; the designation group is '#' plus the first run. */
  const Pattern10: Pat := Lit('#', Run(Digits, Lit('-', Run(Num, Lit('x', Run(Digits, End))))))

  /** The groups of a match: designation digits, a `[\d\.]+` length token and count digits. */
  predicate Groups(caps: seq<string>)
  {
    |caps| == 3 && AllDigits(caps[0])
    && (forall i :: 0 <= i < |caps[1]| ==> IsNumChar(caps[1][i])) && AllDigits(caps[2])
  }

  lemma MatchGroups(caps: seq<string>)
    requires ValidCaps(Pattern10, caps)
    ensures Groups(caps)
  {
    ValidCapsClasses(Pattern10, caps);
    assert Classes(Pattern10) == [Digits, Num, Digits];
    assert AllIn(Digits, caps[0]) && AllIn(Num, caps[1]) && AllIn(Digits, caps[2]);
  }

  /** `parse_match`: float length, integer count, one straight segment. */
  function ParseMatch(t: Tables, caps: seq<string>, text: string): (r: Outcome<RebarRecord>)
    requires Groups(caps)
    ensures r.Ok? <==> PyFloat(caps[1]).Ok?
    ensures r.Raises? ==> r.error == ValueError
    ensures r.Ok? ==> Consistent(t, r.value) && |r.value.segments| == 1
    ensures r.Ok? ==> r.value.rtype == "type10" && r.value.note == "直料"
  {
    var length :- PyFloat(caps[1]);
    var number := "#" + caps[0];
    var count := DigitsValue(caps[2]);
    SumOneTwo(length, 0.0);
    Ok(RebarRecord(number, [length], [], None, count, text, length,
                   CalculateWeight(t, number, length, count), "type10", "直料"))
  }

  /** `process`: strip, match, parse; `Ok(None)` when the pattern does not match. */
  function Process(t: Tables, text: string): (r: Outcome<Option<RebarRecord>>)
    ensures r.Ok? && r.value.None? <==> !CanProcess(Pattern10, Strip(text))
    ensures r.Raises? ==> r.error == ValueError
    ensures r.Ok? && r.value.Some? ==> Consistent(t, r.value.value) && r.value.value.rawText == Strip(text)
    ensures r.Ok? && r.value.Some? ==> r.value.value.rtype == "type10"
  {
    match MatchStripped(Pattern10, text)
    case None => Ok(None)
    case Some((caps, s)) =>
      MatchGroups(caps);
      var rec :- ParseMatch(t, caps, s);
      Ok(Some(rec))
  }

  /** The text of a call-out with the given groups. */
  function Callout(n: string, len: string, c: string): string
  {
    "#" + n + "-" + len + "x" + c
  }

  lemma MatchCallout(n: string, len: string, c: string, rest: string)
    requires n != [] && AllDigits(n) && c != [] && AllDigits(c)
    requires len != [] && forall i :: 0 <= i < |len| ==> IsNumChar(len[i])
    requires rest == [] || (!IsDigit(rest[0]) && !IsSpace(rest[|rest| - 1]))
    ensures MatchStripped(Pattern10, Callout(n, len, c) + rest) == Some(([n, len, c], Callout(n, len, c) + rest))
  {
    var text := Callout(n, len, c) + rest;
    CalloutCaps(n, len, c);
    RenderCallout(n, len, c);
    StopsFinal(Pattern10, rest);
    MatchRender(Pattern10, [n, len, c], rest);
    CalloutStripped(n, len, c, rest);
    MatchStrippedOf(Pattern10, text, [n, len, c]);
  }

  /** The groups of a call-out are valid groups of the pattern. */
  lemma CalloutCaps(n: string, len: string, c: string)
    requires n != [] && AllDigits(n) && c != [] && AllDigits(c)
    requires len != [] && forall i :: 0 <= i < |len| ==> IsNumChar(len[i])
    ensures ValidCaps(Pattern10, [n, len, c]) && FinalRun(Pattern10) == Some(Digits) && WellFormed(Pattern10)
  {
    assert Classes(Pattern10) == [Digits, Num, Digits];
    ClassesValid(Pattern10, [n, len, c]);
  }

  /** The pattern rendered with a call-out's groups is the call-out. */
  lemma RenderCallout(n: string, len: string, c: string)
    ensures Render(Pattern10, [n, len, c]) == Callout(n, len, c)
  {
    var p4 := Run(Num, Lit('x', Run(Digits, End)));
    var p2 := Run(Digits, Lit('-', p4));
    var r4 := len + ("x" + c);
    var r2 := n + ("-" + r4);
    assert Render(Run(Digits, End), [c]) == c;
    assert Render(p4, [len, c]) == r4 by { assert [len, c][1..] == [c]; }
    assert Render(p2, [n, len, c]) == r2 by { assert [n, len, c][1..] == [len, c]; }
    assert Pattern10 == Lit('#', p2);
    CalloutNested(n, len, c);
  }

  /** The call-out text, associated to the right as the pattern renders it. */
  lemma CalloutNested(n: string, len: string, c: string)
    ensures Callout(n, len, c) == "#" + (n + ("-" + (len + ("x" + c))))
  {
  }

  /** A call-out followed by such text has nothing to strip. */
  lemma CalloutStripped(n: string, len: string, c: string, rest: string)
    requires c != [] && AllDigits(c)
    requires rest == [] || !IsSpace(rest[|rest| - 1])
    ensures Strip(Callout(n, len, c) + rest) == Callout(n, len, c) + rest
  {
    var text := Callout(n, len, c) + rest;
    assert text[|text| - 1] == if rest == [] then c[|c| - 1] else rest[|rest| - 1];
    assert text[0] == "#"[0];
    StripUnchanged(text);
  }

  /**
   * A straight call-out `#<n>-<len>x<count>` followed by text that does not
   * continue the count parses to one segment of `float(len)`, or raises
   * ValueError when `len` is not a valid float; trailing text is ignored.
   */
  lemma ProcessCallout(t: Tables, n: string, len: string, c: string, rest: string)
    requires n != [] && AllDigits(n) && c != [] && AllDigits(c)
    requires len != [] && forall i :: 0 <= i < |len| ==> IsNumChar(len[i])
    requires rest == [] || (!IsDigit(rest[0]) && !IsSpace(rest[|rest| - 1]))
    ensures var text := Callout(n, len, c) + rest;
      Process(t, text)
      == match PyFloat(len)
         case Raises(e) => Raises(e)
         case Ok(v) => Ok(Some(RebarRecord("#" + n, [v], [], None, DigitsValue(c), text, v,
                                           CalculateWeight(t, "#" + n, v, DigitsValue(c)),
                                           "type10", "直料")))
  {
    MatchCallout(n, len, c, rest);
  }

  lemma MultiSegmentNoMatch(n: string, a: string, b: string)
    requires n != [] && AllDigits(n)
    requires a != [] && forall i :: 0 <= i < |a| ==> IsNumChar(a[i])
    ensures MatchAt(Pattern10, "#" + n + "-" + a + "+" + b).None?
  {
    var s := "#" + n + "-" + a + "+" + b;
    var u := "-" + (a + ("+" + b));
    MultiSegmentShape(n, a, b);
    assert AllIn(Digits, n) && AllIn(Num, a);
    MatchLitStep('#', Pattern10.next, s);
    MatchRunStep(Digits, Pattern10.next.next, n, u);
    MatchLitStep('-', Pattern10.next.next.next, u);
    MatchRunStep(Num, Pattern10.next.next.next.next, a, "+" + b);
  }

  lemma MultiSegmentShape(n: string, a: string, b: string)
    ensures var u := "-" + (a + ("+" + b));
            ("#" + n + "-" + a + "+" + b)[0] == '#' && ("#" + n + "-" + a + "+" + b)[1..] == n + u
            && u[0] == '-' && u[1..] == a + ("+" + b)
  {
    var u := "-" + (a + ("+" + b));
    assert "#" + n + "-" + a + "+" + b == "#" + (n + u);
  }

  /**
   * A multi-segment length such as `#10-900+200x2` does not match: the
   * length run stops at '+', where the pattern needs 'x'.
   */
  lemma MultiSegmentRejected(t: Tables, n: string, a: string, b: string)
    requires n != [] && AllDigits(n)
    requires a != [] && forall i :: 0 <= i < |a| ==> IsNumChar(a[i])
    requires b == [] || !IsSpace(b[|b| - 1])
    ensures Process(t, "#" + n + "-" + a + "+" + b) == Ok(None)
  {
    var s := "#" + n + "-" + a + "+" + b;
    assert !IsSpace(s[|s| - 1]) by {
      if b == [] { assert s[|s| - 1] == '+'; } else { assert s[|s| - 1] == b[|b| - 1]; }
    }
    StripUnchanged(s);
    MultiSegmentNoMatch(n, a, b);
    MatchStrippedNone(Pattern10, s);
  }

  /** A length token with two dots, such as `1.2.3`, passes the pattern and then `float` raises. */
  lemma MalformedLengthRaises(t: Tables, n: string, len: string, c: string, d1: nat, d2: nat)
    requires n != [] && AllDigits(n) && c != [] && AllDigits(c)
    requires len != [] && forall i :: 0 <= i < |len| ==> IsNumChar(len[i])
    requires d1 < d2 < |len| && len[d1] == '.' && len[d2] == '.'
    ensures Process(t, Callout(n, len, c)) == Raises(ValueError)
  {
    CountTwo(len, d1, d2);
    ProcessCallout(t, n, len, c, "");
    assert Callout(n, len, c) + "" == Callout(n, len, c);
  }
}
