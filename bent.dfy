// utils/graphics/shapes/bent.py: reading a `折` designation and laying out
// the bent bar.

module Bent {
  import opened Common
  import opened ShapeCommon
  import Pattern

  /** `^折(\d+)`. */
  const AnglePat: Pattern.Pat := Pattern.Lit('折', Pattern.Run(Pattern.Digits, Pattern.End))

  /** `#\d+-([\d\.]+)\+([\d\.]+)`; the designation digits are the first run. */
  const LengthsPat: Pattern.Pat :=
    Pattern.Lit('#', Pattern.Run(Pattern.Digits, Pattern.Lit('-', Pattern.Run(Pattern.Num,
      Pattern.Lit('+', Pattern.Run(Pattern.Num, Pattern.End))))))

  /** The angle and the two lengths, each truncated to an integer. */
  datatype BentSpec = BentSpec(angle: int, length1: int, length2: int)

  lemma LengthsCaps(caps: seq<string>)
    requires Pattern.ValidCaps(LengthsPat, caps)
    ensures |caps| == 3 && caps[0] != [] && AllDigits(caps[0])
    ensures forall i :: 0 <= i < |caps[1]| ==> IsNumChar(caps[1][i])
    ensures forall i :: 0 <= i < |caps[2]| ==> IsNumChar(caps[2][i])
  {
    Pattern.ValidCapsClasses(LengthsPat, caps);
    assert Pattern.Classes(LengthsPat) == [Pattern.Digits, Pattern.Num, Pattern.Num];
    assert Pattern.AllIn(Pattern.Digits, caps[0]) && Pattern.AllIn(Pattern.Num, caps[1]) && Pattern.AllIn(Pattern.Num, caps[2]);
  }

  /** The angle after a leading `折`, or 0. */
  function AngleOf(text: string): (a: nat)
  {
    match Pattern.MatchAt(AnglePat, text)
    case Some(caps) =>
      Pattern.MatchSound(AnglePat, text);
      DigitsValue(caps[0])
    case None => 0
  }

  /**
   * `parse_bent_rebar_string`: the angle, then the two lengths of the first
   * `#n-L1+L2`, through `int(float(...))`; None without such a part, and the
   * ValueError of `float` for a length like `1.2.3`.
   */
  function ParseBent(text: string): (r: Outcome<Option<BentSpec>>)
    ensures Pattern.SearchFrom(LengthsPat, text, 0).None? ==> r == Ok(None)
  {
    match Pattern.SearchFrom(LengthsPat, text, 0)
    case None => Ok(None)
    case Some((j, caps)) =>
      Pattern.MatchSound(LengthsPat, text[j..]);
      LengthsCaps(caps);
      var f1 :- PyFloat(caps[1]);
      var f2 :- PyFloat(caps[2]);
      Ok(Some(BentSpec(AngleOf(text), PyTrunc(f1), PyTrunc(f2))))
  }

  /** The bent designation `折a#n-L1+L2` followed by anything that does not continue `L2`. */
  function BentText(a: nat, n: string, l1: string, l2: string, rest: string): string
  {
    "折" + NatToString(a) + "#" + n + "-" + l1 + "+" + l2 + rest
  }

  /**
   * Round trip: a bent designation built from an angle, a designation and
   * two whole lengths reads back as that angle and those lengths, whatever
   * follows (a count `x20` included).
   */
  lemma ParseBentRoundTrip(a: nat, n: string, l1: string, l2: string, rest: string)
    requires n != [] && AllDigits(n) && l1 != [] && AllDigits(l1) && l2 != [] && AllDigits(l2)
    requires rest == [] || !IsNumChar(rest[0])
    ensures ParseBent(BentText(a, n, l1, l2, rest)) == Ok(Some(BentSpec(a, DigitsValue(l1), DigitsValue(l2))))
  {
    var text := BentText(a, n, l1, l2, rest);
    var digits := NatToString(a);
    BentTextRead(a, n, l1, l2, rest, text);
    PyFloatOfDigits(l1);
    PyFloatOfDigits(l2);
    ParseBentOf(text, 1 + |digits|, n, l1, l2, a);
  }

  /** The angle and the first lengths part of a bent designation are where it was built from. */
  lemma BentTextRead(a: nat, n: string, l1: string, l2: string, rest: string, text: string)
    requires n != [] && AllDigits(n) && l1 != [] && AllDigits(l1) && l2 != [] && AllDigits(l2)
    requires rest == [] || !IsNumChar(rest[0])
    requires text == BentText(a, n, l1, l2, rest)
    ensures AngleOf(text) == a
    ensures Pattern.SearchFrom(LengthsPat, text, 0) == Some((1 + |NatToString(a)|, [n, l1, l2]))
  {
    LengthsFound(NatToString(a), n, l1, l2, rest);
    var tail := "#" + n + "-" + l1 + "+" + l2 + rest;
    BentTextSplit(a, n, l1, l2, rest);
    AngleRead(a, tail);
  }

  /** The designation is the angle part followed by the lengths part. */
  lemma BentTextSplit(a: nat, n: string, l1: string, l2: string, rest: string)
    ensures BentText(a, n, l1, l2, rest) == "折" + NatToString(a) + ("#" + n + "-" + l1 + "+" + l2 + rest)
  {
  }

  /** `parse_bent_rebar_string` once the angle, the lengths part and both lengths are known. */
  lemma ParseBentOf(text: string, j: nat, n: string, l1: string, l2: string, a: nat)
    requires l1 != [] && AllDigits(l1) && l2 != [] && AllDigits(l2)
    requires Pattern.SearchFrom(LengthsPat, text, 0) == Some((j, [n, l1, l2])) && AngleOf(text) == a
    requires PyFloat(l1) == Ok(DigitsValue(l1) as real) && PyFloat(l2) == Ok(DigitsValue(l2) as real)
    ensures ParseBent(text) == Ok(Some(BentSpec(a, DigitsValue(l1), DigitsValue(l2))))
  {
    assert PyTrunc(DigitsValue(l1) as real) == DigitsValue(l1);
    assert PyTrunc(DigitsValue(l2) as real) == DigitsValue(l2);
  }

  lemma AngleRead(a: nat, tail: string)
    requires tail != [] && tail[0] == '#'
    ensures AngleOf("折" + NatToString(a) + tail) == a
  {
    var digits := NatToString(a);
    assert Pattern.Render(Pattern.Run(Pattern.Digits, Pattern.End), [digits]) == digits;
    assert Pattern.Render(AnglePat, [digits]) == "折" + digits;
    assert Pattern.Classes(AnglePat) == [Pattern.Digits];
    Pattern.ClassesValid(AnglePat, [digits]);
    Pattern.MatchRender(AnglePat, [digits], tail);
  }

  lemma LengthsFound(digits: string, n: string, l1: string, l2: string, rest: string)
    requires digits != [] && AllDigits(digits)
    requires n != [] && AllDigits(n) && l1 != [] && AllDigits(l1) && l2 != [] && AllDigits(l2)
    requires rest == [] || !IsNumChar(rest[0])
    ensures var text := "折" + digits + "#" + n + "-" + l1 + "+" + l2 + rest;
            Pattern.SearchFrom(LengthsPat, text, 0) == Some((1 + |digits|, [n, l1, l2]))
  {
    var tail := "#" + n + "-" + l1 + "+" + l2 + rest;
    var text := "折" + digits + tail;
    assert text == "折" + digits + "#" + n + "-" + l1 + "+" + l2 + rest;
    var j := 1 + |digits|;
    LengthsMatch(n, l1, l2, rest);
    assert text[j..] == tail;
    forall k | 0 <= k < j ensures Pattern.MatchAt(LengthsPat, text[k..]).None? {
      assert text[k] != '#';
    }
    Pattern.SearchFirst(LengthsPat, text, j, [n, l1, l2]);
  }

  lemma LengthsMatch(n: string, l1: string, l2: string, rest: string)
    requires n != [] && AllDigits(n) && l1 != [] && AllDigits(l1) && l2 != [] && AllDigits(l2)
    requires rest == [] || !IsNumChar(rest[0])
    ensures Pattern.MatchAt(LengthsPat, "#" + n + "-" + l1 + "+" + l2 + rest) == Some([n, l1, l2])
  {
    var caps := [n, l1, l2];
    LengthsRender(n, l1, l2);
    assert Pattern.AllIn(Pattern.Num, l1) && Pattern.AllIn(Pattern.Num, l2);
    assert Pattern.Classes(LengthsPat) == [Pattern.Digits, Pattern.Num, Pattern.Num];
    Pattern.ClassesValid(LengthsPat, caps);
    Pattern.StopsFinal(LengthsPat, rest);
    Pattern.MatchRender(LengthsPat, caps, rest);
  }

  lemma LengthsRender(n: string, l1: string, l2: string)
    ensures Pattern.NumRuns(LengthsPat) == 3
    ensures Pattern.Render(LengthsPat, [n, l1, l2]) == "#" + n + "-" + l1 + "+" + l2
  {
    var p4 := Pattern.Run(Pattern.Num, Pattern.End);
    var p2 := Pattern.Run(Pattern.Num, Pattern.Lit('+', p4));
    var p0 := Pattern.Run(Pattern.Digits, Pattern.Lit('-', p2));
    var r2 := l1 + ("+" + l2);
    assert Pattern.Classes(LengthsPat) == [Pattern.Digits, Pattern.Num, Pattern.Num];
    assert Pattern.Render(p4, [l2]) == l2;
    assert Pattern.Render(p2, [l1, l2]) == r2 by { assert [l1, l2][1..] == [l2]; }
    assert Pattern.Render(p0, [n, l1, l2]) == n + ("-" + r2) by { assert [n, l1, l2][1..] == [l1, l2]; }
    assert LengthsPat == Pattern.Lit('#', p0);
    LengthsNested(n, l1, l2);
  }

  /** The lengths part, associated to the right as the pattern renders it. */
  lemma LengthsNested(n: string, l1: string, l2: string)
    ensures "#" + n + "-" + l1 + "+" + l2 == "#" + (n + ("-" + (l1 + ("+" + l2))))
  {
  }

  /** The first segment's fixed start and the drawn segment length. */
  const Margin := 70.0
  const SegLen := 120.0

  /**
   * `draw_bent_rebar`: a horizontal segment of 120 from (70, height/2), then
   * one of 120 at `180 - angle` degrees from +x; the lengths below and
   * beside the segments, the angle near the bend.
   */
  function DrawBent(t: Trig, angle: int, length1: int, length2: int, height: real): (d: Drawing)
  {
    var p0 := Pt(Margin, height / 2.0);
    var p1 := Pt(p0.x + SegLen, p0.y);
    var theta := Radians(t, 180.0 - angle as real);
    var p2 := Pt(p1.x + SegLen * t.cos(theta), p1.y + SegLen * t.sin(theta));
    Drawing([Segment(p0, p1), Segment(p1, p2)],
            [Text(Pt((p0.x + p1.x) / 2.0 - 30.0, p0.y - 38.0), IntToString(length1)),
             Text(Pt((p1.x + p2.x) / 2.0 + 10.0, (p1.y + p2.y) / 2.0), IntToString(length2)),
             Text(Pt(p1.x - 18.0, p1.y + 28.0), IntToString(angle) + "°")])
  }

  /**
   * The first segment is horizontal and 120 long whatever the lengths, and a
   * 180-degree bend continues it in a straight line to x = 310.
   */
  lemma BentLayout(t: Trig, angle: int, length1: int, length2: int, height: real)
    requires TrigFacts(t)
    ensures var d := DrawBent(t, angle, length1, length2, height);
            && d.lines[0] == [Pt(70.0, height / 2.0), Pt(190.0, height / 2.0)]
            && d.lines[1][0] == d.lines[0][1]
            && (angle == 180 ==> d.lines[1][1] == Pt(310.0, height / 2.0))
            && d.texts[2].at == Pt(172.0, height / 2.0 + 28.0)
  {
    if angle == 180 {
      assert Radians(t, 180.0 - angle as real) == 0.0;
    }
  }
}
