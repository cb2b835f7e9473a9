// utils/graphics/shapes/complex_shape.py: the multi-segment bar drawn as a
// staircase, with its lengths, bend angles, designation and information
// caption. The plot limits and the unused bend radius are not modelled.

module ComplexShape {
  import opened Common
  import opened ShapeCommon

  /** The professional layout's first point and scale. */
  const Origin := Pt(100.0, 150.0)
  const Scale := 2.0

  /** The direction of segment `i`: right for even `i`, down for odd. */
  function Dir(i: nat): (real, real)
  {
    if i % 2 == 0 then (1.0, 0.0) else (0.0, -1.0)
  }

  function Advance(p: Pt, i: nat, length: real, scale: real): Pt
  {
    var d := Dir(i);
    Pt(p.x + length * scale * d.0, p.y + length * scale * d.1)
  }

  /** The points visited from `start`, one more than there are segments. */
  function Walk(start: Pt, scale: real, segs: seq<real>): (pts: seq<Pt>)
    ensures |pts| == |segs| + 1 && pts[0] == start
    decreases |segs|
  {
    if segs == [] then [start]
    else
      var prev := Walk(start, scale, segs[..|segs| - 1]);
      prev + [Advance(prev[|segs| - 1], |segs| - 1, segs[|segs| - 1], scale)]
  }

  /** The line of each segment, between consecutive points of the walk. */
  function Lines(start: Pt, scale: real, segs: seq<real>): (ls: seq<seq<Pt>>)
    ensures |ls| == |segs|
    decreases |segs|
  {
    if segs == [] then []
    else
      var prev := Walk(start, scale, segs[..|segs| - 1]);
      Lines(start, scale, segs[..|segs| - 1]) + [Segment(prev[|segs| - 1], Advance(prev[|segs| - 1], |segs| - 1, segs[|segs| - 1], scale))]
  }

  lemma {:induction false} WalkPrefix(start: Pt, scale: real, segs: seq<real>, k: nat)
    requires k <= |segs|
    ensures Walk(start, scale, segs[..k]) == Walk(start, scale, segs)[..k + 1]
    decreases |segs|
  {
    if k < |segs| {
      assert segs[..|segs| - 1][..k] == segs[..k];
      WalkPrefix(start, scale, segs[..|segs| - 1], k);
    } else {
      assert segs[..k] == segs;
    }
  }

  /** One step of the walk: segment `i` moves by `scale` times its length, right when `i` is even and down when odd. */
  lemma AdvanceDir(p: Pt, i: nat, length: real, scale: real)
    ensures var q := Advance(p, i, length, scale);
            && (i % 2 == 0 ==> q.y == p.y && q.x - p.x == length * scale)
            && (i % 2 == 1 ==> q.x == p.x && p.y - q.y == length * scale)
  {
  }

  lemma WalkStep(start: Pt, scale: real, segs: seq<real>, i: nat)
    requires i < |segs|
    ensures Walk(start, scale, segs[..i + 1]) == Walk(start, scale, segs[..i]) + [Advance(Walk(start, scale, segs[..i])[i], i, segs[i], scale)]
    ensures Lines(start, scale, segs[..i + 1]) == Lines(start, scale, segs[..i]) + [Segment(Walk(start, scale, segs[..i])[i], Advance(Walk(start, scale, segs[..i])[i], i, segs[i], scale))]
  {
    assert segs[..i + 1][..i] == segs[..i];
  }

  /**
   * The staircase: segment `i` goes from point `i` to point `i + 1`, by
   * `scale` times its length, right when `i` is even and down when odd; the
   * line drawn for it joins those two points.
   */
  lemma {:induction false} Staircase(start: Pt, scale: real, segs: seq<real>, i: nat)
    requires i < |segs|
    ensures var pts := Walk(start, scale, segs);
            && (i % 2 == 0 ==> pts[i + 1].y == pts[i].y && pts[i + 1].x - pts[i].x == segs[i] * scale)
            && (i % 2 == 1 ==> pts[i + 1].x == pts[i].x && pts[i].y - pts[i + 1].y == segs[i] * scale)
            && Lines(start, scale, segs)[i] == [pts[i], pts[i + 1]]
  {
    var pts := Walk(start, scale, segs);
    PointStep(start, scale, segs, i);
    StairStep(pts, scale, segs, i);
    LineOfSegment(start, scale, segs, i);
  }

  /** A point that advances from the previous one goes right on even segments and down on odd ones. */
  lemma StairStep(pts: seq<Pt>, scale: real, segs: seq<real>, i: nat)
    requires i < |segs| && i + 1 < |pts| && pts[i + 1] == Advance(pts[i], i, segs[i], scale)
    ensures i % 2 == 0 ==> pts[i + 1].y == pts[i].y && pts[i + 1].x - pts[i].x == segs[i] * scale
    ensures i % 2 == 1 ==> pts[i + 1].x == pts[i].x && pts[i].y - pts[i + 1].y == segs[i] * scale
  {
    AdvanceDir(pts[i], i, segs[i], scale);
  }

  /** The line drawn for segment `i` joins points `i` and `i + 1` of the walk. */
  lemma LineOfSegment(start: Pt, scale: real, segs: seq<real>, i: nat)
    requires i < |segs|
    ensures Lines(start, scale, segs)[i] == [Walk(start, scale, segs)[i], Walk(start, scale, segs)[i + 1]]
  {
    var pts := Walk(start, scale, segs);
    WalkStep(start, scale, segs, i);
    LinesPrefix(start, scale, segs, i + 1);
    WalkPrefix(start, scale, segs, i);
    PointStep(start, scale, segs, i);
    var w := Walk(start, scale, segs[..i]);
    assert w[i] == pts[i];
    assert Lines(start, scale, segs)[i] == Lines(start, scale, segs[..i + 1])[i];
  }

  lemma PointStep(start: Pt, scale: real, segs: seq<real>, i: nat)
    requires i < |segs|
    ensures Walk(start, scale, segs)[i + 1] == Advance(Walk(start, scale, segs)[i], i, segs[i], scale)
  {
    var pts := Walk(start, scale, segs);
    WalkStep(start, scale, segs, i);
    WalkPrefix(start, scale, segs, i + 1);
    WalkPrefix(start, scale, segs, i);
    var w := Walk(start, scale, segs[..i]);
    assert w[i] == pts[i];
    assert Walk(start, scale, segs[..i + 1])[i + 1] == pts[i + 1];
  }

  lemma {:induction false} LinesPrefix(start: Pt, scale: real, segs: seq<real>, k: nat)
    requires k <= |segs|
    ensures Lines(start, scale, segs[..k]) == Lines(start, scale, segs)[..k]
    decreases |segs|
  {
    if k < |segs| {
      assert segs[..|segs| - 1][..k] == segs[..k];
      LinesPrefix(start, scale, segs[..|segs| - 1], k);
    } else {
      assert segs[..k] == segs;
    }
  }

  /** The angle shown at the start of segment `i`: only past the first segment and when not 90. */
  function AngleText(p: Pt, i: nat, angles: seq<int>): (ts: seq<Text>)
    ensures |ts| <= 1
    ensures ts != [] <==> 0 < i <= |angles| && angles[i - 1] != 90
  {
    if i > 0 && angles != [] && |angles| >= i && angles[i - 1] != 90 then [Text(p, IntToString(angles[i - 1]) + "°")] else []
  }

  /** The length of segment `i` at its middle: above a horizontal segment, right of a vertical one. */
  function SegmentText(p: Pt, q: Pt, i: nat, length: real, offset: real): Text
  {
    if i % 2 == 0 then Text(Pt((p.x + q.x) / 2.0, p.y + offset), Label(length))
    else Text(Pt(p.x + offset, (p.y + q.y) / 2.0), Label(length))
  }

  /** The texts of the loop, segment by segment: its length, then the angle where it starts. */
  function Texts(segs: seq<real>, angles: seq<int>, offset: real): seq<Text>
    decreases |segs|
  {
    if segs == [] then []
    else
      var n := |segs|;
      var p := Walk(Origin, Scale, segs[..n - 1])[n - 1];
      Texts(segs[..n - 1], angles, offset)
      + [SegmentText(p, Advance(p, n - 1, segs[n - 1], Scale), n - 1, segs[n - 1], offset)]
      + AngleText(p, n - 1, angles)
  }

  /** One more segment adds its length text, then its angle text if any. */
  lemma TextsStep(segs: seq<real>, angles: seq<int>, offset: real, i: nat)
    requires i < |segs|
    ensures var p := Walk(Origin, Scale, segs[..i])[i];
            Texts(segs[..i + 1], angles, offset)
            == Texts(segs[..i], angles, offset) + [SegmentText(p, Advance(p, i, segs[i], Scale), i, segs[i], offset)]
               + AngleText(p, i, angles)
  {
    assert segs[..i + 1][..i] == segs[..i];
  }

  /**
   * What the manager hands the professional drawer besides the bend-radius
   * function, whose value the drawing never uses: its diameter table and
   * `get_material_grade`.
   */
  datatype Helpers = Helpers(diameters: map<string, real>, grade: string -> string)

  /** `all([get_bend_radius_func, get_material_grade_func, rebar_diameters])`: given, with a non-empty table. */
  predicate HasHelpers(h: Option<Helpers>)
  {
    h.Some? && h.value.diameters != map[]
  }

  /** `rebar_diameters.get(rebar_number, 12.7)`. */
  function DiameterOf(h: Helpers, number: string): (d: real)
    ensures number in h.diameters ==> d == h.diameters[number]
    ensures number !in h.diameters ==> d == 12.7
  {
    if number in h.diameters then h.diameters[number] else 12.7
  }

  /** `max(p[0] for p in pts)`. */
  function MaxX(pts: seq<Pt>): (m: real)
    requires pts != []
    ensures forall i :: 0 <= i < |pts| ==> pts[i].x <= m
    ensures exists i :: 0 <= i < |pts| && pts[i].x == m
  {
    if |pts| == 1 then pts[0].x
    else
      var rest := MaxX(pts[1..]);
      assert forall i :: 1 <= i < |pts| ==> pts[i] == pts[1..][i - 1];
      MaxReal(pts[0].x, rest)
  }

  /** `max(p[1] for p in pts)`. */
  function MaxY(pts: seq<Pt>): (m: real)
    requires pts != []
    ensures forall i :: 0 <= i < |pts| ==> pts[i].y <= m
    ensures exists i :: 0 <= i < |pts| && pts[i].y == m
  {
    if |pts| == 1 then pts[0].y
    else
      var rest := MaxY(pts[1..]);
      assert forall i :: 1 <= i < |pts| ==> pts[i] == pts[1..][i - 1];
      MaxReal(pts[0].y, rest)
  }

  /** The caption's six lines: diameter, grade, total length, the lengths, their count and the shape. */
  function InfoText(segs: seq<real>, number: string, h: Helpers): string
  {
    "鋼筋規格: D" + OneDecimal(DiameterOf(h, number)) + "mm\n"
    + "材料等級: " + h.grade(number) + "\n"
    + "總長度: " + Show(SumReals(segs)) + "cm\n"
    + "分段: " + ShowJoined(segs) + "cm\n"
    + "段數: " + NatToString(|segs|) + "段\n"
    + "形狀: 階梯"
  }

  /** Where the caption goes: 30 right of the rightmost point of the walk, level with the highest. */
  function InfoAt(pts: seq<Pt>): Pt
    requires pts != []
  {
    Pt(MaxX(pts) + 30.0, MaxY(pts))
  }

  /** The information caption. */
  function Info(pts: seq<Pt>, segs: seq<real>, number: string, h: Helpers): Text
    requires pts != []
  {
    Text(InfoAt(pts), InfoText(segs, number, h))
  }

  /**
   * The professional drawing: the staircase, its texts, the designation
   * left of the start and the information caption.
   */
  function Professional(segs: seq<real>, number: string, angles: seq<int>, offset: real, h: Helpers): Drawing
  {
    Drawing(Lines(Origin, Scale, segs),
            Texts(segs, angles, offset) + [Text(Pt(Origin.x - 60.0, Origin.y), number), Info(Walk(Origin, Scale, segs), segs, number, h)])
  }

  /** The drawing loop of `_draw_professional_complex_rebar`, then the designation and the caption. */
  method DrawProfessional(segs: seq<real>, number: string, angles: seq<int>, offset: real, h: Helpers) returns (d: Drawing)
    ensures d == Professional(segs, number, angles, offset, h)
  {
    var current := Origin;
    var points := [Origin];
    var lines: seq<seq<Pt>> := [];
    var texts: seq<Text> := [];
    var i := 0;
    while i < |segs|
      invariant 0 <= i <= |segs|
      invariant points == Walk(Origin, Scale, segs[..i]) && current == points[i]
      invariant lines == Lines(Origin, Scale, segs[..i])
      invariant texts == Texts(segs[..i], angles, offset)
    {
      var end := Advance(current, i, segs[i], Scale);
      lines := lines + [Segment(current, end)];
      texts := texts + [SegmentText(current, end, i, segs[i], offset)];
      if i > 0 && angles != [] && |angles| >= i {
        var angle := angles[i - 1];
        if angle != 90 {
          texts := texts + [Text(current, IntToString(angle) + "°")];
        }
      }
      WalkStep(Origin, Scale, segs, i);
      TextsStep(segs, angles, offset, i);
      current := end;
      points := points + [current];
      i := i + 1;
    }
    assert segs[..i] == segs;
    texts := texts + [Text(Pt(Origin.x - 60.0, Origin.y), number), Info(points, segs, number, h)];
    d := Drawing(lines, texts);
  }

  /** A step of non-negative length by a non-negative scale never goes left or up. */
  lemma AdvanceMonotone(p: Pt, i: nat, length: real, scale: real)
    requires length >= 0.0 && scale >= 0.0
    ensures var q := Advance(p, i, length, scale); p.x <= q.x && q.y <= p.y
  {
    AdvanceDir(p, i, length, scale);
    assert length * scale >= 0.0;
  }

  /** No point lies right of the last or above the first. */
  predicate EndsRightStartsHigh(pts: seq<Pt>)
    requires pts != []
  {
    forall i :: 0 <= i < |pts| ==> pts[i].x <= pts[|pts| - 1].x && pts[i].y <= pts[0].y
  }

  /** With no negative length the walk goes only right and down, so it ends rightmost and starts highest. */
  lemma {:induction false} WalkMonotone(start: Pt, scale: real, segs: seq<real>)
    requires scale >= 0.0 && forall k :: 0 <= k < |segs| ==> segs[k] >= 0.0
    ensures EndsRightStartsHigh(Walk(start, scale, segs))
    decreases |segs|
  {
    if segs != [] {
      var n := |segs|;
      var prev := Walk(start, scale, segs[..n - 1]);
      WalkMonotone(start, scale, segs[..n - 1]);
      var q := Advance(prev[n - 1], n - 1, segs[n - 1], scale);
      AdvanceMonotone(prev[n - 1], n - 1, segs[n - 1], scale);
      MonotoneSnoc(prev, q);
    }
  }

  /** One more point right of and below the last keeps the property. */
  lemma MonotoneSnoc(prev: seq<Pt>, q: Pt)
    requires prev != [] && EndsRightStartsHigh(prev)
    requires prev[|prev| - 1].x <= q.x && q.y <= prev[|prev| - 1].y
    ensures EndsRightStartsHigh(prev + [q])
  {
    var pts := prev + [q];
    forall i | 0 <= i < |pts| ensures pts[i].x <= pts[|pts| - 1].x && pts[i].y <= pts[0].y {
      if i < |prev| {
        assert pts[i] == prev[i];
      }
    }
  }

  /** Then the last point is the rightmost and the first the highest. */
  lemma MaxOfMonotone(pts: seq<Pt>)
    requires pts != [] && EndsRightStartsHigh(pts)
    ensures MaxX(pts) == pts[|pts| - 1].x && MaxY(pts) == pts[0].y
  {
    var i :| 0 <= i < |pts| && pts[i].x == MaxX(pts);
    var k :| 0 <= k < |pts| && pts[k].y == MaxY(pts);
  }

  /**
   * With no negative length the caption sits 30 right of the end of the
   * staircase, level with its start, the highest point.
   */
  lemma InfoCorner(segs: seq<real>)
    requires forall k :: 0 <= k < |segs| ==> segs[k] >= 0.0
    ensures var pts := Walk(Origin, Scale, segs);
            InfoAt(pts) == Pt(pts[|segs|].x + 30.0, Origin.y)
  {
    var pts := Walk(Origin, Scale, segs);
    WalkMonotone(Origin, Scale, segs);
    MaxOfMonotone(pts);
  }

  /**
   * With no angle other than 90 there is exactly one text per segment, its
   * length, above the middle of a horizontal segment or right of the
   * middle of a vertical one.
   */
  lemma {:induction false} RightAngleTexts(segs: seq<real>, angles: seq<int>, offset: real)
    requires forall k :: 0 <= k < |angles| ==> angles[k] == 90
    ensures var ts := Texts(segs, angles, offset);
            var pts := Walk(Origin, Scale, segs);
            && |ts| == |segs|
            && forall i :: 0 <= i < |segs| ==> ts[i] == SegmentText(pts[i], pts[i + 1], i, segs[i], offset)
    decreases |segs|
  {
    if segs != [] {
      var n := |segs|;
      RightAngleTexts(segs[..n - 1], angles, offset);
      RightAngleStep(segs, angles, offset);
    }
  }

  lemma RightAngleStep(segs: seq<real>, angles: seq<int>, offset: real)
    requires segs != [] && forall k :: 0 <= k < |angles| ==> angles[k] == 90
    requires var front := segs[..|segs| - 1];
             var ts := Texts(front, angles, offset);
             var pts := Walk(Origin, Scale, front);
             && |ts| == |front|
             && forall i :: 0 <= i < |front| ==> ts[i] == SegmentText(pts[i], pts[i + 1], i, front[i], offset)
    ensures var ts := Texts(segs, angles, offset);
            var pts := Walk(Origin, Scale, segs);
            && |ts| == |segs|
            && forall i :: 0 <= i < |segs| ==> ts[i] == SegmentText(pts[i], pts[i + 1], i, segs[i], offset)
  {
    var n := |segs|;
    var front := segs[..n - 1];
    var pts := Walk(Origin, Scale, segs);
    var fpts := Walk(Origin, Scale, front);
    TextsStep(segs, angles, offset, n - 1);
    assert segs[..n] == segs;
    assert AngleText(fpts[n - 1], n - 1, angles) == [];
    WalkPrefix(Origin, Scale, segs, n - 1);
    PointStep(Origin, Scale, segs, n - 1);
    assert fpts == pts[..n];
    var ts := Texts(segs, angles, offset);
    forall i | 0 <= i < n ensures ts[i] == SegmentText(pts[i], pts[i + 1], i, segs[i], offset) {
      if i < n - 1 {
        assert front[i] == segs[i] && fpts[i] == pts[i] && fpts[i + 1] == pts[i + 1];
      }
    }
  }

  /** `angles + [90] * (n - 1 - len(angles))` when the list is short. */
  function PadAngles(angles: seq<int>, n: nat): (r: seq<int>)
    ensures |angles| < n - 1 ==> |r| == n - 1
    ensures |angles| >= n - 1 ==> r == angles
    ensures r[..|angles|] == angles && forall k :: |angles| <= k < |r| ==> r[k] == 90
  {
    if |angles| < n - 1 then angles + seq(n - 1 - |angles|, _ => 90) else angles
  }

  /**
   * `draw_complex_rebar`. Professional mode needs its helpers and raises a
   * TypeError when `angles` is None, because the padding asks for
   * `len(None)`. Basic mode raises a ValueError at `max` on no segments.
   */
  function DrawComplex(segs: seq<real>, number: string, professional: bool, angles: Option<seq<int>>,
                       offset: real, helpers: Option<Helpers>): (r: Outcome<Drawing>)
    ensures professional && !HasHelpers(helpers) ==> r == Raises(ValueError)
    ensures professional && HasHelpers(helpers) && angles.None? ==> r == Raises(TypeError)
    ensures !professional ==> (r.Raises? <==> segs == [])
  {
    if professional then
      if !HasHelpers(helpers) then Raises(ValueError)
      else if angles.None? then Raises(TypeError)
      else Ok(Professional(segs, number, PadAngles(angles.value, |segs|), offset, helpers.value))
    else if segs == [] then Raises(ValueError)
    else Ok(Basic(segs, number))
  }

  /** The basic drawing: the same staircase unscaled from the origin, the designation over the middle of the total. */
  function Basic(segs: seq<real>, number: string): Drawing
  {
    Drawing(Lines(Pt(0.0, 0.0), 1.0, segs), [Text(Pt(SumReals(segs) / 2.0, 0.3), number)])
  }

  /** What the code evidently intends for a missing list: every bend 90, so nothing raises. */
  function DrawComplexIntended(segs: seq<real>, number: string, professional: bool, angles: Option<seq<int>>,
                               offset: real, helpers: Option<Helpers>): (r: Outcome<Drawing>)
  {
    DrawComplex(segs, number, professional, Some(if angles.Some? then angles.value else []), offset, helpers)
  }

  /**
   * With its helpers, the intended professional drawing never raises, and
   * no angles means only length labels besides the designation and caption.
   */
  lemma IntendedNoAngles(segs: seq<real>, number: string, offset: real, h: Helpers)
    requires h.diameters != map[]
    ensures var r := DrawComplexIntended(segs, number, true, None, offset, Some(h));
            && r.Ok?
            && |r.value.texts| == |segs| + 2
            && r.value.lines == Lines(Origin, Scale, segs)
  {
    RightAngleTexts(segs, PadAngles([], |segs|), offset);
  }
}
