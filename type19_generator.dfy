// utils/graphics/generators/type19_generator.py: the picture of a bar made of
// a straight run followed by an arc. The straight run is drawn at a fixed
// place whatever the lengths, and the arc starts at its end.

module Type19Generator {
  import opened Common
  import opened ShapeCommon
  import opened BaseGenerator

  const Prefix := "19-"

  const CentreX := 400.0
  const CentreY := 200.0
  const ScaleY := 400.0 / 600.0

  /** The drawn straight run, before scaling. */
  const StraightStart := 50.0
  const StraightEnd := 550.0
  const StraightY := 375.0

  /** The angle the arc spans: arc length over radius in degrees, uncapped; 90 without a positive radius. */
  function Span(t: Trig, arcLength: real, radius: real): real
    requires t.pi > 0.0
  {
    Degrees(t, if radius > 0.0 then arcLength / radius else t.pi / 2.0)
  }

  /**
   * Without a positive radius the span is 90 degrees; unlike the arc bar's,
   * the span is not capped, so an arc longer than half its circle spans more
   * than 180 degrees.
   */
  lemma SpanFacts(t: Trig, arcLength: real, radius: real)
    requires t.pi > 0.0
    ensures radius <= 0.0 ==> Span(t, arcLength, radius) == 90.0
    ensures radius > 0.0 && arcLength > radius * t.pi ==> Span(t, arcLength, radius) > 180.0
  {
    if radius <= 0.0 {
      assert t.pi / 2.0 * 180.0 / t.pi == 90.0;
    }
    if radius > 0.0 && arcLength > radius * t.pi {
      MulBelow(radius * t.pi, arcLength, 1.0 / radius);
      assert radius * t.pi * (1.0 / radius) == t.pi;
      assert arcLength * (1.0 / radius) == arcLength / radius;
      MulBelow(t.pi, arcLength / radius, 180.0 / t.pi);
      assert t.pi * (180.0 / t.pi) == 180.0;
    }
  }

  /**
   * `_draw_straight_arc_rebar` (both a line and a path in the SVG, `scaled`)
   * or `_draw_default_straight_arc`: the straight run, then the arc from 0
   * degrees to the span around a centre straight above the run's end; the
   * captions are placed for the unscaled run.
   */
  function StraightArcPicture(t: Trig, straightLength: real, arcLength: real, radius: real, radiusText: string, scaled: bool): (p: Picture)
    requires t.pi > 0.0
  {
    var span := Span(t, arcLength, radius);
    var x0 := if scaled then PyTrunc(StraightStart) as real else StraightStart;
    var x1 := if scaled then PyTrunc(StraightEnd) as real else StraightEnd;
    var y := if scaled then PyTrunc(StraightY * ScaleY) as real else StraightY;
    var rx := if scaled then PyTrunc(radius) as real else radius;
    var ry := if scaled then PyTrunc(radius * ScaleY) as real else radius;
    var centre := Pt(x1, y - ry);
    Picture(ImageWidth, ImageHeight, [Segment(Pt(x0, y), Pt(x1, y))],
            [Arc(Box(centre.x - rx, centre.y - ry, centre.x + rx, centre.y + ry), 0.0, span)],
            [Caption(Pt(CentreX, StraightY + 20.0), Show(straightLength), true),
             Caption(Pt(StraightEnd + 20.0, CentreY - 20.0), Show(arcLength), false),
             Caption(Pt(CentreX, CentreY - 80.0), "半徑 " + radiusText, true)])
  }

  /**
   * The straight run goes from x = 50 to 550 at y = 375, or at y = 250 when
   * drawn from the SVG, whatever the lengths; the arc starts at 0 degrees,
   * its centre straight above the run's end by the (scaled) radius; the
   * straight run's caption stays at y = 395 either way.
   */
  lemma StraightArcLayout(t: Trig, straightLength: real, arcLength: real, radius: real, radiusText: string, scaled: bool)
    requires t.pi > 0.0
    ensures var p := StraightArcPicture(t, straightLength, arcLength, radius, radiusText, scaled);
            var a := p.arcs[0];
            var y := if scaled then 250.0 else 375.0;
            && p.lines == [[Pt(50.0, y), Pt(550.0, y)]]
            && a.start == 0.0 && a.end == Span(t, arcLength, radius)
            && a.box.left + a.box.right == 2.0 * 550.0
            && (a.box.top + a.box.bottom) / 2.0 == y - (if scaled then PyTrunc(radius * ScaleY) as real else radius)
            && p.captions[0].at == Pt(400.0, 395.0)
  {
    assert StraightY * ScaleY == 250.0;
    assert PyTrunc(250.0) == 250;
    assert PyTrunc(50.0) == 50 && PyTrunc(550.0) == 550;
  }

  /**
   * `generate_image`: None without a material named `19-...` or without its
   * SVG; otherwise the picture, drawn from the SVG when it has both a line
   * and a path.
   */
  function GenerateImage(t: Trig, straightLength: real, arcLength: real, radius: real, radiusText: string,
                         materials: seq<string>, files: string -> SvgFile): (r: Option<Picture>)
    requires t.pi > 0.0
    ensures r.None? <==> LocateSvg(Prefix, materials, files).None?
    ensures r.Some? ==> var svg := LocateSvg(Prefix, materials, files).value;
              r.value == StraightArcPicture(t, straightLength, arcLength, radius, radiusText, svg.hasLine && svg.hasPath)
  {
    match LocateSvg(Prefix, materials, files)
    case None => None
    case Some(svg) => Some(StraightArcPicture(t, straightLength, arcLength, radius, radiusText, svg.hasLine && svg.hasPath))
  }
}
