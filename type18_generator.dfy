// utils/graphics/generators/type18_generator.py: the picture of an arc bar.
// The arc's span follows from its length and radius, capped at a half
// circle; the arc is symmetric about the canvas centre line.

module Type18Generator {
  import opened Common
  import opened ShapeCommon
  import opened BaseGenerator

  const Prefix := "18-"

  /** The canvas centre, `img_width // 2` and `img_height // 2`. */
  const CentreX := 400.0
  const CentreY := 200.0

  /** The vertical scale of the drawing from the SVG: the canvas height over 600. */
  const ScaleY := 400.0 / 600.0

  /** The angle the arc spans: its length over its radius in degrees, at most 180; 90 without a positive radius. */
  function Span(t: Trig, length: real, radius: real): real
    requires t.pi > 0.0
  {
    var angle := if radius > 0.0 then length / radius else t.pi / 2.0;
    MinReal(Degrees(t, angle), 180.0)
  }

  lemma SpanFacts(t: Trig, length: real, radius: real)
    requires t.pi > 0.0
    ensures Span(t, length, radius) <= 180.0
    ensures radius <= 0.0 ==> Span(t, length, radius) == 90.0
    ensures radius > 0.0 && Degrees(t, length / radius) <= 180.0 ==> Span(t, length, radius) == Degrees(t, length / radius)
  {
    if radius <= 0.0 {
      assert t.pi / 2.0 * 180.0 / t.pi == 90.0;
    }
  }

  /**
   * `_draw_arc_rebar` (with the SVG's path, `scaled`) or `_draw_default_arc`:
   * the arc from `-span/2` to `+span/2` in the box of half-width `radius`
   * and half-height `radius` or `radius * 400/600`, centred on the canvas;
   * the length above and the radius below.
   */
  function ArcPicture(t: Trig, length: real, radius: real, radiusText: string, scaled: bool): (p: Picture)
    requires t.pi > 0.0
  {
    var span := Span(t, length, radius);
    var sy := if scaled then ScaleY else 1.0;
    Picture(ImageWidth, ImageHeight, [],
            [Arc(Box(CentreX - radius, CentreY - radius * sy, CentreX + radius, CentreY + radius * sy), -span / 2.0, span / 2.0)],
            [Caption(Pt(CentreX, CentreY - radius - 50.0), Show(length), true),
             Caption(Pt(CentreX, CentreY + radius + 30.0), "半徑=" + radiusText, true)])
  }

  /**
   * The arc is symmetric about the vertical through the centre and spans
   * `Span`; its box is centred at (400, 200), 2·radius wide and 2·radius
   * high, or 2·radius·2/3 high when drawn from the SVG.
   */
  lemma ArcLayout(t: Trig, length: real, radius: real, radiusText: string, scaled: bool)
    requires t.pi > 0.0
    ensures var p := ArcPicture(t, length, radius, radiusText, scaled);
            var a := p.arcs[0];
            && |p.arcs| == 1 && p.lines == []
            && a.start == -a.end && a.end - a.start == Span(t, length, radius)
            && a.box.left + a.box.right == 2.0 * CentreX && a.box.top + a.box.bottom == 2.0 * CentreY
            && a.box.right - a.box.left == 2.0 * radius
            && a.box.bottom - a.box.top == (if scaled then 2.0 * radius * 2.0 / 3.0 else 2.0 * radius)
            && p.captions[0].at == Pt(CentreX, CentreY - radius - 50.0)
            && p.captions[1].at == Pt(CentreX, CentreY + radius + 30.0)
  {
  }

  /**
   * `generate_image`: None without a material named `18-...` or without its
   * SVG; otherwise the picture, drawn from the SVG when it has a path.
   */
  function GenerateImage(t: Trig, length: real, radius: real, radiusText: string,
                         materials: seq<string>, files: string -> SvgFile): (r: Option<Picture>)
    requires t.pi > 0.0
    ensures r.None? <==> LocateSvg(Prefix, materials, files).None?
    ensures r.Some? ==> r.value == ArcPicture(t, length, radius, radiusText, LocateSvg(Prefix, materials, files).value.hasPath)
  {
    match LocateSvg(Prefix, materials, files)
    case None => None
    case Some(svg) => Some(ArcPicture(t, length, radius, radiusText, svg.hasPath))
  }
}
