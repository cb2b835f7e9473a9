// utils/graphics/shapes/u_shape.py: the U-shaped bar, or the stepped bar
// handed to the complex drawer when the two legs differ.

module UShape {
  import opened Common
  import opened ShapeCommon
  import ComplexShape

  const MarginX := 18.0
  const MarginY := 16.0
  const HorScale := 4.0

  /** The common scale: the smaller of the width and height fits, each 1 when its total is not positive. */
  function FitScale(length1: real, length2: real, length3: real, width: real, height: real): (s: real)
  {
    var totalW := length2 * HorScale;
    var totalH := length1 + length3;
    var sx := if totalW > 0.0 then (width - 2.0 * MarginX) / totalW else 1.0;
    var sy := if totalH > 0.0 then (height - 2.0 * MarginY) / totalH else 1.0;
    MinReal(sx, sy)
  }

  /** The four vertices: down the left leg, along the bottom, up the right leg. */
  function Vertices(length1: real, length2: real, length3: real, width: real, height: real): (ps: seq<Pt>)
    ensures |ps| == 4
  {
    var scale := FitScale(length1, length2, length3, width, height);
    var l1s := length1 * scale;
    var l2s := length2 * HorScale * scale;
    [Pt(MarginX, MarginY), Pt(MarginX, MarginY + l1s), Pt(MarginX + l2s, MarginY + l1s), Pt(MarginX + l2s, MarginY)]
  }

  function Professional(length1: real, length2: real, length3: real, width: real, height: real): Drawing
  {
    var p := Vertices(length1, length2, length3, width, height);
    Drawing([Segment(p[0], p[1]), Segment(p[1], p[2]), Segment(p[2], p[3])],
            [Text(Pt(p[0].x - 10.0, (p[0].y + p[1].y) / 2.0), Label(length1)),
             Text(Pt((p[1].x + p[2].x) / 2.0, p[1].y - 10.0), Label(length2)),
             Text(Pt(p[3].x + 10.0, (p[3].y + p[2].y) / 2.0), Label(length3))])
  }

  /**
   * Both legs are drawn with the first length's scaled size: the third
   * length only shares in the scale and its label.
   */
  lemma LegsEqual(length1: real, length2: real, length3: real, width: real, height: real)
    ensures var p := Vertices(length1, length2, length3, width, height);
            p[1].y - p[0].y == p[2].y - p[3].y && p[0].y == p[3].y && p[1].y == p[2].y
  {
  }

  /** For positive lengths on a canvas larger than the margins, every vertex lies inside the margins. */
  lemma VerticesFit(length1: real, length2: real, length3: real, width: real, height: real)
    requires length1 > 0.0 && length2 > 0.0 && length3 > 0.0
    requires width >= 2.0 * MarginX && height >= 2.0 * MarginY
    ensures forall k :: 0 <= k < 4 ==>
              var p := Vertices(length1, length2, length3, width, height)[k];
              MarginX <= p.x <= width - MarginX && MarginY <= p.y <= height - MarginY
  {
    var totalW := length2 * HorScale;
    var totalH := length1 + length3;
    var sx := (width - 2.0 * MarginX) / totalW;
    var sy := (height - 2.0 * MarginY) / totalH;
    var scale := FitScale(length1, length2, length3, width, height);
    assert scale == MinReal(sx, sy);
    assert 0.0 <= sx && 0.0 <= sy;
    MulBelow(scale, sx, totalW);
    assert sx * totalW == width - 2.0 * MarginX;
    assert length2 * HorScale * scale == scale * totalW;
    MulBelow(scale, sy, totalH);
    assert sy * totalH == height - 2.0 * MarginY;
    assert 0.0 <= length1 * scale <= totalH * scale;
    assert length1 * scale <= height - 2.0 * MarginY;
  }

  /** The basic drawing: a closed rectangle `length1` wide and `length2` deep; the third length is not used. */
  function Basic(length1: real, length2: real, number: string): (d: Drawing)
  {
    var a := Pt(0.0, 0.0);
    var b := Pt(length1, 0.0);
    var c := Pt(length1, -length2);
    var e := Pt(0.0, -length2);
    Drawing([Segment(a, b), Segment(b, c), Segment(c, e), Segment(e, a)], [Text(Pt(length1 / 2.0, 0.3), number)])
  }

  lemma BasicClosed(length1: real, length2: real, number: string)
    ensures var d := Basic(length1, length2, number);
            && d.lines[0][1] == d.lines[1][0] && d.lines[1][1] == d.lines[2][0] && d.lines[2][1] == d.lines[3][0]
            && d.lines[3][1] == d.lines[0][0]
  {
  }

  /** The two legs count as equal within 0.001. */
  predicate Symmetric(length1: real, length3: real)
  {
    Abs(length1 - length3) < 0.001
  }

  /**
   * `draw_u_shaped_rebar`: a symmetric U is drawn here (basic mode needing
   * settings); a stepped one goes to the complex drawer, when there is one,
   * with no angles; without a drawer it is drawn as the professional U.
   * `helpers` and `offset` are what the complex drawer is given.
   */
  function DrawU(length1: real, length2: real, length3: real, number: string, professional: bool,
                 width: real, height: real, hasSettings: bool, complexDrawer: bool, offset: real, helpers: Option<ComplexShape.Helpers>): (r: Outcome<Drawing>)
    ensures Symmetric(length1, length3) ==> (r.Raises? <==> !professional && !hasSettings)
    ensures !Symmetric(length1, length3) && complexDrawer ==>
              r == ComplexShape.DrawComplex([length1, length2, length3], number, professional, None, offset, helpers)
    ensures !Symmetric(length1, length3) && !complexDrawer ==> r == Ok(Professional(length1, length2, length3, width, height))
  {
    if Symmetric(length1, length3) then
      if professional then Ok(Professional(length1, length2, length3, width, height))
      else if !hasSettings then Raises(ValueError)
      else Ok(Basic(length1, length2, number))
    else if complexDrawer then ComplexShape.DrawComplex([length1, length2, length3], number, professional, None, offset, helpers)
    else Ok(Professional(length1, length2, length3, width, height))
  }

  /** A stepped U handed to the complex drawer in professional mode always raises. */
  lemma SteppedProfessionalRaises(length1: real, length2: real, length3: real, number: string,
                                  width: real, height: real, hasSettings: bool, offset: real, helpers: Option<ComplexShape.Helpers>)
    requires !Symmetric(length1, length3)
    ensures DrawU(length1, length2, length3, number, true, width, height, hasSettings, true, offset, helpers).Raises?
  {
  }
}
