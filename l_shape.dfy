// utils/graphics/shapes/l_shape.py: the L-shaped bar.

module LShape {
  import opened Common
  import opened ShapeCommon

  /** The fixed drawn lengths of the professional layout. */
  const HorLen := 220.0
  const VerLen := 80.0

  /**
   * The professional drawing: whatever the lengths, a vertical leg of 80
   * down the left of the centred box, then a horizontal leg of 220 from its
   * lower end; the first length labelled left of the vertical leg, the
   * second below the horizontal leg.
   */
  function Professional(length1: real, length2: real, width: real, height: real): (d: Drawing)
  {
    var start := Pt(width / 2.0 - HorLen / 2.0, height / 2.0 + VerLen / 2.0);
    var corner := Pt(start.x, start.y - VerLen);
    var end := Pt(start.x + HorLen, corner.y);
    Drawing([Segment(start, corner), Segment(corner, end)],
            [Text(Pt(start.x - 20.0, start.y - VerLen / 2.0), Label(length1)),
             Text(Pt(start.x + HorLen / 2.0, corner.y - 20.0), Label(length2))])
  }

  /** The two legs meet at a right angle, with the fixed lengths, centred on the canvas. */
  lemma ProfessionalLayout(length1: real, length2: real, width: real, height: real)
    ensures var d := Professional(length1, length2, width, height);
            && d.lines[0][1] == d.lines[1][0]
            && d.lines[0][0].x == d.lines[0][1].x && d.lines[0][0].y - d.lines[0][1].y == VerLen
            && d.lines[1][0].y == d.lines[1][1].y && d.lines[1][1].x - d.lines[1][0].x == HorLen
            && d.lines[1][0].x + d.lines[1][1].x == width
            && d.lines[0][0].y + d.lines[0][1].y == height
  {
  }

  /** Only the labels depend on the lengths. */
  lemma ProfessionalFixed(a1: real, a2: real, b1: real, b2: real, width: real, height: real)
    ensures Professional(a1, a2, width, height).lines == Professional(b1, b2, width, height).lines
    ensures Professional(a1, a2, width, height).texts[0].at == Professional(b1, b2, width, height).texts[0].at
    ensures Professional(a1, a2, width, height).texts[0].text == Label(a1)
    ensures Professional(a1, a2, width, height).texts[1].text == Label(a2)
  {
  }

  /** The basic drawing: `length1` along +x from the origin, then `length2` down. */
  function Basic(length1: real, length2: real, number: string): (d: Drawing)
  {
    Drawing([Segment(Pt(0.0, 0.0), Pt(length1, 0.0)), Segment(Pt(length1, 0.0), Pt(length1, -length2))],
            [Text(Pt(length1 / 2.0, 0.3), number)])
  }

  lemma BasicCorner(length1: real, length2: real, number: string)
    ensures var d := Basic(length1, length2, number);
            && d.lines[0][1] == d.lines[1][0]
            && d.lines[0][1].x - d.lines[0][0].x == length1 && d.lines[0][0].y == d.lines[0][1].y
            && d.lines[1][0].y - d.lines[1][1].y == length2 && d.lines[1][0].x == d.lines[1][1].x
  {
  }

  /** `draw_l_shaped_rebar`: basic mode needs settings. */
  function DrawL(length1: real, length2: real, number: string, professional: bool, width: real, height: real, hasSettings: bool): (r: Outcome<Drawing>)
    ensures r.Raises? <==> !professional && !hasSettings
    ensures r.Raises? ==> r.error == ValueError
  {
    if professional then Ok(Professional(length1, length2, width, height))
    else if !hasSettings then Raises(ValueError)
    else Ok(Basic(length1, length2, number))
  }
}
