// utils/graphics/shapes/n_shape.py: the N-shaped bar. The settings argument
// is not used by the source, and it is not a parameter here.

module NShape {
  import opened ShapeCommon

  const VerLen := 32.0
  const HorLen := 80.0
  const MarginX := 30.0
  const MarginY := 20.0

  /** Three fixed vertices joined left to right, the lengths as labels at the left, middle and right. */
  function DrawN(length1: real, length2: real, length3: real): (d: Drawing)
    ensures |d.lines| == 3 && |d.texts| == 3
    ensures d.texts[0].text == Label(length1) && d.texts[1].text == Label(length2) && d.texts[2].text == Label(length3)
  {
    var p1 := Pt(MarginX, MarginY);
    var p2 := Pt(MarginX, MarginY + VerLen);
    var p3 := Pt(MarginX + HorLen, MarginY + VerLen);
    var p4 := Pt(MarginX + HorLen, MarginY + VerLen + VerLen);
    Drawing([Segment(p1, p2), Segment(p2, p3), Segment(p3, p4)],
            [Text(Pt(p1.x - 10.0, (p1.y + p2.y) / 2.0), Label(length1)),
             Text(Pt((p2.x + p3.x) / 2.0, p2.y - 10.0), Label(length2)),
             Text(Pt(p4.x + 10.0, (p3.y + p4.y) / 2.0), Label(length3))])
  }

  /**
   * The vertices are (30,20), (30,52), (110,52), (110,84) whatever the
   * lengths: two legs of 32 in the same direction joined by one of 80,
   * the left label left of the first leg and the right one right of the last.
   */
  lemma NLayout(length1: real, length2: real, length3: real)
    ensures var d := DrawN(length1, length2, length3);
            && d.lines[0] == [Pt(30.0, 20.0), Pt(30.0, 52.0)]
            && d.lines[1] == [Pt(30.0, 52.0), Pt(110.0, 52.0)]
            && d.lines[2] == [Pt(110.0, 52.0), Pt(110.0, 84.0)]
            && d.texts[0].at.x < d.lines[0][0].x && d.texts[2].at.x > d.lines[2][0].x
            && d.lines[0][1].y - d.lines[0][0].y == d.lines[2][1].y - d.lines[2][0].y == VerLen
  {
  }
}
