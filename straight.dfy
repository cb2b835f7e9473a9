// utils/graphics/shapes/straight.py: the straight bar.

module Straight {
  import opened Common
  import opened ShapeCommon

  const MinRatio := 0.3
  const MaxRatio := 0.9
  const MinLength := 100.0
  const MaxLength := 2000.0

  function Clamp(length: real): (c: real)
    ensures MinLength <= c <= MaxLength
    ensures MinLength <= length <= MaxLength ==> c == length
  {
    MinReal(MaxReal(length, MinLength), MaxLength)
  }

  /** The share of the canvas width the line takes, interpolated between 100 and 2000. */
  function Ratio(length: real): (r: real)
  {
    MinRatio + (MaxRatio - MinRatio) * (Clamp(length) - MinLength) / (MaxLength - MinLength)
  }

  /** The ratio stays within [0.3, 0.9], reaching the ends at 100 and 2000. */
  lemma RatioBounds(length: real)
    ensures MinRatio <= Ratio(length) <= MaxRatio
    ensures length <= MinLength ==> Ratio(length) == MinRatio
    ensures length >= MaxLength ==> Ratio(length) == MaxRatio
  {
  }

  /** A longer bar never gets a shorter line. */
  lemma RatioMonotone(a: real, b: real)
    requires a <= b
    ensures Ratio(a) <= Ratio(b)
  {
    assert Clamp(a) <= Clamp(b);
  }

  /** The professional drawing: the scaled line centred across the canvas at mid-height, the length below it. */
  function Professional(length: real, width: real, height: real): (d: Drawing)
  {
    var scaled := width * Ratio(length);
    var start := Pt((width - scaled) / 2.0, height / 2.0);
    var end := Pt(start.x + scaled, start.y);
    Drawing([Segment(start, end)], [Text(Pt((start.x + end.x) / 2.0, start.y + 36.0), Label(length))])
  }

  /** The line is centred: its ends are equally far from the canvas edges and it spans the ratio's share. */
  lemma ProfessionalCentred(length: real, width: real, height: real)
    ensures var line := Professional(length, width, height).lines[0];
            && line[0].x - 0.0 == width - line[1].x
            && line[1].x - line[0].x == width * Ratio(length)
            && line[0].y == line[1].y == height / 2.0
    ensures Professional(length, width, height).texts[0].at.x == width / 2.0
  {
  }

  /** The basic drawing: a line from the origin along +x, the designation above its middle. */
  function Basic(length: real, number: string): (d: Drawing)
    ensures d.lines == [[Pt(0.0, 0.0), Pt(length, 0.0)]]
    ensures d.texts == [Text(Pt(length / 2.0, 0.3), number)]
  {
    Drawing([Segment(Pt(0.0, 0.0), Pt(length, 0.0))], [Text(Pt(length / 2.0, 0.3), number)])
  }

  /** `draw_straight_rebar`: basic mode needs settings. */
  function DrawStraight(length: real, number: string, professional: bool, width: real, height: real, hasSettings: bool): (r: Outcome<Drawing>)
    ensures r.Raises? <==> !professional && !hasSettings
    ensures r.Raises? ==> r.error == ValueError
    ensures r.Ok? ==> r.value == if professional then Professional(length, width, height) else Basic(length, number)
  {
    if professional then Ok(Professional(length, width, height))
    else if !hasSettings then Raises(ValueError)
    else Ok(Basic(length, number))
  }
}
