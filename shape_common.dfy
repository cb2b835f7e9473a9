// What the shape drawers compute before they hand over to the plotting
// library: points, the polylines through them and the text placed at
// them. Figure sizes, colours, fonts and the image encoding are not
// modelled.

module ShapeCommon {
  import opened Common

  datatype Pt = Pt(x: real, y: real)

  /** A text drawn with its anchor at `at`. */
  datatype Text = Text(at: Pt, text: string)

  /** The polylines drawn (each a list of vertices) and the texts placed. */
  datatype Drawing = Drawing(lines: seq<seq<Pt>>, texts: seq<Text>)

  /** A single straight line. */
  function Segment(a: Pt, b: Pt): seq<Pt>
  {
    [a, b]
  }

  /**
   * The trigonometry of the plotting code: cosine, sine and π, of which only
   * the facts the drawers rely on are assumed.
   */
  datatype Trig = Trig(cos: real -> real, sin: real -> real, pi: real)

  predicate TrigFacts(t: Trig)
  {
    t.pi > 0.0 && t.cos(0.0) == 1.0 && t.sin(0.0) == 0.0
  }

  /** `np.radians` / `np.deg2rad`. */
  function Radians(t: Trig, degrees: real): real
  {
    degrees * t.pi / 180.0
  }

  /** `math.degrees`. */
  function Degrees(t: Trig, radians: real): real
    requires t.pi > 0.0
  {
    radians * 180.0 / t.pi
  }

  lemma DegreesOfRadians(t: Trig, degrees: real)
    requires t.pi > 0.0
    ensures Degrees(t, Radians(t, degrees)) == degrees
  {
    assert degrees * t.pi / 180.0 * 180.0 == degrees * t.pi;
  }

  /** `int(x)` as a label. */
  function Label(x: real): string
  {
    Show(x)
  }
}
