// utils/graphics/manager.py: the graphics manager's lookups, its ASCII
// sketches, the values of its detailed description and the choice of
// drawer for a bar.

module Manager {
  import opened Common
  import opened ShapeCommon
  import Straight
  import LShape
  import UShape
  import NShape
  import Bent
  import ComplexShape
  import Stirrup
  import Converter

  // ---------------------------------------------------------------------------
  // Tables and lookups

  /** The nominal diameters (mm) the manager is built with. */
  const Diameters: map<string, real> :=
    map["#2" := 6.4, "#3" := 9.5, "#4" := 12.7, "#5" := 15.9, "#6" := 19.1,
        "#7" := 22.2, "#8" := 25.4, "#9" := 28.7, "#10" := 32.3, "#11" := 35.8,
        "#12" := 43.0, "#13" := 50.0, "#14" := 57.0]

  /** The bend radius as a multiple of the diameter. */
  const Multipliers: map<string, int> :=
    map["#2" := 3, "#3" := 3, "#4" := 4, "#5" := 5, "#6" := 6, "#7" := 7,
        "#8" := 8, "#9" := 9, "#10" := 10, "#11" := 11, "#12" := 12,
        "#13" := 13, "#14" := 14]

  /** The designations of both tables, smallest bar first. */
  const Sizes: seq<string> := ["#2", "#3", "#4", "#5", "#6", "#7", "#8", "#9", "#10", "#11", "#12", "#13", "#14"]

  /** `rebar_diameters.get(n, 12.7)`. */
  function Diameter(number: string): (d: real)
    ensures d > 0.0
  {
    if number in Diameters then Diameters[number] else 12.7
  }

  /** `bend_radius_multiplier.get(n, 4)`. */
  function Multiplier(number: string): (m: int)
    ensures m >= 3
  {
    if number in Multipliers then Multipliers[number] else 4
  }

  /** `get_bend_radius`: diameter times multiplier. */
  function BendRadius(number: string): (r: real)
    ensures r > 0.0
  {
    Diameter(number) * Multiplier(number) as real
  }

  /**
   * Both tables have exactly the designations #2 to #14, and an unknown
   * designation gets the bend radius of a #4 bar (12.7 mm at 4 diameters).
   */
  lemma BendRadiusDefaults(number: string)
    ensures Diameters.Keys == Multipliers.Keys
    ensures number in Diameters <==> number in Sizes
    ensures number !in Diameters ==> BendRadius(number) == BendRadius("#4") == 12.7 * 4.0
  {
  }

  lemma BendRadiusStep(k: nat)
    requires k + 1 < |Sizes|
    ensures BendRadius(Sizes[k]) < BendRadius(Sizes[k + 1])
  {
  }

  /** The bend radius grows strictly with the bar size, from #2 to #14. */
  lemma {:induction false} BendRadiusGrows(i: nat, j: nat)
    requires i < j < |Sizes|
    ensures BendRadius(Sizes[i]) < BendRadius(Sizes[j])
    decreases j - i
  {
    BendRadiusStep(i);
    if i + 1 < j {
      BendRadiusGrows(i + 1, j);
    }
  }

  /** `get_material_grade`: by the designation's exact text. */
  function Grade(number: string): (g: string)
    ensures g == "SD280" <==> number in ["#2", "#3", "#4", "#5", "#6"]
    ensures g == "SD420" <==> number in ["#7", "#8", "#9", "#10"]
    ensures g == "SD280" || g == "SD420" || g == "SD490"
  {
    if number in ["#2", "#3", "#4", "#5", "#6"] then "SD280"
    else if number in ["#7", "#8", "#9", "#10"] then "SD420"
    else "SD490"
  }

  lemma DesignationValue(n: nat, k: string)
    requires k != [] && AllDigits(k)
    requires "#" + NatToString(n) == "#" + k
    ensures n == DigitsValue(k)
  {
    assert ("#" + NatToString(n))[1..] == NatToString(n);
    assert ("#" + k)[1..] == k;
  }

  /** Only #2 to #10 name a size the grade lists hold. */
  lemma ListedSize(n: nat)
    ensures "#" + NatToString(n) in ["#2", "#3", "#4", "#5", "#6"] ==> 2 <= n <= 6
    ensures "#" + NatToString(n) in ["#7", "#8", "#9", "#10"] ==> 7 <= n <= 10
  {
    ListedLow(n);
    ListedMid(n);
  }

  lemma ListedLow(n: nat)
    ensures "#" + NatToString(n) in ["#2", "#3", "#4", "#5", "#6"] ==> 2 <= n <= 6
  {
    var s := "#" + NatToString(n);
    if s == "#2" { DesignationValue(n, "2"); }
    else if s == "#3" { DesignationValue(n, "3"); }
    else if s == "#4" { DesignationValue(n, "4"); }
    else if s == "#5" { DesignationValue(n, "5"); }
    else if s == "#6" { DesignationValue(n, "6"); }
  }

  lemma ListedMid(n: nat)
    ensures "#" + NatToString(n) in ["#7", "#8", "#9", "#10"] ==> 7 <= n <= 10
  {
    var s := "#" + NatToString(n);
    if s == "#7" { DesignationValue(n, "7"); }
    else if s == "#8" { DesignationValue(n, "8"); }
    else if s == "#9" { DesignationValue(n, "9"); }
    else if s == "#10" {
      DesignationValue(n, "10");
      assert "10"[..1] == "1";
    }
  }

  /**
   * `#n` is SD280 for n in 2..6, SD420 for 7..10, and SD490 for every other
   * n, #0 and #1 included.
   */
  lemma GradeOf(n: nat)
    ensures Grade("#" + NatToString(n)) == if 2 <= n <= 6 then "SD280" else if 7 <= n <= 10 then "SD420" else "SD490"
  {
    if 2 <= n <= 6 {
      LowSizeListed(n);
    } else if 7 <= n <= 10 {
      MidSizeListed(n);
    } else {
      ListedSize(n);
    }
  }

  lemma LowSizeListed(n: nat)
    requires 2 <= n <= 6
    ensures "#" + NatToString(n) in ["#2", "#3", "#4", "#5", "#6"]
  {
    var s := "#" + NatToString(n);
    if n == 2 { assert NatToString(2) == "2"; assert s == "#2"; }
    else if n == 3 { assert NatToString(3) == "3"; assert s == "#3"; }
    else if n == 4 { assert NatToString(4) == "4"; assert s == "#4"; }
    else if n == 5 { assert NatToString(5) == "5"; assert s == "#5"; }
    else { assert NatToString(6) == "6"; assert s == "#6"; }
  }

  lemma MidSizeListed(n: nat)
    requires 7 <= n <= 10
    ensures "#" + NatToString(n) in ["#7", "#8", "#9", "#10"]
  {
    var s := "#" + NatToString(n);
    if n == 7 { assert NatToString(7) == "7"; assert s == "#7"; }
    else if n == 8 { assert NatToString(8) == "8"; assert s == "#8"; }
    else if n == 9 { assert NatToString(9) == "9"; assert s == "#9"; }
    else { assert NatToString(1) == "1" && NatToString(10) == "10"; assert s == "#10"; }
  }

  /** Text that does not start with '#' is SD490. */
  lemma UnhashedGrade(other: string)
    requires other == [] || other[0] != '#'
    ensures Grade(other) == "SD490"
  {
  }

  /**
   * The manager and the converter classify grades differently: they agree on
   * `#n` exactly when n is at least 2, and text without a leading '#' is
   * SD280 for the converter but SD490 for the manager.
   */
  lemma GradeVersionsDiffer(n: nat, other: string)
    requires other == [] || other[0] != '#'
    ensures Grade("#" + NatToString(n)) == Converter.TestGrade("#" + NatToString(n)) <==> n >= 2
    ensures Grade(other) == "SD490" && Converter.TestGrade(other) == "SD280"
  {
    GradeOf(n);
    Converter.TestGradeOf(n, other);
    UnhashedGrade(other);
  }

  // ---------------------------------------------------------------------------
  // draw_ascii_rebar

  const LArt := "┌─────────\n│\n│\n│\n└"
  const UArt := "│     │\n│     │\n└─────┘"
  const ComplexArt := "┌─┬─┐\n│ │ │\n└─┴─┘"

  /** The sketch for a straight bar: one '─' per 10 cm, at most 20. */
  function StraightArt(length: real): string
  {
    var n := PyTrunc(length) / 10;
    Repeat('─', if n < 20 then n else 20)
  }

  /** `draw_ascii_rebar`: a sketch chosen by the number of segments. */
  function Ascii(segs: seq<real>): (art: string)
  {
    if segs == [] then ""
    else if |segs| == 1 then StraightArt(segs[0])
    else if |segs| == 2 then LArt
    else if |segs| == 3 then UArt
    else ComplexArt
  }

  /**
   * No segments give nothing; a straight bar gives between 0 and 20 dashes,
   * one per whole 10 cm and nothing else, and is empty exactly when it is
   * shorter than 10 cm; from four segments on, the sketch no longer depends
   * on the segments.
   */
  lemma AsciiShape(segs: seq<real>, more: seq<real>)
    ensures Ascii(segs) == [] <==> segs == [] || (|segs| == 1 && segs[0] < 10.0)
    ensures |segs| == 1 ==> |Ascii(segs)| <= 20 && (forall i :: 0 <= i < |Ascii(segs)| ==> Ascii(segs)[i] == '─')
    ensures |segs| == 1 && 0.0 <= segs[0] < 200.0 ==> |Ascii(segs)| == PyTrunc(segs[0]) / 10
    ensures |segs| == 1 && segs[0] >= 200.0 ==> |Ascii(segs)| == 20
    ensures |segs| >= 4 && |more| >= 4 ==> Ascii(segs) == Ascii(more)
  {
    if |segs| == 1 {
      var t := PyTrunc(segs[0]);
      if segs[0] < 10.0 {
        assert t < 10;
      } else {
        assert t >= 10;
      }
      if segs[0] >= 200.0 {
        assert t >= 200;
      }
    }
    assert LArt != [] && UArt != [] && ComplexArt != [];
  }

  // ---------------------------------------------------------------------------
  // create_detailed_description

  /** The letter naming segment i: A, B, C, ... */
  function Letter(i: nat): char
    requires i < 0xD800 - 65
  {
    (65 + i) as char
  }

  /** `f"{s:>4}"`: right-justified in four columns. */
  function RightJust(s: string, w: int): (r: string)
    ensures |r| == if |s| < w then w else |s|
    ensures r[|r| - |s|..] == s
    ensures forall k :: 0 <= k < |r| - |s| ==> r[k] == ' '
  {
    Repeat(' ', w - |s|) + s
  }

  /** The description line of segment i. */
  function SegmentLine(i: nat, length: real): string
    requires i < 0xD800 - 65
  {
    "    " + [Letter(i)] + "段: " + RightJust(Show(length), 4) + " cm\n"
  }

  /** The segment lines, lettered from A. */
  function SegmentInfo(segs: seq<real>): string
    requires |segs| < 0xD800 - 65
  {
    if segs == [] then "" else SegmentInfo(segs[..|segs| - 1]) + SegmentLine(|segs| - 1, segs[|segs| - 1])
  }

  /** The lengths joined by " + ", each as `int(length)`. */
  function Formula(segs: seq<real>): string
  {
    if segs == [] then ""
    else if |segs| == 1 then Show(segs[0])
    else Formula(segs[..|segs| - 1]) + " + " + Show(segs[|segs| - 1])
  }

  /** The formula of two parts is the two formulas joined by " + ". */
  lemma FormulaSnoc(xs: seq<real>, x: real)
    requires xs != []
    ensures Formula(xs + [x]) == Formula(xs) + " + " + Show(x)
  {
    assert (xs + [x])[..|xs|] == xs;
  }

  lemma {:induction false} FormulaConcat(a: seq<real>, b: seq<real>)
    requires a != [] && b != []
    ensures Formula(a + b) == Formula(a) + " + " + Formula(b)
    decreases |b|
  {
    var last := b[|b| - 1];
    if |b| == 1 {
      assert b == [last];
      FormulaSnoc(a, last);
    } else {
      var front := b[..|b| - 1];
      assert b == front + [last];
      assert a + b == (a + front) + [last];
      FormulaConcat(a, front);
      FormulaSnoc(a + front, last);
      FormulaSnoc(front, last);
    }
  }

  /** Segment i's line, lettered i, appears at the end of the first i + 1 lines. */
  lemma SegmentInfoLast(segs: seq<real>, i: nat)
    requires i < |segs| < 0xD800 - 65
    ensures var info := SegmentInfo(segs[..i + 1]);
            var line := SegmentLine(i, segs[i]);
            |line| <= |info| && info[|info| - |line|..] == line && line[4] == Letter(i)
  {
    assert segs[..i + 1][..i] == segs[..i];
  }

  /** The values the detailed description fills into its template. */
  datatype Description = Description(
    number: string, shapeType: string, grade: string,
    total: int, formula: string, segmentInfo: string,
    diameter: real, bendRadius: int, bendInfo: string, cover: int, radiusRatio: int)

  function ShapeType(count: nat): string
  {
    if count == 1 then "直鋼筋"
    else if count == 2 then "L型鋼筋"
    else if count == 3 then "U型鋼筋"
    else IntToString(count) + "段複合鋼筋"
  }

  function BendInfo(count: nat): string
  {
    if count == 1 then "無彎曲"
    else if count == 2 then "90°彎曲 × 1"
    else if count == 3 then "90°彎曲 × 2"
    else "90°彎曲 × " + IntToString(count - 1)
  }

  function DescriptionOf(segs: seq<real>, number: string): Description
    requires |segs| < 0xD800 - 65
  {
    var d := Diameter(number);
    var r := BendRadius(number);
    Description(number, ShapeType(|segs|), Grade(number),
                PyTrunc(SumReals(segs)), Formula(segs), SegmentInfo(segs),
                d, PyTrunc(r), BendInfo(|segs|), PyTrunc(d + 10.0), PyFloorDiv(r, d))
  }

  /**
   * `create_detailed_description`: the segment lines and the formula are
   * built in one pass over the segments.
   */
  method CreateDetailedDescription(segs: seq<real>, number: string) returns (desc: Description)
    requires |segs| < 0xD800 - 65
    ensures desc == DescriptionOf(segs, number)
  {
    var info := "";
    var formula := "";
    var i := 0;
    while i < |segs|
      invariant 0 <= i <= |segs|
      invariant info == SegmentInfo(segs[..i])
      invariant formula == Formula(segs[..i])
    {
      assert segs[..i + 1][..i] == segs[..i];
      info := info + SegmentLine(i, segs[i]);
      if i == 0 {
        formula := Show(segs[i]);
      } else {
        formula := formula + " + " + Show(segs[i]);
      }
      i := i + 1;
    }
    assert segs[..i] == segs;
    var d := Diameter(number);
    var r := BendRadius(number);
    desc := Description(number, ShapeType(|segs|), Grade(number),
                        PyTrunc(SumReals(segs)), formula, info,
                        d, PyTrunc(r), BendInfo(|segs|), PyTrunc(d + 10.0), PyFloorDiv(r, d));
  }

  lemma FloorOfMultiple(d: real, m: int)
    requires d > 0.0
    ensures PyFloorDiv(d * m as real, d) == m
  {
    assert (d * m as real) / d == m as real;
  }

  /** The "minimum bend radius = k × D" of the description shows the multiplier (4 for an unknown designation). */
  lemma RadiusRatio(number: string)
    ensures PyFloorDiv(BendRadius(number), Diameter(number)) == Multiplier(number)
  {
    FloorOfMultiple(Diameter(number), Multiplier(number));
  }

  /** The description states one bend fewer than there are segments. */
  lemma BendCount(count: nat)
    requires count > 0
    ensures count == 1 <==> BendInfo(count) == "無彎曲"
    ensures count > 1 ==> BendInfo(count) == "90°彎曲 × " + IntToString(count - 1)
  {
    if count == 2 || count == 3 {
      assert IntToString(1) == "1" && IntToString(2) == "2";
    }
  }

  // ---------------------------------------------------------------------------
  // generate_rebar_diagram

  /** What `draw_complex_rebar_wrapper` passes on: the manager's diameter table and grade lookup. */
  const ComplexHelpers := ComplexShape.Helpers(Diameters, Grade)

  /** What the manager returns: no picture, a drawing, or a text sketch. */
  datatype Diagram = NoDiagram | Picture(drawing: Drawing) | Sketch(art: string)

  /** The professional settings' dimension offset. */
  const DimensionOffset := 25.0

  /** The segments kept for drawing: the positive ones, in order. */
  function Positive(segs: seq<real>): (r: seq<real>)
    ensures |r| <= |segs|
    ensures forall x :: x in r <==> x in segs && x > 0.0
  {
    if segs == [] then []
    else if segs[0] > 0.0 then [segs[0]] + Positive(segs[1..])
    else
      assert forall x :: x in segs <==> x == segs[0] || x in segs[1..];
      Positive(segs[1..])
  }

  /** Keeping the positive segments keeps their order. */
  lemma {:induction false} PositiveConcat(a: seq<real>, b: seq<real>)
    ensures Positive(a + b) == Positive(a) + Positive(b)
    decreases |a|
  {
    if a == [] {
      assert a + b == b;
    } else {
      assert (a + b)[1..] == a[1..] + b;
      PositiveConcat(a[1..], b);
    }
  }

  /** A designation that reads `N#...` once stripped and upper-cased. */
  predicate IsNDesignation(number: string)
  {
    var s := Strip(number);
    |s| >= 2 && (s[0] == 'N' || s[0] == 'n') && s[1] == '#'
  }

  function PictureOf(r: Outcome<Drawing>): Outcome<Diagram>
  {
    match r
    case Ok(d) => Ok(Picture(d))
    case Raises(e) => Raises(e)
  }

  /**
   * The body of `generate_rebar_diagram` before its exception handler. The
   * stirrup drawer reads settings that only the professional settings hold,
   * so a stirrup in any other mode raises a KeyError; in professional mode
   * it raises a TypeError for every known kind.
   */
  function Attempt(t: Trig, segs: seq<real>, number: string, mode: string, angles: Option<seq<int>>,
                   width: real, height: real, shapeType: string, hooks: map<string, real>): Outcome<Diagram>
  {
    if '箍' in shapeType && |segs| >= 2 then
      if mode == "professional" then PictureOf(Stirrup.DrawStirrup(t, shapeType, segs[0], segs[1], hooks, number))
      else Raises(KeyError)
    else
      var bent := if number != [] && number[0] == '折' then Bent.ParseBent(number) else Ok(None);
      if bent.Raises? then Raises(bent.error)
      else if bent.value.Some? then
        var b := bent.value.value;
        Ok(Picture(Bent.DrawBent(t, b.angle, b.length1, b.length2, 80.0)))
      else if segs == [] then Ok(NoDiagram)
      else ByCount(Positive(segs), number, mode, angles, width, height)
  }

  /** The rules after the stirrup and bent ones, on the positive segments. */
  function ByCount(valid: seq<real>, number: string, mode: string, angles: Option<seq<int>>,
                   width: real, height: real): Outcome<Diagram>
  {
    var professional := mode == "professional";
    if valid == [] then Ok(NoDiagram)
    else if IsNDesignation(number) && |valid| == 3 then Ok(Picture(NShape.DrawN(valid[0], valid[1], valid[2])))
    else if mode == "ascii" then Ok(Sketch(Ascii(valid)))
    else if |valid| == 1 then PictureOf(Straight.DrawStraight(valid[0], number, professional, width, height, true))
    else if |valid| == 2 then PictureOf(LShape.DrawL(valid[0], valid[1], number, professional, width, height, true))
    else if |valid| == 3 then
      PictureOf(UShape.DrawU(valid[0], valid[1], valid[2], number, professional, 240.0, 80.0, true, true, DimensionOffset, Some(ComplexHelpers)))
    else PictureOf(ComplexShape.DrawComplex(valid, number, professional, angles, DimensionOffset, Some(ComplexHelpers)))
  }

  /** `generate_rebar_diagram`: any exception gives the sketch of the segments as passed in. */
  function GenerateDiagram(t: Trig, segs: seq<real>, number: string, mode: string, angles: Option<seq<int>>,
                           width: real, height: real, shapeType: string, hooks: map<string, real>): (d: Diagram)
    ensures Attempt(t, segs, number, mode, angles, width, height, shapeType, hooks).Raises? ==> d == Sketch(Ascii(segs))
    ensures Attempt(t, segs, number, mode, angles, width, height, shapeType, hooks).Ok? ==>
              d == Attempt(t, segs, number, mode, angles, width, height, shapeType, hooks).value
  {
    match Attempt(t, segs, number, mode, angles, width, height, shapeType, hooks)
    case Ok(d) => d
    case Raises(_) => Sketch(Ascii(segs))
  }

  /**
   * A shape type naming a stirrup, with two segments, goes to the stirrup
   * drawer before any other rule. That drawer fails outside professional
   * mode and, as written, for every known kind, so the sketch of the
   * segments is returned; only an unknown kind in professional mode gives
   * a picture, the '?'.
   */
  lemma StirrupFirst(t: Trig, segs: seq<real>, number: string, mode: string, angles: Option<seq<int>>,
                     width: real, height: real, shapeType: string, hooks: map<string, real>)
    requires '箍' in shapeType && |segs| >= 2
    ensures var d := GenerateDiagram(t, segs, number, mode, angles, width, height, shapeType, hooks);
            && (mode != "professional" || Stirrup.IsKnownKind(shapeType) ==> d == Sketch(Ascii(segs)))
            && (mode == "professional" && !Stirrup.IsKnownKind(shapeType) ==> d == Picture(Drawing([], [Text(Pt(0.5, 0.5), "?")])))
  {
    Stirrup.KindsDrawn(t, shapeType, segs[0], segs[1], hooks, number);
  }

  /**
   * Outside the stirrup rule, a `折` designation is drawn as a bent bar
   * exactly when its lengths parse; when they are missing the segments
   * decide, and when `float` fails the sketch is returned.
   */
  lemma BentWhenParsed(t: Trig, segs: seq<real>, number: string, mode: string, angles: Option<seq<int>>,
                       width: real, height: real, shapeType: string, hooks: map<string, real>)
    requires !('箍' in shapeType && |segs| >= 2)
    requires number != [] && number[0] == '折'
    ensures var d := GenerateDiagram(t, segs, number, mode, angles, width, height, shapeType, hooks);
            var p := Bent.ParseBent(number);
            && (p.Ok? && p.value.Some? ==>
                  d == Picture(Bent.DrawBent(t, p.value.value.angle, p.value.value.length1, p.value.value.length2, 80.0)))
            && (p.Raises? ==> d == Sketch(Ascii(segs)))
            && (p == Ok(None) && segs == [] ==> d == NoDiagram)
  {
  }

  /**
   * Outside the stirrup and bent rules: without a positive segment there is
   * no diagram; an `N#` designation with exactly three positive segments is
   * the N shape in every mode; the ASCII mode sketches the positive
   * segments; otherwise the count of positive segments picks the drawer.
   */
  lemma DispatchByCount(t: Trig, segs: seq<real>, number: string, mode: string, angles: Option<seq<int>>,
                        width: real, height: real, shapeType: string, hooks: map<string, real>)
    requires !('箍' in shapeType && |segs| >= 2)
    requires number == [] || number[0] != '折'
    ensures var d := GenerateDiagram(t, segs, number, mode, angles, width, height, shapeType, hooks);
            var valid := Positive(segs);
            var professional := mode == "professional";
            && (valid == [] ==> d == NoDiagram)
            && (IsNDesignation(number) && |valid| == 3 ==> d == Picture(NShape.DrawN(valid[0], valid[1], valid[2])))
            && (!IsNDesignation(number) && valid != [] && mode == "ascii" ==> d == Sketch(Ascii(valid)))
            && (mode != "ascii" && |valid| == 1 ==>
                  d == Picture(if professional then Straight.Professional(valid[0], width, height) else Straight.Basic(valid[0], number)))
            && (mode != "ascii" && |valid| == 2 ==>
                  d == Picture(if professional then LShape.Professional(valid[0], valid[1], width, height)
                               else LShape.Basic(valid[0], valid[1], number)))
  {
    if segs == [] {
      assert Positive(segs) == [];
    }
  }

  /**
   * A stepped U (three positive segments, outer legs differing by 0.001 or
   * more, no `N#` designation) in professional mode is handed to the complex
   * drawer without angles, which raises, so the manager returns the ASCII
   * sketch; four or more segments without angles end the same way.
   */
  lemma SteppedFallsBack(t: Trig, segs: seq<real>, number: string, width: real, height: real,
                         shapeType: string, hooks: map<string, real>)
    requires !('箍' in shapeType && |segs| >= 2)
    requires number == [] || number[0] != '折'
    requires !IsNDesignation(number)
    requires |Positive(segs)| >= 4 || (|Positive(segs)| == 3 && !UShape.Symmetric(Positive(segs)[0], Positive(segs)[2]))
    ensures GenerateDiagram(t, segs, number, "professional", None, width, height, shapeType, hooks) == Sketch(Ascii(segs))
  {
    assert Attempt(t, segs, number, "professional", None, width, height, shapeType, hooks)
        == ByCount(Positive(segs), number, "professional", None, width, height);
    SteppedRaises(Positive(segs), number, width, height);
  }

  /** The stepped and longer cases of `ByCount` without angles raise. */
  lemma SteppedRaises(valid: seq<real>, number: string, width: real, height: real)
    requires !IsNDesignation(number)
    requires |valid| >= 4 || (|valid| == 3 && !UShape.Symmetric(valid[0], valid[2]))
    ensures ByCount(valid, number, "professional", None, width, height).Raises?
  {
    if |valid| == 3 {
      UShape.SteppedProfessionalRaises(valid[0], valid[1], valid[2], number, 240.0, 80.0, true, DimensionOffset, Some(ComplexHelpers));
    } else {
      assert "#2" in ComplexHelpers.diameters;
    }
  }
}
