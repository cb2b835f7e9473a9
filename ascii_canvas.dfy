// utils/graphics.py: the older graphics manager's character sketch, drawn
// on a grid of characters that is changed cell by cell, and the shape of
// the value its dependency check returns.

module AsciiCanvas {
  import opened Common

  /** The rows of the grid, each a list of characters. */
  type Canvas = seq<seq<char>>

  function SumInts(xs: seq<int>): int
  {
    if xs == [] then 0 else SumInts(xs[..|xs| - 1]) + xs[|xs| - 1]
  }

  /** `max(xs)`. */
  function MaxInts(xs: seq<int>): (m: int)
    requires xs != []
    ensures forall i :: 0 <= i < |xs| ==> xs[i] <= m
    ensures exists i :: 0 <= i < |xs| && xs[i] == m
  {
    if |xs| == 1 then xs[0]
    else
      var m := MaxInts(xs[..|xs| - 1]);
      assert forall i :: 0 <= i < |xs| - 1 ==> xs[i] == xs[..|xs| - 1][i];
      if xs[|xs| - 1] > m then xs[|xs| - 1] else m
  }

  /** Every row is `w` characters wide. */
  predicate Rect(c: Canvas, w: int)
  {
    forall r :: 0 <= r < |c| ==> |c[r]| == w
  }

  /** `rows` rows of `cols` spaces (none when either is not positive). */
  function Blank(rows: int, cols: int): (c: Canvas)
    ensures |c| == if rows > 0 then rows else 0
    ensures Rect(c, if cols > 0 then cols else 0)
    ensures forall r, k :: 0 <= r < |c| && 0 <= k < |c[r]| ==> c[r][k] == ' '
    decreases rows
  {
    if rows <= 0 then [] else Blank(rows - 1, cols) + [Repeat(' ', cols)]
  }

  /** The same number of rows, each as wide as before. */
  predicate SameShape(a: Canvas, b: Canvas)
  {
    |a| == |b| && forall r :: 0 <= r < |a| ==> |a[r]| == |b[r]|
  }

  /** Cell (r, k) exists under Python's indexing and holds `ch`. */
  predicate Marked(c: Canvas, r: int, k: int, ch: char)
  {
    && PyIndex(r, |c|).Ok?
    && PyIndex(k, |c[PyIndex(r, |c|).value]|).Ok?
    && c[PyIndex(r, |c|).value][PyIndex(k, |c[PyIndex(r, |c|).value]|).value] == ch
  }

  /** `canvas[r][k] = ch`, an IndexError outside the grid. */
  function Put(c: Canvas, r: int, k: int, ch: char): (o: Outcome<Canvas>)
    ensures o.Ok? <==> PyIndex(r, |c|).Ok? && PyIndex(k, |c[PyIndex(r, |c|).value]|).Ok?
    ensures o.Raises? ==> o.error == IndexError
    ensures o.Ok? ==> SameShape(c, o.value) && Marked(o.value, r, k, ch)
    ensures o.Ok? ==> forall i, j :: 0 <= i < |c| && 0 <= j < |c[i]| ==> o.value[i][j] == c[i][j] || o.value[i][j] == ch
  {
    var ri :- PyIndex(r, |c|);
    var ki :- PyIndex(k, |c[ri]|);
    Ok(c[ri := c[ri][ki := ch]])
  }

  /** The cell written at step j of a stroke from (x, y): along the row, or up the rows. */
  function CellRow(y: int, j: int, vertical: bool): int
  {
    if vertical then y - j else y
  }

  function CellCol(x: int, j: int, vertical: bool): int
  {
    if vertical then x else x + j
  }

  function StrokeChar(vertical: bool): char
  {
    if vertical then '|' else '-'
  }

  /** Steps j to `len` of one segment's stroke. */
  function Stroke(c: Canvas, x: int, y: int, len: int, vertical: bool, j: int): (o: Outcome<Canvas>)
    ensures o.Raises? ==> o.error == IndexError
    ensures o.Ok? ==> SameShape(c, o.value)
    ensures o.Ok? ==> forall r, k :: 0 <= r < |c| && 0 <= k < |c[r]| ==>
                        o.value[r][k] == c[r][k] || o.value[r][k] == StrokeChar(vertical)
    ensures o.Ok? ==> forall i :: j <= i < len ==>
                        Marked(o.value, CellRow(y, i, vertical), CellCol(x, i, vertical), StrokeChar(vertical))
    decreases len - j
  {
    if j >= len then Ok(c)
    else
      var ch := StrokeChar(vertical);
      var c1 :- Put(c, CellRow(y, j, vertical), CellCol(x, j, vertical), ch);
      var o := Stroke(c1, x, y, len, vertical, j + 1);
      if o.Ok? then
        assert SameShape(c1, o.value);
        assert Marked(o.value, CellRow(y, j, vertical), CellCol(x, j, vertical), ch);
        o
      else o
  }

  /**
   * On a grid of n rows whose column x exists, a vertical stroke of `len`
   * cells from row y fails exactly when it starts below the last row or
   * drops more than n rows past row 0, that is when some row y - i is
   * outside [-n, n).
   */
  lemma {:induction false} VerticalStrokeRaises(c: Canvas, w: int, x: int, y: int, len: int, j: int)
    requires Rect(c, w) && 0 <= x < w && 0 <= j
    ensures Stroke(c, x, y, len, true, j).Raises? <==> j < len && (y - j >= |c| || y - (len - 1) < -|c|)
    decreases len - j
  {
    if j < len {
      var c1 := Put(c, y - j, x, '|');
      if c1.Ok? {
        assert Rect(c1.value, w) by {
          assert SameShape(c, c1.value);
        }
        VerticalStrokeRaises(c1.value, w, x, y, len, j + 1);
      }
    }
  }

  /** Where the pen is, and the grid so far. */
  datatype Pen = Pen(x: int, y: int, canvas: Canvas)

  /** After segment i: a horizontal one moves the pen right by its length, a vertical one up the rows. */
  function Advance(p: Pen, len: int, vertical: bool, c: Canvas): Pen
  {
    if vertical then Pen(p.x, p.y - len, c) else Pen(p.x + len, p.y, c)
  }

  /** Segments i onwards, even-indexed ones horizontal and odd-indexed ones vertical. */
  function Walk(segs: seq<int>, i: nat, p: Pen): (o: Outcome<Pen>)
    requires i <= |segs|
    ensures o.Raises? ==> o.error == IndexError
    ensures o.Ok? ==> SameShape(p.canvas, o.value.canvas)
    decreases |segs| - i
  {
    if i == |segs| then Ok(p)
    else
      var vertical := i % 2 == 1;
      var c :- Stroke(p.canvas, p.x, p.y, segs[i], vertical, 0);
      Walk(segs, i + 1, Advance(p, segs[i], vertical, c))
  }

  /** The grid before drawing: `max + 2` rows of `sum` spaces. */
  function Start(segs: seq<int>): Canvas
    requires segs != []
  {
    Blank(MaxInts(segs) + 2, SumInts(segs))
  }

  /** `'\n'.join(''.join(row) for row in canvas)`. */
  function JoinRows(rows: Canvas): string
  {
    if rows == [] then ""
    else if |rows| == 1 then rows[0]
    else JoinRows(rows[..|rows| - 1]) + "\n" + rows[|rows| - 1]
  }

  /** `draw_ascii_rebar`: "" for no segments, else the drawn grid as text. */
  function Render(segs: seq<int>): (o: Outcome<string>)
    ensures segs == [] ==> o == Ok("")
    ensures o.Raises? ==> o.error == IndexError
  {
    if segs == [] then Ok("")
    else
      var p :- Walk(segs, 0, Pen(0, 0, Start(segs)));
      Ok(JoinRows(p.canvas))
  }

  /**
   * A successful drawing keeps the grid's shape: `max + 2` rows, each
   * `sum` characters wide.
   */
  lemma RenderShape(segs: seq<int>)
    requires segs != []
    requires MaxInts(segs) + 2 > 0 && SumInts(segs) >= 0
    ensures var o := Walk(segs, 0, Pen(0, 0, Start(segs)));
            o.Ok? ==> |o.value.canvas| == MaxInts(segs) + 2 && Rect(o.value.canvas, SumInts(segs))
  {
    var o := Walk(segs, 0, Pen(0, 0, Start(segs)));
    if o.Ok? {
      assert SameShape(Start(segs), o.value.canvas);
    }
  }

  /** Five rows joined by newlines. */
  lemma JoinFive(a: string, b: string, c: string, d: string, e: string)
    ensures JoinRows([a, b, c, d, e]) == a + "\n" + b + "\n" + c + "\n" + d + "\n" + e
  {
    var rows := [a, b, c, d, e];
    assert rows[..4] == [a, b, c, d] && rows[..4][..3] == [a, b, c];
    assert rows[..4][..3][..2] == [a, b] && rows[..4][..3][..2][..1] == [a];
    assert JoinRows([a, b]) == a + "\n" + b;
    assert JoinRows([a, b, c]) == a + "\n" + b + "\n" + c;
    assert JoinRows([a, b, c, d]) == a + "\n" + b + "\n" + c + "\n" + d;
  }

  /** One cell of a stroke, when it can be written. */
  lemma StrokeStep(c: Canvas, x: int, y: int, len: int, vertical: bool, j: int, c1: Canvas)
    requires j < len && Put(c, CellRow(y, j, vertical), CellCol(x, j, vertical), StrokeChar(vertical)) == Ok(c1)
    ensures Stroke(c, x, y, len, vertical, j) == Stroke(c1, x, y, len, vertical, j + 1)
  {
  }

  /** One segment of a walk, when its stroke can be drawn. */
  lemma WalkStep(segs: seq<int>, i: nat, p: Pen, c: Canvas)
    requires i < |segs| && Stroke(p.canvas, p.x, p.y, segs[i], i % 2 == 1, 0) == Ok(c)
    ensures Walk(segs, i, p) == Walk(segs, i + 1, Advance(p, segs[i], i % 2 == 1, c))
  {
  }

  /** The grid for [3, 2]: five rows of five spaces. */
  lemma WrapsStart()
    ensures Start([3, 2]) == ["     ", "     ", "     ", "     ", "     "]
  {
    var segs := [3, 2];
    assert segs[..1] == [3];
    assert MaxInts(segs) == 3 && SumInts(segs) == 5;
    var c0 := Start(segs);
    forall i | 0 <= i < 5 ensures c0[i] == "     " {
      assert |c0[i]| == 5;
    }
  }

  /** Writing a cell inside the grid. */
  lemma PutInside(c: Canvas, r: int, k: int, ch: char)
    requires 0 <= r < |c| && 0 <= k < |c[r]|
    ensures Put(c, r, k, ch) == Ok(c[r := c[r][k := ch]])
  {
  }

  /** The first segment of [3, 2]: three dashes along row 0. */
  lemma WrapsFirstStroke()
    ensures Stroke(["     ", "     ", "     ", "     ", "     "], 0, 0, 3, false, 0)
            == Ok(["---  ", "     ", "     ", "     ", "     "])
  {
    var b := "     ";
    var r1, r2, r3 := "-    ", "--   ", "---  ";
    assert b[0 := '-'] == r1 && r1[1 := '-'] == r2 && r2[2 := '-'] == r3;
    PutInside([b, b, b, b, b], 0, 0, '-');
    assert [b, b, b, b, b][0 := r1] == [r1, b, b, b, b];
    StrokeStep([b, b, b, b, b], 0, 0, 3, false, 0, [r1, b, b, b, b]);
    PutInside([r1, b, b, b, b], 0, 1, '-');
    assert [r1, b, b, b, b][0 := r2] == [r2, b, b, b, b];
    StrokeStep([r1, b, b, b, b], 0, 0, 3, false, 1, [r2, b, b, b, b]);
    PutInside([r2, b, b, b, b], 0, 2, '-');
    assert [r2, b, b, b, b][0 := r3] == [r3, b, b, b, b];
    StrokeStep([r2, b, b, b, b], 0, 0, 3, false, 2, [r3, b, b, b, b]);
  }

  /** Writing a cell of a row counted from the bottom, as a negative row index does. */
  lemma PutWrapped(c: Canvas, r: int, k: int, ch: char)
    requires -|c| <= r < 0 && 0 <= k < |c[r + |c|]|
    ensures Put(c, r, k, ch) == Ok(c[r + |c| := c[r + |c|][k := ch]])
  {
  }

  /** The second segment of [3, 2]: a bar on row 0 and, wrapped, on row -1, the last. */
  lemma WrapsSecondStroke()
    ensures Stroke(["---  ", "     ", "     ", "     ", "     "], 3, 0, 2, true, 0)
            == Ok(["---| ", "     ", "     ", "     ", "   | "])
  {
    var b := "     ";
    var top, bottom := "---| ", "   | ";
    assert "---  "[3 := '|'] == top && b[3 := '|'] == bottom;
    PutInside(["---  ", b, b, b, b], 0, 3, '|');
    assert ["---  ", b, b, b, b][0 := top] == [top, b, b, b, b];
    StrokeStep(["---  ", b, b, b, b], 3, 0, 2, true, 0, [top, b, b, b, b]);
    PutWrapped([top, b, b, b, b], -1, 3, '|');
    assert [top, b, b, b, b][4 := bottom] == [top, b, b, b, bottom];
    StrokeStep([top, b, b, b, b], 3, 0, 2, true, 1, [top, b, b, b, bottom]);
  }

  /** The walk behind `WrapsToBottom`: a bar on row 0 and, wrapped, on row 4. */
  lemma WrapsWalk()
    ensures Walk([3, 2], 0, Pen(0, 0, Start([3, 2])))
            == Ok(Pen(3, -2, ["---| ", "     ", "     ", "     ", "   | "]))
  {
    var b := "     ";
    WrapsStart();
    WrapsFirstStroke();
    WalkStep([3, 2], 0, Pen(0, 0, [b, b, b, b, b]), ["---  ", b, b, b, b]);
    WrapsSecondStroke();
    WalkStep([3, 2], 1, Pen(3, 0, ["---  ", b, b, b, b]), ["---| ", b, b, b, "   | "]);
  }

  /** The five rows of `WrapsWalk` joined. */
  lemma WrapsText()
    ensures JoinRows(["---| ", "     ", "     ", "     ", "   | "]) == "---| \n     \n     \n     \n   | "
  {
    JoinFive("---| ", "     ", "     ", "     ", "   | ");
    assert "---| " + "\n" + "     " + "\n" + "     " + "\n" + "     " + "\n" + "   | "
           == "---| \n     \n     \n     \n   | ";
  }

  /**
   * A vertical stroke that starts on row 0 wraps to the bottom row: three
   * dashes, then a bar on row 0 and on the last of the five rows.
   */
  lemma WrapsToBottom()
    ensures Render([3, 2]) == Ok("---| \n     \n     \n     \n   | ")
  {
    WrapsWalk();
    WrapsText();
  }

  /**
   * The drops add up: two bars of 4 reach 8 rows up from row 0, past the
   * 6 rows of the grid (4 wrap to the bottom), and the second bar raises an
   * IndexError.
   */
  lemma DropPastGridRaises()
    ensures Render([0, 4, 0, 4]) == Raises(IndexError)
  {
    var segs := [0, 4, 0, 4];
    DropStart();
    var c := Start(segs);
    assert Stroke(c, 0, 0, 0, false, 0) == Ok(c);
    WalkStep(segs, 0, Pen(0, 0, c), c);
    VerticalStrokeRaises(c, 8, 0, 0, 4, 0);
    var c1 := Stroke(c, 0, 0, 4, true, 0).value;
    assert SameShape(c, c1);
    assert Rect(c1, 8);
    WalkStep(segs, 1, Pen(0, 0, c), c1);
    assert Stroke(c1, 0, -4, 0, false, 0) == Ok(c1);
    WalkStep(segs, 2, Pen(0, -4, c1), c1);
    VerticalStrokeRaises(c1, 8, 0, -4, 4, 0);
    WalkRaises(segs, 3, Pen(0, -4, c1));
  }

  /** The grid for [0, 4, 0, 4]: six rows of eight cells. */
  lemma DropStart()
    ensures |Start([0, 4, 0, 4])| == 6 && Rect(Start([0, 4, 0, 4]), 8)
  {
    var segs := [0, 4, 0, 4];
    assert segs[..3] == [0, 4, 0] && segs[..3][..2] == [0, 4] && segs[..3][..2][..1] == [0];
    assert [0][..0] == [];
    assert SumInts([0]) == 0 && SumInts([0, 4]) == 4 && SumInts([0, 4, 0]) == 4;
    assert MaxInts(segs) == 4 && SumInts(segs) == 8;
  }

  /** A segment whose stroke fails ends the walk with that failure. */
  lemma WalkRaises(segs: seq<int>, i: nat, p: Pen)
    requires i < |segs| && Stroke(p.canvas, p.x, p.y, segs[i], i % 2 == 1, 0).Raises?
    ensures Walk(segs, i, p).Raises?
  {
  }

  /** One segment's `for j in range(length)` loop, writing into the grid cell by cell. */
  method DrawStroke(canvas: Canvas, x: int, y: int, len: int, vertical: bool) returns (o: Outcome<Canvas>)
    ensures o == Stroke(canvas, x, y, len, vertical, 0)
  {
    var c := canvas;
    var j := 0;
    while j < len
      invariant 0 <= j
      invariant Stroke(canvas, x, y, len, vertical, 0) == Stroke(c, x, y, len, vertical, j)
    {
      var put := Put(c, CellRow(y, j, vertical), CellCol(x, j, vertical), StrokeChar(vertical));
      if put.Raises? {
        return Raises(put.error);
      }
      c := put.value;
      j := j + 1;
    }
    return Ok(c);
  }

  /** `draw_ascii_rebar`: the segments in turn, the pen moving after each. */
  method DrawAsciiRebar(segs: seq<int>) returns (r: Outcome<string>)
    ensures r == Render(segs)
  {
    if segs == [] {
      return Ok("");
    }
    var canvas := Start(segs);
    var x, y := 0, 0;
    var i := 0;
    while i < |segs|
      invariant 0 <= i <= |segs|
      invariant Walk(segs, 0, Pen(0, 0, Start(segs))) == Walk(segs, i, Pen(x, y, canvas))
    {
      var vertical := i % 2 == 1;
      var stroke := DrawStroke(canvas, x, y, segs[i], vertical);
      if stroke.Raises? {
        return Raises(stroke.error);
      }
      var next := Advance(Pen(x, y, canvas), segs[i], vertical, stroke.value);
      x, y, canvas := next.x, next.y, next.canvas;
      i := i + 1;
    }
    r := Ok(JoinRows(canvas));
  }

  // ---------------------------------------------------------------------------
  // check_dependencies

  /** What the check returns: a bare flag, or a (flag, missing packages) pair. */
  datatype Dependencies = Flag(ok: bool) | Pair(ok: bool, missing: seq<string>)

  /** The packages that failed to import, in the order they are tried. */
  function MissingPackages(hasMatplotlib: bool, hasNumpy: bool, hasPillow: bool): seq<string>
  {
    (if hasMatplotlib then [] else ["matplotlib"]) + (if hasNumpy then [] else ["numpy"]) +
    (if hasPillow then [] else ["pillow"])
  }

  /** `check_dependencies`: True when everything imports, else the pair `(False, missing)`. */
  function CheckDependencies(hasMatplotlib: bool, hasNumpy: bool, hasPillow: bool): Dependencies
  {
    if hasMatplotlib && hasNumpy && hasPillow then Flag(true)
    else Pair(false, MissingPackages(hasMatplotlib, hasNumpy, hasPillow))
  }

  /** Python truthiness: a two-element tuple is always true. */
  predicate Truthy(d: Dependencies)
  {
    d.Pair? || d.ok
  }

  /**
   * Success is a bare True, which cannot be unpacked into two names, and
   * failure is a non-empty pair listing exactly the missing packages,
   * which is itself truthy: the result is truthy whatever is missing.
   */
  lemma DependenciesShape(hasMatplotlib: bool, hasNumpy: bool, hasPillow: bool)
    ensures var d := CheckDependencies(hasMatplotlib, hasNumpy, hasPillow);
            && Truthy(d)
            && (d.Flag? <==> hasMatplotlib && hasNumpy && hasPillow)
            && (d.Pair? ==> !d.ok && d.missing != []
                            && ("matplotlib" in d.missing <==> !hasMatplotlib)
                            && ("numpy" in d.missing <==> !hasNumpy)
                            && ("pillow" in d.missing <==> !hasPillow))
  {
  }
}
