// utils/graphics/shapes/stirrup.py: the polylines of the stirrup and tie
// drawings, chosen by the stirrup kind the caller passes in, and the
// dimension-line calls that follow them. What a dimension line draws and
// its formatted label are not part of this model; how Python binds the
// call's arguments is, since as written that binding fails.

module Stirrup {
  import opened Common
  import opened ShapeCommon

  /** The hook length when the designation is not in the hook table (cm). */
  const DefaultHook := 15.0

  /** `_get_hook_length`: the table's hook length for the designation. */
  function HookLength(hooks: map<string, real>, number: string): (h: real)
    ensures number in hooks ==> h == hooks[number]
    ensures number !in hooks ==> h == DefaultHook
  {
    if number in hooks then hooks[number] else DefaultHook
  }

  /** The kinds drawn as a closed rectangle. */
  predicate IsClosedKind(kind: string)
  {
    kind == "地箍" || kind == "柱箍" || kind == "牆箍"
  }

  predicate IsKnownKind(kind: string)
  {
    IsClosedKind(kind) || kind == "U箍" || kind == "L箍" || kind == "半箍"
  }

  /** The bend of the angled hooks: 90 degrees for a wall tie, 45 otherwise. */
  function HookDegrees(kind: string): real
  {
    if kind == "牆箍" then 90.0 else 45.0
  }

  /**
   * A hook of length `len` from `from` at `degrees` above the horizontal,
   * pointing to the right (`dir` 1) or the left (`dir` -1); `up` -1 turns it
   * below the horizontal.
   */
  function AngledHook(t: Trig, from: Pt, len: real, degrees: real, dir: real, up: real): seq<Pt>
  {
    var a := Radians(t, degrees);
    Segment(from, Pt(from.x + dir * len * t.cos(a), from.y + up * len * t.sin(a)))
  }

  /**
   * The polylines `draw_stirrup` plots for each stirrup kind, the main bar
   * first and its hooks after it; an unknown kind draws only a centred '?'.
   */
  function StirrupLines(t: Trig, kind: string, width: real, height: real, hooks: map<string, real>, number: string): (d: Drawing)
  {
    var w := width;
    var h := height;
    var hook := HookLength(hooks, number);
    if IsClosedKind(kind) then
      var body := [Pt(0.0, 0.0), Pt(w, 0.0), Pt(w, h), Pt(0.0, h), Pt(0.0, 0.0)];
      var left := AngledHook(t, Pt(0.0, h), hook, HookDegrees(kind), -1.0, 1.0);
      if kind == "地箍" then
        Drawing([body, left, Segment(Pt(w, h), Pt(w, h + hook)), Segment(Pt(w, h + hook), Pt(w - hook, h + hook))], [])
      else
        Drawing([body, left, AngledHook(t, Pt(w, h), hook, HookDegrees(kind), 1.0, 1.0)], [])
    else if kind == "U箍" then
      Drawing([[Pt(hook, h), Pt(0.0, h), Pt(0.0, 0.0), Pt(w, 0.0), Pt(w, h), Pt(w - hook, h)]], [])
    else if kind == "L箍" then
      Drawing([[Pt(0.0, h), Pt(0.0, 0.0), Pt(w, 0.0)],
               Segment(Pt(w, 0.0), Pt(w + hook, 0.0)),
               AngledHook(t, Pt(0.0, h), hook, 45.0, -1.0, 1.0)], [])
    else if kind == "半箍" then
      Drawing([[Pt(0.0, hook), Pt(0.0, 0.0), Pt(w, h), Pt(w, h - hook)],
               AngledHook(t, Pt(0.0, 0.0), hook, 45.0, -1.0, -1.0),
               AngledHook(t, Pt(w, h), hook, 45.0, 1.0, 1.0)], [])
    else
      Drawing([], [Text(Pt(0.5, 0.5), "?")])
  }

  /** The parameters of `draw_dimension_line` in shapes/common.py, in order; the first five have no default. */
  const DimensionParams := ["ax", "start_point", "end_point", "offset", "text", "horizontal", "settings"]
  const DimensionRequired := 5

  /** A call: how many arguments are passed by position, and the names passed by keyword. */
  datatype Call = Call(positional: nat, keywords: seq<string>)

  /**
   * Python's binding of a call to the parameters `params`, of which the
   * first `required` have no default: a TypeError for too many positional
   * arguments, for a keyword that names no parameter or one a positional
   * argument already fills, and for a parameter without default left
   * unfilled. Otherwise the parameters the call fills.
   */
  function Bind(params: seq<string>, required: nat, c: Call): (r: Outcome<set<string>>)
    requires required <= |params|
    requires forall i, j :: 0 <= i < j < |params| ==> params[i] != params[j]
    ensures r.Raises? ==> r.error == TypeError
    ensures r.Ok? ==> forall p :: p in r.value ==> p in params
    ensures r.Ok? ==> forall i :: 0 <= i < required ==> params[i] in r.value
    ensures r.Ok? ==> forall k :: k in c.keywords ==> k in r.value
    ensures c.positional <= |params| && (exists k :: k in c.keywords && k in params[..c.positional]) ==> r.Raises?
  {
    if c.positional > |params| then Raises(TypeError)
    else if exists k :: k in c.keywords && k !in params[c.positional..] then Raises(TypeError)
    else if exists i :: c.positional <= i < required && params[i] !in c.keywords then Raises(TypeError)
    else Ok((set i | 0 <= i < c.positional :: params[i]) + (set k | k in c.keywords))
  }

  /**
   * Every known kind ends with two dimension lines, width then height, each
   * called with the label and the settings by position after the two
   * points and `offset=` (and `horizontal=False` for the height) by name.
   */
  const AsWrittenCalls := [Call(5, ["offset"]), Call(5, ["offset", "horizontal"])]

  /** The calls as evidently meant: the two points by position, the rest by name, `offset` once. */
  const IntendedCalls := [Call(3, ["text", "settings", "offset"]), Call(3, ["text", "settings", "offset", "horizontal"])]

  /** The calls made in order: the first one that fails to bind, or success. */
  function BindAll(calls: seq<Call>): (r: Outcome<()>)
    ensures r.Raises? ==> r.error == TypeError
    ensures r.Ok? <==> forall i :: 0 <= i < |calls| ==> Bind(DimensionParams, DimensionRequired, calls[i]).Ok?
  {
    if calls == [] then Ok(())
    else
      match Bind(DimensionParams, DimensionRequired, calls[0])
      case Raises(e) => Raises(e)
      case Ok(_) =>
        var r := BindAll(calls[1..]);
        assert forall i :: 1 <= i < |calls| ==> calls[i] == calls[1..][i - 1];
        r
  }

  /**
   * `draw_stirrup` with a given pair of dimension-line calls: a known kind
   * plots its polylines and then makes the calls, so a call that fails to
   * bind raises before any figure is returned; an unknown kind makes none.
   */
  function DrawWith(calls: seq<Call>, t: Trig, kind: string, width: real, height: real, hooks: map<string, real>, number: string): Outcome<Drawing>
  {
    var d := StirrupLines(t, kind, width, height, hooks, number);
    if IsKnownKind(kind) then
      match BindAll(calls)
      case Raises(e) => Raises(e)
      case Ok(_) => Ok(d)
    else Ok(d)
  }

  /** `draw_stirrup` as written. */
  function DrawStirrup(t: Trig, kind: string, width: real, height: real, hooks: map<string, real>, number: string): Outcome<Drawing>
  {
    DrawWith(AsWrittenCalls, t, kind, width, height, hooks, number)
  }

  /** `draw_stirrup` with `offset` passed once in each dimension-line call. */
  function DrawStirrupIntended(t: Trig, kind: string, width: real, height: real, hooks: map<string, real>, number: string): Outcome<Drawing>
  {
    DrawWith(IntendedCalls, t, kind, width, height, hooks, number)
  }

  /**
   * As written, the width line's call passes `offset` twice: fourth by
   * position (where the label lands) and again by name.
   */
  lemma OffsetTwice()
    ensures var c := AsWrittenCalls[0];
            c.positional == 5 && "offset" in c.keywords && DimensionParams[3] == "offset"
    ensures Bind(DimensionParams, DimensionRequired, AsWrittenCalls[0]) == Raises(TypeError)
    ensures BindAll(AsWrittenCalls) == Raises(TypeError)
  {
    assert DimensionParams[..5][3] == "offset";
  }

  /** The intended calls bind, the label to `text` and the settings to `settings`, `offset` filled once. */
  lemma IntendedCallsBind()
    ensures forall i :: 0 <= i < |IntendedCalls| ==>
              var r := Bind(DimensionParams, DimensionRequired, IntendedCalls[i]);
              r.Ok? && "text" in r.value && "settings" in r.value && "offset" in r.value
    ensures BindAll(IntendedCalls) == Ok(())
  {
    assert DimensionParams[3..] == ["offset", "text", "horizontal", "settings"];
  }

  /** `p` is closed, starts at the origin and goes round a w × h rectangle counter-clockwise. */
  predicate ClosedRectangle(p: seq<Pt>, w: real, h: real)
  {
    && |p| == 5 && p[0] == p[4] == Pt(0.0, 0.0)
    && p[1].y == p[0].y && p[1].x - p[0].x == w
    && p[2].x == p[1].x && p[2].y - p[1].y == h
    && p[3].y == p[2].y && p[2].x - p[3].x == w
    && p[4].x == p[3].x && p[3].y - p[4].y == h
  }

  /**
   * As written, no known kind returns a drawing: each plots its polylines
   * (the closed kinds a rectangle with hooks at its top corners) and then
   * raises a TypeError at its first dimension line. An unknown kind gives
   * the '?' alone.
   */
  lemma KindsDrawn(t: Trig, kind: string, w: real, h: real, hooks: map<string, real>, number: string)
    ensures var r := DrawStirrup(t, kind, w, h, hooks, number);
            && (IsKnownKind(kind) ==> r == Raises(TypeError))
            && (!IsKnownKind(kind) ==> r == Ok(Drawing([], [Text(Pt(0.5, 0.5), "?")])))
    ensures var d := StirrupLines(t, kind, w, h, hooks, number);
            && (d.lines == [] <==> !IsKnownKind(kind))
            && (!IsKnownKind(kind) ==> d.texts == [Text(Pt(0.5, 0.5), "?")])
            && (IsKnownKind(kind) ==> d.texts == [])
            && (IsClosedKind(kind) ==>
                  && ClosedRectangle(d.lines[0], w, h)
                  && d.lines[1][0] == d.lines[0][3]
                  && d.lines[2][0] == d.lines[0][2])
  {
    OffsetTwice();
  }

  /**
   * With `offset` passed once, every kind returns its polylines: the known
   * kinds their bars and hooks, an unknown kind the '?'.
   */
  lemma IntendedDrawn(t: Trig, kind: string, w: real, h: real, hooks: map<string, real>, number: string)
    ensures var r := DrawStirrupIntended(t, kind, w, h, hooks, number);
            && r == Ok(StirrupLines(t, kind, w, h, hooks, number))
            && (r.value.lines == [] <==> !IsKnownKind(kind))
  {
    IntendedCallsBind();
  }

  /**
   * A wall tie and a column tie differ only in the angle of their hooks:
   * 90 degrees for the wall tie, 45 for the column tie.
   */
  lemma WallHookAngle(t: Trig, w: real, h: real, hooks: map<string, real>, number: string)
    ensures var wall := StirrupLines(t, "牆箍", w, h, hooks, number);
            var column := StirrupLines(t, "柱箍", w, h, hooks, number);
            var hook := HookLength(hooks, number);
            && |wall.lines| == |column.lines| == 3
            && wall.lines[0] == column.lines[0]
            && wall.lines[1] == AngledHook(t, Pt(0.0, h), hook, 90.0, -1.0, 1.0)
            && column.lines[1] == AngledHook(t, Pt(0.0, h), hook, 45.0, -1.0, 1.0)
            && wall.lines[2] == AngledHook(t, Pt(w, h), hook, 90.0, 1.0, 1.0)
            && column.lines[2] == AngledHook(t, Pt(w, h), hook, 45.0, 1.0, 1.0)
  {
  }

  /**
   * The ground tie ends on the right with a hook up by the hook length and
   * then back towards the left by the same length.
   */
  lemma GroundHook(t: Trig, w: real, h: real, hooks: map<string, real>, number: string)
    ensures var d := StirrupLines(t, "地箍", w, h, hooks, number);
            var hook := HookLength(hooks, number);
            && |d.lines| == 4
            && d.lines[2][0] == d.lines[0][2]
            && d.lines[2][1].x == d.lines[2][0].x && d.lines[2][1].y - d.lines[2][0].y == hook
            && d.lines[3][0] == d.lines[2][1]
            && d.lines[3][1].y == d.lines[3][0].y && d.lines[3][0].x - d.lines[3][1].x == hook
  {
  }

  /** The point reflected in the vertical axis x = w/2. */
  function MirrorX(p: Pt, w: real): Pt
  {
    Pt(w - p.x, p.y)
  }

  /** The point turned half a revolution about (w/2, h/2). */
  function HalfTurn(p: Pt, w: real, h: real): Pt
  {
    Pt(w - p.x, h - p.y)
  }

  /**
   * The U tie is open at the top and mirror-symmetric: reflecting it in
   * x = w/2 traces the same polyline backwards.
   */
  lemma USymmetric(t: Trig, w: real, h: real, hooks: map<string, real>, number: string)
    ensures var d := StirrupLines(t, "U箍", w, h, hooks, number);
            var p := d.lines[0];
            && |d.lines| == 1 && |p| == 6
            && (forall i :: 0 <= i < 6 ==> MirrorX(p[i], w) == p[5 - i])
            && p[0].y == p[5].y == h
            && p[1] == Pt(0.0, h) && p[4] == Pt(w, h)
  {
  }

  /**
   * The half tie is a Z: turning it half a revolution about the centre of
   * the w × h box traces the bar backwards and swaps its two hooks.
   */
  lemma HalfTieZ(t: Trig, w: real, h: real, hooks: map<string, real>, number: string)
    ensures var d := StirrupLines(t, "半箍", w, h, hooks, number);
            var p := d.lines[0];
            && |d.lines| == 3 && |p| == 4
            && (forall i :: 0 <= i < 4 ==> HalfTurn(p[i], w, h) == p[3 - i])
            && d.lines[1][0] == p[1] && d.lines[2][0] == p[2]
            && HalfTurn(d.lines[1][1], w, h) == d.lines[2][1]
  {
  }

  /**
   * The L tie runs down the left side and along the bottom, with a straight
   * hook continuing the bottom leg by the hook length.
   */
  lemma LTie(t: Trig, w: real, h: real, hooks: map<string, real>, number: string)
    ensures var d := StirrupLines(t, "L箍", w, h, hooks, number);
            var p := d.lines[0];
            var hook := HookLength(hooks, number);
            && |d.lines| == 3 && |p| == 3
            && p[1] == Pt(0.0, 0.0) && p[0].x == 0.0 && p[2].y == 0.0
            && d.lines[1][0] == p[2] && d.lines[1][1].y == 0.0 && d.lines[1][1].x - p[2].x == hook
            && d.lines[2][0] == p[0]
  {
  }
}
