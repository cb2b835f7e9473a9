// core/excel_writers/base_excel_writer.py: what every schedule writer shares.
// Where a record's segment lengths come from, the text that stands in for a
// picture, and the list of temporary image files the writer keeps. Creating,
// saving and deleting the files is I/O: the fresh path and whether a file
// still exists are inputs.

module ExcelWriterBase {
  import opened Common

  /** A scalar field of the record: absent, present as None, or a number. */
  datatype Field = Missing | Null | Number(x: real)

  /**
   * The record fields the writer reads. A list field is None when it is
   * absent, None or not a list; the letter fields are None when absent or
   * None.
   */
  datatype Rebar = Rebar(segments: Option<seq<real>>, lengths: Option<seq<real>>,
                         a: Option<real>, b: Option<real>, c: Option<real>, d: Option<real>, e: Option<real>,
                         length: Field, number: Option<string>)

  /** The letter fields A to E, in the order they are read. */
  function Letters(r: Rebar): seq<Option<real>>
  {
    [r.a, r.b, r.c, r.d, r.e]
  }

  /** The positive values among `vals`, in order. */
  function Positives(vals: seq<Option<real>>): (r: seq<real>)
    ensures |r| <= |vals|
    ensures forall i :: 0 <= i < |r| ==> r[i] > 0.0
    ensures forall j :: 0 <= j < |vals| && vals[j].Some? && vals[j].value > 0.0 ==> vals[j].value in r
    ensures forall x :: x in r ==> Some(x) in vals
  {
    if vals == [] then []
    else
      var front := Positives(vals[..|vals| - 1]);
      assert forall j :: 0 <= j < |vals| - 1 ==> vals[j] == vals[..|vals| - 1][j];
      assert forall v :: v in vals[..|vals| - 1] ==> v in vals;
      var last := vals[|vals| - 1];
      if last.Some? && last.value > 0.0 then front + [last.value] else front
  }

  /** Reading the values in two parts gives the two parts' positives, one after the other. */
  lemma {:induction false} PositivesConcat(u: seq<Option<real>>, v: seq<Option<real>>)
    ensures Positives(u + v) == Positives(u) + Positives(v)
    decreases |v|
  {
    if v == [] {
      assert u + v == u;
    } else {
      var front := v[..|v| - 1];
      assert (u + v)[..|u + v| - 1] == u + front;
      PositivesConcat(u, front);
    }
  }

  /**
   * `_get_rebar_segments`: a non-empty `segments` list as it is; else the
   * `lengths` list, or the positive letter values; if that is empty, the
   * total length when positive. Comparing a None length with 0 raises.
   */
  function SegmentsOf(r: Rebar): (o: Outcome<seq<real>>)
    ensures o.Raises? <==> r.length.Null? && (r.segments.None? || r.segments.value == [])
                            && (if r.lengths.Some? then r.lengths.value else Positives(Letters(r))) == []
    ensures o.Raises? ==> o.error == TypeError
  {
    if r.segments.Some? && r.segments.value != [] then Ok(r.segments.value)
    else
      var s := if r.lengths.Some? then r.lengths.value else Positives(Letters(r));
      if s != [] then Ok(s)
      else
        match r.length
        case Missing => Ok([])
        case Null => Raises(TypeError)
        case Number(x) => Ok(if x > 0.0 then [x] else [])
  }

  /** `_get_rebar_segments`, building the list from the letters in a loop. */
  method GetRebarSegments(r: Rebar) returns (o: Outcome<seq<real>>)
    ensures o == SegmentsOf(r)
  {
    if r.segments.Some? && r.segments.value != [] {
      return Ok(r.segments.value);
    }
    var segs: seq<real> := [];
    if r.lengths.Some? {
      segs := r.lengths.value;
    } else {
      segs := PositiveLetters(Letters(r));
    }
    if segs == [] {
      match r.length
      case Missing =>
      case Null => return Raises(TypeError);
      case Number(x) => if x > 0.0 { segs := [x]; }
    }
    return Ok(segs);
  }

  /** The loop of `_get_rebar_segments` over the letter fields, keeping the positive ones. */
  method PositiveLetters(letters: seq<Option<real>>) returns (segs: seq<real>)
    ensures segs == Positives(letters)
  {
    segs := [];
    var i := 0;
    while i < |letters|
      invariant 0 <= i <= |letters|
      invariant segs == Positives(letters[..i])
    {
      PositivesConcat(letters[..i], [letters[i]]);
      assert letters[..i + 1] == letters[..i] + [letters[i]];
      if letters[i].Some? && letters[i].value > 0.0 {
        segs := segs + [letters[i].value];
      }
      i := i + 1;
    }
    assert letters[..i] == letters;
  }

  /**
   * Where the segments come from: a non-empty `segments` list wins; then a
   * `lengths` list, even an empty one; then the letters, every one of which
   * is positive and kept in A to E order; the length is the last resort,
   * and then only a positive one.
   */
  lemma SegmentSources(r: Rebar)
    ensures r.segments.Some? && r.segments.value != [] ==> SegmentsOf(r) == Ok(r.segments.value)
    ensures (r.segments.None? || r.segments.value == []) && r.lengths.Some? && r.lengths.value != []
            ==> SegmentsOf(r) == Ok(r.lengths.value)
    ensures (r.segments.None? || r.segments.value == []) && r.lengths.None? && Positives(Letters(r)) != []
            ==> SegmentsOf(r) == Ok(Positives([r.a, r.b]) + Positives([r.c, r.d, r.e]))
    ensures SegmentsOf(r) == Ok([]) <==>
              (r.segments.None? || r.segments.value == [])
              && (if r.lengths.Some? then r.lengths.value else Positives(Letters(r))) == []
              && (r.length.Missing? || (r.length.Number? && r.length.x <= 0.0))
  {
    PositivesConcat([r.a, r.b], [r.c, r.d, r.e]);
    assert [r.a, r.b] + [r.c, r.d, r.e] == Letters(r);
  }

  /** The designation shown, `'#4'` when the record has none. */
  function Designation(r: Rebar): string
  {
    if r.number.Some? then r.number.value else "#4"
  }

  /**
   * `generate_text_description`: a heading naming the shape by the number
   * of segments (one straight, two L, three U, any other count complex)
   * with the designation, then the whole-centimetre lengths.
   */
  function TextDescription(r: Rebar): (o: Outcome<string>)
    ensures o.Raises? <==> SegmentsOf(r).Raises?
  {
    var segs :- SegmentsOf(r);
    Ok(Describe(segs, Designation(r)))
  }

  /** The description of the segments `segs` of the bar designated `id`. */
  function Describe(segs: seq<real>, id: string): string
  {
    if |segs| == 1 then "直鋼筋 " + id + "\n長度: " + Show(segs[0]) + "cm"
    else if |segs| == 2 then "L型鋼筋 " + id + "\n" + Show(segs[0]) + " + " + Show(segs[1]) + "cm"
    else if |segs| == 3 then "U型鋼筋 " + id + "\n" + Show(segs[0]) + " + " + Show(segs[1]) + " + " + Show(segs[2]) + "cm"
    else "複雜鋼筋 " + id + "\n" + ShowJoined(segs) + "cm"
  }

  /** The heading's shape name for a segment count. */
  function ShapeName(count: nat): string
  {
    if count == 1 then "直鋼筋 " else if count == 2 then "L型鋼筋 " else if count == 3 then "U型鋼筋 " else "複雜鋼筋 "
  }

  /** Two or three lengths joined by " + ", written out. */
  lemma JoinPlusShort(segs: seq<real>)
    ensures |segs| == 2 ==> ShowJoined(segs) == Show(segs[0]) + " + " + Show(segs[1])
    ensures |segs| == 3 ==> ShowJoined(segs) == Show(segs[0]) + " + " + Show(segs[1]) + " + " + Show(segs[2])
  {
    if |segs| == 2 {
      assert segs[..1] == [segs[0]];
    } else if |segs| == 3 {
      assert segs[..2] == [segs[0], segs[1]];
      assert segs[..2][..1] == [segs[0]];
    }
  }

  /**
   * The description is the shape name, the designation, a newline and a
   * second line; for every count but one, that line is the lengths joined
   * by " + " as the complex form writes them, so the fixed two- and
   * three-segment forms agree with the general one.
   */
  lemma DescriptionLayout(r: Rebar)
    requires SegmentsOf(r).Ok?
    ensures var segs := SegmentsOf(r).value;
            var head := ShapeName(|segs|) + Designation(r) + "\n";
            && (|segs| != 1 ==> TextDescription(r).value == head + ShowJoined(segs) + "cm")
            && (|segs| == 1 ==> TextDescription(r).value == head + "長度: " + Show(segs[0]) + "cm")
  {
    DescribeLayout(SegmentsOf(r).value, Designation(r));
  }

  lemma DescribeLayout(segs: seq<real>, id: string)
    ensures |segs| != 1 ==> Describe(segs, id) == ShapeName(|segs|) + id + "\n" + ShowJoined(segs) + "cm"
    ensures |segs| == 1 ==> Describe(segs, id) == ShapeName(|segs|) + id + "\n" + "長度: " + Show(segs[0]) + "cm"
  {
    var head := ShapeName(|segs|) + id + "\n";
    if |segs| == 1 {
      assert "\n" + "長度: " == "\n長度: ";
      Assoc(ShapeName(1) + id, "\n", "長度: ");
    } else if |segs| == 2 {
      JoinPlusShort(segs);
      Assoc(head, Show(segs[0]) + " + ", Show(segs[1]));
      Assoc(head, Show(segs[0]), " + ");
    } else if |segs| == 3 {
      JoinPlusShort(segs);
      var a, b, c := Show(segs[0]), Show(segs[1]), Show(segs[2]);
      Assoc(head, a + " + " + b + " + ", c);
      Assoc(head, a + " + " + b, " + ");
      Assoc(head, a + " + ", b);
      Assoc(head, a, " + ");
    }
  }

  /** The writer's state: whether a graphics manager was given, and the temporary files it made. */
  class ExcelWriter {
    const graphicsAvailable: bool
    var tempFiles: seq<string>

    /** `__init__`: graphics are available exactly when a manager is passed. */
    constructor(hasGraphicsManager: bool)
      ensures graphicsAvailable == hasGraphicsManager
      ensures tempFiles == []
    {
      graphicsAvailable := hasGraphicsManager;
      tempFiles := [];
    }

    /**
     * `_save_image_to_temp`: without an image nothing happens and the result
     * is None; otherwise the image goes to the fresh path, which is
     * remembered and returned.
     */
    method SaveImageToTemp<I>(image: Option<I>, freshPath: string) returns (path: Option<string>)
      modifies this
      ensures image.None? ==> path.None? && tempFiles == old(tempFiles)
      ensures image.Some? ==> path == Some(freshPath) && tempFiles == old(tempFiles) + [freshPath]
    {
      if image.None? {
        return None;
      }
      tempFiles := tempFiles + [freshPath];
      return Some(freshPath);
    }

    /**
     * `cleanup_temp_files`: every remembered file that still exists is
     * removed, in order; failures are only reported. Afterwards the list is
     * empty.
     */
    method CleanupTempFiles(onDisk: string -> bool) returns (removed: seq<string>)
      modifies this
      ensures removed == Existing(old(tempFiles), onDisk)
      ensures tempFiles == []
    {
      removed := [];
      var i := 0;
      while i < |tempFiles|
        invariant 0 <= i <= |tempFiles|
        invariant removed == Existing(tempFiles[..i], onDisk)
      {
        assert tempFiles[..i + 1][..i] == tempFiles[..i];
        if onDisk(tempFiles[i]) {
          removed := removed + [tempFiles[i]];
        }
        i := i + 1;
      }
      assert tempFiles[..i] == tempFiles;
      tempFiles := [];
    }
  }

  /** The paths among `paths` that exist, in order. */
  function Existing(paths: seq<string>, onDisk: string -> bool): (r: seq<string>)
    ensures |r| <= |paths|
    ensures forall p :: p in r <==> p in paths && onDisk(p)
  {
    if paths == [] then []
    else
      var front := Existing(paths[..|paths| - 1], onDisk);
      var last := paths[|paths| - 1];
      assert paths == paths[..|paths| - 1] + [last];
      if onDisk(last) then front + [last] else front
  }

  /**
   * Every image saved between two cleanups is in the next cleanup's list:
   * after saving an image on a fresh writer, cleaning up removes exactly
   * that file if it still exists, and forgets it.
   */
  method SaveThenCleanup<I>(image: I, path: string, onDisk: string -> bool) returns (removed: seq<string>)
    ensures removed == if onDisk(path) then [path] else []
  {
    var w := new ExcelWriter(true);
    var saved := w.SaveImageToTemp(Some(image), path);
    assert w.tempFiles == [path];
    removed := w.CleanupTempFiles(onDisk);
    assert [path][..0] == [];
  }
}
