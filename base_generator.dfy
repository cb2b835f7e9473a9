// utils/graphics/generators/base_generator.py: what every image generator
// shares. Choosing the material directory, where its SVG lies, and where a
// centred caption starts. The SVG parser and the image library are not part
// of this model: what a material's SVG file turned out to be is an input.

module BaseGenerator {
  import opened Common
  import opened ShapeCommon

  /** What reading a material's `graphic-material.svg` gives. */
  datatype SvgFile = Missing | Unparsable | Parsed(hasPath: bool, hasLine: bool)

  /** The box an arc is inscribed in: left, top, right, bottom. */
  datatype Box = Box(left: real, top: real, right: real, bottom: real)

  /** An arc of the ellipse inscribed in `box`, from `start` to `end` degrees. */
  datatype Arc = Arc(box: Box, start: real, end: real)

  /** A caption anchored at `at`: horizontally centred there, or starting there. */
  datatype Caption = Caption(at: Pt, text: string, centred: bool)

  /** A generated picture: its size, straight lines, arcs and captions. */
  datatype Picture = Picture(width: int, height: int, lines: seq<seq<Pt>>, arcs: seq<Arc>, captions: seq<Caption>)

  /** The canvas every generator creates. */
  const ImageWidth := 800
  const ImageHeight := 400

  /** The first material whose name starts with `prefix`, in list order. */
  function FirstWithPrefix(prefix: string, materials: seq<string>): (r: Option<string>)
    ensures r.Some? ==> StartsWith(r.value, prefix) && r.value in materials
    ensures r.None? <==> forall i :: 0 <= i < |materials| ==> !StartsWith(materials[i], prefix)
  {
    if materials == [] then None
    else if StartsWith(materials[0], prefix) then Some(materials[0])
    else
      var r := FirstWithPrefix(prefix, materials[1..]);
      assert forall i :: 1 <= i < |materials| ==> materials[i] == materials[1..][i - 1];
      r
  }

  /** No material before the one chosen has the prefix. */
  lemma {:induction false} FirstWithPrefixIsFirst(prefix: string, materials: seq<string>)
    requires FirstWithPrefix(prefix, materials).Some?
    ensures exists k :: 0 <= k < |materials| && materials[k] == FirstWithPrefix(prefix, materials).value
                        && forall i :: 0 <= i < k ==> !StartsWith(materials[i], prefix)
  {
    if StartsWith(materials[0], prefix) {
      assert materials[0] == FirstWithPrefix(prefix, materials).value;
    } else {
      FirstWithPrefixIsFirst(prefix, materials[1..]);
      var k :| 0 <= k < |materials[1..]| && materials[1..][k] == FirstWithPrefix(prefix, materials[1..]).value
               && forall i :: 0 <= i < k ==> !StartsWith(materials[1..][i], prefix);
      assert materials[k + 1] == FirstWithPrefix(prefix, materials).value;
      forall i | 0 <= i < k + 1 ensures !StartsWith(materials[i], prefix) {
        if i > 0 {
          assert materials[i] == materials[1..][i - 1];
        }
      }
    }
  }

  /** `find_material`: the loop over the available materials. */
  method FindMaterial(prefix: string, materials: seq<string>) returns (r: Option<string>)
    ensures r == FirstWithPrefix(prefix, materials)
  {
    var i := 0;
    while i < |materials|
      invariant 0 <= i <= |materials|
      invariant FirstWithPrefix(prefix, materials) == FirstWithPrefix(prefix, materials[i..])
    {
      assert materials[i..][1..] == materials[i + 1..];
      if StartsWith(materials[i], prefix) {
        return Some(materials[i]);
      }
      i := i + 1;
    }
    assert materials[i..] == [];
    return None;
  }

  /** `get_svg_path`: the SVG file inside the material's directory, as path components. */
  function SvgPath(materialsDir: seq<string>, material: string): (p: seq<string>)
    ensures |p| == |materialsDir| + 2 && p[..|materialsDir|] == materialsDir
    ensures p[|p| - 2] == material && p[|p| - 1] == "graphic-material.svg"
  {
    materialsDir + [material, "graphic-material.svg"]
  }

  /** `draw_text_centered`: where a text of width `w` starts so that it is centred on `x`. */
  function CentredTextX(x: int, w: int): int
  {
    x - w / 2
  }

  /**
   * The text is centred to within a pixel: the part right of `x` is as wide
   * as the part left of it, or one wider when the width is odd.
   */
  lemma CentredTextBalance(x: int, w: int)
    ensures var left := x - CentredTextX(x, w);
            var right := CentredTextX(x, w) + w - x;
            right - left == w % 2 && 0 <= right - left <= 1
  {
  }

  /**
   * The part of every generator before the drawing: the first material with
   * the prefix, and its SVG if it exists and parses; None otherwise.
   */
  function LocateSvg(prefix: string, materials: seq<string>, files: string -> SvgFile): (r: Option<SvgFile>)
    ensures r.Some? ==> r.value.Parsed?
    ensures r.None? <==> FirstWithPrefix(prefix, materials).None? || !files(FirstWithPrefix(prefix, materials).value).Parsed?
  {
    match FirstWithPrefix(prefix, materials)
    case None => None
    case Some(m) => if files(m).Parsed? then Some(files(m)) else None
  }
}
