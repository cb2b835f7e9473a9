// utils/image_ocr.py: which words read from a drawing's embedded images are
// kept as numbers. Loading the images, preparing them and running the OCR
// engine are outside the model: the engine's rows and the image loader are
// inputs.

module ImageOcr {
  import opened Common

  /** `min_confidence`: a word must be read with more confidence than this. */
  const MinConfidence := 60

  /** One row of the engine's output: the word, its confidence and its box. */
  datatype OcrRow = OcrRow(text: string, conf: real, left: int, top: int, width: int, height: int)

  /** A kept number: its text, its whole confidence and its box as (left, top, right, bottom). */
  datatype Reading = Reading(text: string, confidence: int, bbox: (int, int, int, int))

  /** The characters a number may be written with. */
  predicate NumericChar(c: char)
  {
    '0' <= c <= '9' || c == '.' || c == '-'
  }

  /** `is_numeric_text`: non-empty and made only of digits, points and minus signs. */
  function IsNumericText(text: string): (b: bool)
    ensures b <==> |text| > 0 && forall i :: 0 <= i < |text| ==> NumericChar(text[i])
  {
    |text| > 0 && forall i :: 0 <= i < |text| ==> NumericChar(text[i])
  }

  /** The characters are checked one by one and the order is not: "1-." and "--" count as numbers. */
  lemma NoStructureCheck()
    ensures IsNumericText("1-.") && IsNumericText("--") && IsNumericText("3.5")
    ensures !IsNumericText("") && !IsNumericText("#5") && !IsNumericText("1 2")
  {
    assert "#5"[0] == '#';
    assert "1 2"[1] == ' ';
  }

  /** A row is kept when its stripped word is non-empty, read with confidence over 60 once truncated, and numeric. */
  predicate Keep(row: OcrRow)
  {
    var text := Strip(row.text);
    text != [] && PyTrunc(row.conf) > MinConfidence && IsNumericText(text)
  }

  /** The reading a kept row gives. */
  function ReadingOf(row: OcrRow): Reading
  {
    Reading(Strip(row.text), PyTrunc(row.conf),
            (row.left, row.top, row.left + row.width, row.top + row.height))
  }

  /** The images of the elements of `xs` that satisfy `keep`, in order. */
  function FilterMap<A, B>(xs: seq<A>, keep: A -> bool, f: A -> B): (r: seq<B>)
    ensures |r| <= |xs|
  {
    if xs == [] then []
    else
      var front := FilterMap(xs[..|xs| - 1], keep, f);
      var last := xs[|xs| - 1];
      if keep(last) then front + [f(last)] else front
  }

  lemma FilterMapSnoc<A, B>(xs: seq<A>, x: A, keep: A -> bool, f: A -> B)
    ensures FilterMap(xs + [x], keep, f) == FilterMap(xs, keep, f) + (if keep(x) then [f(x)] else [])
  {
    assert (xs + [x])[..|xs|] == xs;
  }

  lemma {:induction false} FilterMapConcat<A, B>(u: seq<A>, v: seq<A>, keep: A -> bool, f: A -> B)
    ensures FilterMap(u + v, keep, f) == FilterMap(u, keep, f) + FilterMap(v, keep, f)
    decreases |v|
  {
    if v == [] {
      assert u + v == u;
    } else {
      var front := v[..|v| - 1];
      assert (u + v)[..|u + v| - 1] == u + front;
      FilterMapConcat(u, front, keep, f);
    }
  }

  lemma {:induction false} FilterMapExact<A, B>(xs: seq<A>, keep: A -> bool, f: A -> B, y: B)
    ensures y in FilterMap(xs, keep, f) <==> exists i :: 0 <= i < |xs| && keep(xs[i]) && f(xs[i]) == y
  {
    if xs != [] {
      var front := xs[..|xs| - 1];
      FilterMapExact(front, keep, f, y);
      if y in FilterMap(xs, keep, f) {
        if y in FilterMap(front, keep, f) {
          var i :| 0 <= i < |front| && keep(front[i]) && f(front[i]) == y;
          assert xs[i] == front[i];
        } else {
          assert keep(xs[|xs| - 1]) && f(xs[|xs| - 1]) == y;
        }
      }
      if exists i :: 0 <= i < |xs| && keep(xs[i]) && f(xs[i]) == y {
        var i :| 0 <= i < |xs| && keep(xs[i]) && f(xs[i]) == y;
        if i < |front| {
          assert front[i] == xs[i];
        }
      }
    }
  }

  /** The filter in `extract_numbers_from_image`: the kept rows' readings, in the engine's order. */
  function Readings(rows: seq<OcrRow>): (r: seq<Reading>)
    ensures |r| <= |rows|
  {
    FilterMap(rows, Keep, ReadingOf)
  }

  /** Filtering two runs of rows gives the two runs' readings one after the other: the order is kept. */
  lemma ReadingsConcat(a: seq<OcrRow>, b: seq<OcrRow>)
    ensures Readings(a + b) == Readings(a) + Readings(b)
  {
    FilterMapConcat(a, b, Keep, ReadingOf);
  }

  /** A reading comes from a kept row, and every kept row gives one. */
  lemma ReadingsExact(rows: seq<OcrRow>, x: Reading)
    ensures x in Readings(rows) <==> exists i :: 0 <= i < |rows| && Keep(rows[i]) && ReadingOf(rows[i]) == x
  {
    FilterMapExact(rows, Keep, ReadingOf, x);
  }

  /** Every reading is numeric text read with confidence over 60. */
  lemma ReadingsSound(rows: seq<OcrRow>)
    ensures forall x :: x in Readings(rows) ==> IsNumericText(x.text) && x.confidence > MinConfidence
  {
    forall x | x in Readings(rows) ensures IsNumericText(x.text) && x.confidence > MinConfidence {
      ReadingsExact(rows, x);
    }
  }

  /** One more row adds its reading when it is kept. */
  lemma ReadingsStep(rows: seq<OcrRow>, i: nat)
    requires i < |rows|
    ensures Readings(rows[..i + 1]) == Readings(rows[..i]) + (if Keep(rows[i]) then [ReadingOf(rows[i])] else [])
  {
    assert rows[..i + 1] == rows[..i] + [rows[i]];
    FilterMapSnoc(rows[..i], rows[i], Keep, ReadingOf);
  }

  /** The tests `extract_numbers_from_image` applies to one row. */
  method KeepRow(row: OcrRow) returns (keep: bool)
    ensures keep == Keep(row)
  {
    var text := Strip(row.text);
    var confidence := PyTrunc(row.conf);
    keep := false;
    if text != [] && confidence > MinConfidence {
      if IsNumericText(text) {
        keep := true;
      }
    }
  }

  /** The loop of `extract_numbers_from_image` over the engine's rows. */
  method ExtractNumbers(rows: seq<OcrRow>) returns (results: seq<Reading>)
    ensures results == Readings(rows)
  {
    results := [];
    var i := 0;
    while i < |rows|
      invariant 0 <= i <= |rows|
      invariant results == Readings(rows[..i])
    {
      ReadingsStep(rows, i);
      var keep := KeepRow(rows[i]);
      if keep {
        results := results + [ReadingOf(rows[i])];
      }
      i := i + 1;
    }
    assert rows[..i] == rows;
  }

  /** An image entity: the file it refers to and where it sits in the drawing. */
  datatype ImageInfo = ImageInfo(path: string, insertPoint: (real, real), size: (real, real), rotation: real)

  /** One result of `process_dxf_images`: a reading together with its image's details. */
  datatype ImageReading = ImageReading(info: ImageInfo, reading: Reading)

  /** The readings of one image, each paired with the image. */
  function Tagged(info: ImageInfo, readings: seq<Reading>): (r: seq<ImageReading>)
    ensures |r| == |readings|
  {
    if readings == [] then [] else Tagged(info, readings[..|readings| - 1]) + [ImageReading(info, readings[|readings| - 1])]
  }

  /**
   * `process_dxf_images`: image by image, an image that does not load is
   * skipped and the readings of the others are collected in order. `load`
   * is the image loader and `ocr` the engine.
   */
  function AllReadings<Img>(images: seq<ImageInfo>, load: string -> Option<Img>, ocr: Img -> seq<OcrRow>): seq<ImageReading>
  {
    if images == [] then []
    else AllReadings(images[..|images| - 1], load, ocr) + ImageReadings(images[|images| - 1], load, ocr)
  }

  /** One image's share: nothing when it does not load, else its readings. */
  function ImageReadings<Img>(info: ImageInfo, load: string -> Option<Img>, ocr: Img -> seq<OcrRow>): seq<ImageReading>
  {
    match load(info.path)
    case None => []
    case Some(img) => Tagged(info, Readings(ocr(img)))
  }

  /**
   * An image is handled on its own: the results for a list of images are
   * those of its two parts one after the other, and an image that fails to
   * load adds nothing.
   */
  lemma {:induction false} AllReadingsConcat<Img>(a: seq<ImageInfo>, b: seq<ImageInfo>, load: string -> Option<Img>, ocr: Img -> seq<OcrRow>)
    ensures AllReadings(a + b, load, ocr) == AllReadings(a, load, ocr) + AllReadings(b, load, ocr)
    decreases |b|
  {
    if b == [] {
      assert a + b == a;
    } else {
      var front := b[..|b| - 1];
      var last := b[|b| - 1];
      AllReadingsConcat(a, front, load, ocr);
      SnocSplit(a, b);
      ConcatStep(a, front, last, load, ocr);
    }
  }

  lemma ConcatStep<Img>(a: seq<ImageInfo>, front: seq<ImageInfo>, last: ImageInfo, load: string -> Option<Img>, ocr: Img -> seq<OcrRow>)
    requires AllReadings(a + front, load, ocr) == AllReadings(a, load, ocr) + AllReadings(front, load, ocr)
    ensures AllReadings((a + front) + [last], load, ocr) == AllReadings(a, load, ocr) + AllReadings(front + [last], load, ocr)
  {
    AllReadingsSnoc(a + front, last, load, ocr);
    AllReadingsSnoc(front, last, load, ocr);
    Assoc(AllReadings(a, load, ocr), AllReadings(front, load, ocr), ImageReadings(last, load, ocr));
  }

  lemma SnocSplit<T>(a: seq<T>, b: seq<T>)
    requires b != []
    ensures a + b == (a + b[..|b| - 1]) + [b[|b| - 1]] && b == b[..|b| - 1] + [b[|b| - 1]]
  {
  }

  /** One more image adds its own readings after the others'. */
  lemma AllReadingsSnoc<Img>(xs: seq<ImageInfo>, x: ImageInfo, load: string -> Option<Img>, ocr: Img -> seq<OcrRow>)
    ensures AllReadings(xs + [x], load, ocr) == AllReadings(xs, load, ocr) + ImageReadings(x, load, ocr)
  {
    assert (xs + [x])[..|xs|] == xs;
  }

  lemma UnloadableSkipped<Img>(info: ImageInfo, load: string -> Option<Img>, ocr: Img -> seq<OcrRow>)
    ensures load(info.path).None? ==> AllReadings([info], load, ocr) == []
    ensures load(info.path).Some? ==> AllReadings([info], load, ocr) == Tagged(info, Readings(ocr(load(info.path).value)))
  {
    assert [info][..0] == [];
    assert AllReadings([info], load, ocr) == ImageReadings(info, load, ocr);
  }

  /** The inner loop of `process_dxf_images`: one image's readings appended to the results, each with the image's details. */
  method AppendTagged(all: seq<ImageReading>, info: ImageInfo, numbers: seq<Reading>) returns (out: seq<ImageReading>)
    ensures out == all + Tagged(info, numbers)
  {
    out := all;
    var j := 0;
    while j < |numbers|
      invariant 0 <= j <= |numbers|
      invariant out == all + Tagged(info, numbers[..j])
    {
      assert numbers[..j + 1][..j] == numbers[..j];
      out := out + [ImageReading(info, numbers[j])];
      j := j + 1;
    }
    assert numbers[..j] == numbers;
  }

  /** The loop of `process_dxf_images` over the image entities. */
  method ProcessDxfImages<Img>(images: seq<ImageInfo>, load: string -> Option<Img>, ocr: Img -> seq<OcrRow>)
    returns (all: seq<ImageReading>)
    ensures all == AllReadings(images, load, ocr)
  {
    all := [];
    var i := 0;
    while i < |images|
      invariant 0 <= i <= |images|
      invariant all == AllReadings(images[..i], load, ocr)
    {
      assert images[..i + 1][..i] == images[..i];
      assert AllReadings(images[..i + 1], load, ocr) == all + ImageReadings(images[i], load, ocr);
      var image := load(images[i].path);
      if image.Some? {
        var numbers := ExtractNumbers(ocr(image.value));
        all := AppendTagged(all, images[i], numbers);
      }
      i := i + 1;
    }
    assert images[..i] == images;
  }
}
