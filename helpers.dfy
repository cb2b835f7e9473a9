// General helpers: file-size and duration unit selection, straight and
// polyline lengths, and the progress tracker. Number formatting (`:.2f`,
// `:.1f`) is not modelled: a formatted value is returned as the number and
// the unit it is shown in.

module Helpers {
  import opened Common

  // ---------------------------------------------------------------------------
  // format_file_size

  /** The unit names, smallest first. */
  const SizeNames: seq<string> := ["B", "KB", "MB", "GB", "TB"]

  /** What `format_file_size` shows: the literal "0 B", or a value with a unit. */
  datatype FileSize = ZeroBytes | Sized(value: real, unit: string)

  function Pow1024(k: nat): (p: real)
    ensures p >= 1.0
  {
    if k == 0 then 1.0 else 1024.0 * Pow1024(k - 1)
  }

  /** How many times the loop divides by 1024: while the size is at least 1024, at most `cap` times. */
  function Divisions(size: real, cap: nat): (k: nat)
    ensures k <= cap
    decreases cap
  {
    if size >= 1024.0 && cap > 0 then 1 + Divisions(size / 1024.0, cap - 1) else 0
  }

  /** `format_file_size`: divides by 1024 while the value is at least 1024 and a larger unit is left. */
  method FormatFileSize(sizeBytes: real) returns (r: FileSize)
    ensures sizeBytes == 0.0 ==> r == ZeroBytes
    ensures sizeBytes != 0.0 ==>
              var k := Divisions(sizeBytes, 4);
              r == Sized(sizeBytes / Pow1024(k), SizeNames[k])
  {
    if sizeBytes == 0.0 {
      return ZeroBytes;
    }
    var size := sizeBytes;
    var i := 0;
    while size >= 1024.0 && i < |SizeNames| - 1
      invariant 0 <= i <= 4
      invariant size == sizeBytes / Pow1024(i)
      invariant Divisions(sizeBytes, 4) == i + Divisions(size, 4 - i)
    {
      DivideAgain(sizeBytes, i);
      size := size / 1024.0;
      i := i + 1;
    }
    return Sized(size, SizeNames[i]);
  }

  lemma DivideAgain(x: real, i: nat)
    ensures x / Pow1024(i) / 1024.0 == x / Pow1024(i + 1)
  {
    var p := Pow1024(i);
    assert Pow1024(i + 1) == 1024.0 * p;
    assert x / p / 1024.0 == x / (1024.0 * p);
  }

  /**
   * The unit is the largest one whose size in bytes does not exceed the
   * value (bytes for anything below 1024, terabytes at most), so the shown
   * value is at least 1 (once scaled) and below 1024 (below terabytes).
   */
  lemma UnitChoice(size: real, cap: nat)
    requires cap <= 4
    ensures var k := Divisions(size, cap);
            && (k > 0 ==> Pow1024(k) <= size)
            && (k < cap ==> size < Pow1024(k + 1))
            && (k > 0 ==> size / Pow1024(k) >= 1.0)
            && (k < cap ==> size / Pow1024(k) < 1024.0)
  {
    UnitBounds(size, cap);
    ScaledBounds(size, Divisions(size, cap));
  }

  /** The unit chosen lies between its own size in bytes and the next unit's. */
  lemma {:induction false} UnitBounds(size: real, cap: nat)
    ensures var k := Divisions(size, cap);
            && (k > 0 ==> Pow1024(k) <= size)
            && (k < cap ==> size < Pow1024(k + 1))
    decreases cap
  {
    if size >= 1024.0 && cap > 0 {
      UnitBounds(size / 1024.0, cap - 1);
      ScaleBound(size, Divisions(size / 1024.0, cap - 1));
    } else {
      assert Pow1024(1) == 1024.0;
    }
  }

  /** Between 1024^k and 1024^(k+1) bytes the value scaled by 1024^k lies between 1 and 1024. */
  lemma ScaledBounds(size: real, k: nat)
    ensures Pow1024(k) <= size ==> size / Pow1024(k) >= 1.0
    ensures size < Pow1024(k + 1) ==> size / Pow1024(k) < 1024.0
  {
    var p := Pow1024(k);
    if p <= size {
      assert size / p >= p / p;
    }
    assert Pow1024(k + 1) == 1024.0 * p;
    if size < 1024.0 * p {
      assert size / p < 1024.0 * p / p;
    }
  }

  lemma ScaleBound(size: real, j: nat)
    ensures (Pow1024(j) <= size / 1024.0) == (Pow1024(j + 1) <= size)
    ensures (size / 1024.0 < Pow1024(j + 1)) == (size < Pow1024(j + 2))
  {
    assert Pow1024(j + 1) == 1024.0 * Pow1024(j);
    assert Pow1024(j + 2) == 1024.0 * Pow1024(j + 1);
  }

  // ---------------------------------------------------------------------------
  // format_time

  /** What `format_time` shows: seconds, minutes and seconds, or hours, minutes and seconds. */
  datatype Duration = Seconds(s: real) | MinutesSeconds(m: int, s: real) | HoursMinutesSeconds(h: int, m: int, s: real)

  /** `format_time`: the unit is chosen at 60 and 3600 seconds. */
  function FormatTime(seconds: real): (r: Duration)
    ensures seconds < 60.0 <==> r.Seconds?
    ensures 60.0 <= seconds < 3600.0 <==> r.MinutesSeconds?
    ensures seconds < 60.0 ==> r == Seconds(seconds)
  {
    if seconds < 60.0 then Seconds(seconds)
    else if seconds < 3600.0 then MinutesSeconds(PyTrunc(seconds / 60.0), PyMod(seconds, 60.0))
    else HoursMinutesSeconds(PyTrunc(seconds / 3600.0), PyTrunc(PyMod(seconds, 3600.0) / 60.0), PyMod(seconds, 60.0))
  }

  /** The parts add back up to the duration, each below its unit's limit. */
  lemma FormatTimeParts(seconds: real)
    ensures FormatTime(seconds).MinutesSeconds? ==>
              var r := FormatTime(seconds);
              1 <= r.m < 60 && 0.0 <= r.s < 60.0 && r.m as real * 60.0 + r.s == seconds
    ensures FormatTime(seconds).HoursMinutesSeconds? ==>
              var r := FormatTime(seconds);
              1 <= r.h && 0 <= r.m < 60 && 0.0 <= r.s < 60.0
              && r.h as real * 3600.0 + r.m as real * 60.0 + r.s == seconds
  {
    if 60.0 <= seconds < 3600.0 {
      var m := PyTrunc(seconds / 60.0);
      TruncIsFloorDiv(seconds, 60.0);
      assert m == PyFloorDiv(seconds, 60.0);
      var q := PyFloorDiv(seconds, 60.0);
      assert q as real * 60.0 < 3600.0;
      assert 60.0 < (q as real + 1.0) * 60.0;
    } else if seconds >= 3600.0 {
      TruncIsFloorDiv(seconds, 3600.0);
      var h := PyFloorDiv(seconds, 3600.0);
      var rest := PyMod(seconds, 3600.0);
      TruncIsFloorDiv(rest, 60.0);
      var m := PyFloorDiv(rest, 60.0);
      var s := PyMod(rest, 60.0);
      assert 3600.0 < (h as real + 1.0) * 3600.0;
      assert m as real * 60.0 < 3600.0;
      ModOfMod(seconds, h, m);
    }
  }

  lemma TruncIsFloorDiv(x: real, m: real)
    requires m > 0.0 && x >= 0.0
    ensures PyTrunc(x / m) == PyFloorDiv(x, m)
  {
    assert x / m >= 0.0;
  }

  /** The seconds of a long duration are the remainder of its remainder below an hour. */
  lemma ModOfMod(x: real, h: int, m: int)
    requires h == PyFloorDiv(x, 3600.0) && m == PyFloorDiv(PyMod(x, 3600.0), 60.0)
    ensures PyMod(x, 60.0) == PyMod(PyMod(x, 3600.0), 60.0)
  {
    var rest := PyMod(x, 3600.0);
    var s := PyMod(rest, 60.0);
    assert x == (h * 60 + m) as real * 60.0 + s;
    ModUnique(x, 60.0, h * 60 + m, s);
  }

  /** The quotient and remainder are the only pair with the remainder in range. */
  lemma ModUnique(x: real, d: real, q: int, r: real)
    requires d > 0.0 && 0.0 <= r < d && x == q as real * d + r
    ensures PyFloorDiv(x, d) == q && PyMod(x, d) == r
  {
    var q' := PyFloorDiv(x, d);
    QuotientAtLeast(x, d, q, r, q');
    QuotientAtMost(x, d, q, r, q');
  }

  lemma QuotientAtLeast(x: real, d: real, q: int, r: real, q': int)
    requires d > 0.0 && 0.0 <= r < d && x == q as real * d + r
    requires q' as real * d <= x < (q' as real + 1.0) * d
    ensures q' >= q
  {
    var lo, hi := q' as real + 1.0, q as real;
    MulBelow(lo, hi, d);
    assert q' < q ==> lo <= hi;
    assert hi * d <= x < lo * d;
  }

  lemma QuotientAtMost(x: real, d: real, q: int, r: real, q': int)
    requires d > 0.0 && 0.0 <= r < d && x == q as real * d + r
    requires q' as real * d <= x < (q' as real + 1.0) * d
    ensures q' <= q
  {
    var lo, hi := q as real + 1.0, q' as real;
    MulBelow(lo, hi, d);
    assert lo * d == q as real * d + d;
  }

  // ---------------------------------------------------------------------------
  // calculate_line_length / calculate_polyline_length

  /** A 2-D point. */
  type Point2 = (real, real)

  /** A real product, kept behind a function so that squares are reasoned about by sign. */
  function Mul(a: real, b: real): real
  {
    a * b
  }

  lemma MulSign(a: real, b: real)
    ensures a > 0.0 && b > 0.0 ==> Mul(a, b) > 0.0
    ensures a < 0.0 && b < 0.0 ==> Mul(a, b) > 0.0
    ensures a == 0.0 || b == 0.0 ==> Mul(a, b) == 0.0
  {
  }

  /** `x ** 2`: never negative, and zero exactly at zero. */
  function Square(x: real): (s: real)
    ensures s >= 0.0
    ensures s == 0.0 <==> x == 0.0
  {
    MulSign(x, x);
    Mul(x, x)
  }

  /** The square root the module calls; only its defining property is assumed of it. */
  ghost predicate IsSqrt(sqrt: real -> real)
  {
    forall x :: x >= 0.0 ==> sqrt(x) >= 0.0 && Square(sqrt(x)) == x
  }

  /** The sum of the squared coordinate differences; zero exactly when the points coincide. */
  function SquaredDistance(p: Point2, q: Point2): (d: real)
    ensures d >= 0.0
    ensures d == 0.0 <==> p == q
  {
    Square(q.0 - p.0) + Square(q.1 - p.1)
  }

  /** `calculate_line_length`: the Euclidean distance of two 2-D points. */
  function LineLength(sqrt: real -> real, p: Point2, q: Point2): (d: real)
    requires IsSqrt(sqrt)
    ensures d >= 0.0 && Square(d) == SquaredDistance(p, q)
    ensures d == 0.0 <==> p == q
  {
    sqrt(SquaredDistance(p, q))
  }

  /** The distance does not depend on the direction. */
  lemma LineLengthSymmetric(sqrt: real -> real, p: Point2, q: Point2)
    requires IsSqrt(sqrt)
    ensures LineLength(sqrt, p, q) == LineLength(sqrt, q, p)
  {
    assert SquaredDistance(p, q) == SquaredDistance(q, p);
  }

  /** The sum of the distances between consecutive points. */
  function PolylineLength(sqrt: real -> real, pts: seq<Point2>): (d: real)
    requires IsSqrt(sqrt)
    ensures d >= 0.0
    ensures |pts| < 2 ==> d == 0.0
  {
    if |pts| < 2 then 0.0
    else PolylineLength(sqrt, pts[..|pts| - 1]) + LineLength(sqrt, pts[|pts| - 2], pts[|pts| - 1])
  }

  /** `calculate_polyline_length`: accumulates the segment lengths in order. */
  method CalculatePolylineLength(sqrt: real -> real, points: seq<Point2>) returns (total: real)
    requires IsSqrt(sqrt)
    ensures total == PolylineLength(sqrt, points)
  {
    total := 0.0;
    var i := 0;
    while i < |points| - 1
      invariant 0 <= i && (|points| == 0 || i <= |points| - 1)
      invariant |points| == 0 ==> total == 0.0
      invariant |points| > 0 ==> total == PolylineLength(sqrt, points[..i + 1])
    {
      assert points[..i + 2][..i + 1] == points[..i + 1];
      total := total + LineLength(sqrt, points[i], points[i + 1]);
      i := i + 1;
    }
    if |points| > 0 {
      assert points[..i + 1] == points;
    }
  }

  /** Walking the points backwards gives the same length. */
  lemma {:induction false} PolylineReversed(sqrt: real -> real, pts: seq<Point2>)
    requires IsSqrt(sqrt)
    ensures PolylineLength(sqrt, Reverse(pts)) == PolylineLength(sqrt, pts)
    decreases |pts|
  {
    if |pts| >= 2 {
      var front := pts[..|pts| - 1];
      PolylineReversed(sqrt, front);
      PolylineFront(sqrt, Reverse(pts));
      assert Reverse(pts)[1..] == Reverse(front);
      assert Reverse(pts)[0] == pts[|pts| - 1] && Reverse(pts)[1] == pts[|pts| - 2];
      LineLengthSymmetric(sqrt, pts[|pts| - 2], pts[|pts| - 1]);
    }
  }

  function Reverse<T>(s: seq<T>): (r: seq<T>)
    ensures |r| == |s| && forall i :: 0 <= i < |s| ==> r[i] == s[|s| - 1 - i]
  {
    if s == [] then [] else [s[|s| - 1]] + Reverse(s[..|s| - 1])
  }

  /** Peeling the first segment instead of the last. */
  lemma {:induction false} PolylineFront(sqrt: real -> real, pts: seq<Point2>)
    requires IsSqrt(sqrt) && |pts| >= 2
    ensures PolylineLength(sqrt, pts) == LineLength(sqrt, pts[0], pts[1]) + PolylineLength(sqrt, pts[1..])
    decreases |pts|
  {
    if |pts| > 2 {
      var front := pts[..|pts| - 1];
      PolylineFront(sqrt, front);
      assert front[1..] == pts[1..][..|pts[1..]| - 1];
    } else {
      assert pts[..1] == [pts[0]];
    }
  }

  // ---------------------------------------------------------------------------
  // create_progress_tracker / update_progress

  /** What `update_progress` reports; the elapsed time is shown through `format_time`. */
  datatype Progress = Progress(step: int, total: int, percentage: real, elapsed: Duration, detail: string)

  /** The tracker dictionary: current step, total, start time and the step descriptions. */
  class ProgressTracker {
    var currentStep: int
    var totalSteps: int
    var startTime: real
    var descriptions: map<int, string>

    /** `create_progress_tracker`, with the clock reading passed in. */
    constructor (total: int, now: real)
      ensures currentStep == 0 && totalSteps == total && startTime == now && descriptions == map[]
    {
      currentStep := 0;
      totalSteps := total;
      startTime := now;
      descriptions := map[];
    }

    /**
     * `update_progress`: takes the given step, records a non-empty detail
     * under the current step, then reports; a total of zero raises
     * after the tracker has been updated.
     */
    method UpdateProgress(step: Option<int>, detail: string, now: real) returns (r: Outcome<Progress>)
      modifies this
      ensures currentStep == (if step.Some? then step.value else old(currentStep))
      ensures totalSteps == old(totalSteps) && startTime == old(startTime)
      ensures descriptions == if detail != [] then old(descriptions)[currentStep := detail] else old(descriptions)
      ensures r.Raises? <==> totalSteps == 0
      ensures r.Raises? ==> r.error == ZeroDivisionError
      ensures r.Ok? ==> r.value == Report(currentStep, totalSteps, now - startTime, descriptions)
    {
      if step.Some? {
        currentStep := step.value;
      }
      if detail != [] {
        descriptions := descriptions[currentStep := detail];
      }
      var elapsed := now - startTime;
      if totalSteps == 0 {
        return Raises(ZeroDivisionError);
      }
      r := Ok(Report(currentStep, totalSteps, elapsed, descriptions));
    }
  }

  /** The report for a tracker state with a non-zero total. */
  function Report(current: int, total: int, elapsed: real, descriptions: map<int, string>): (p: Progress)
    requires total != 0
    ensures p.step == current && p.total == total
    ensures p.percentage * total as real == current as real * 100.0
    ensures p.detail == if current in descriptions then descriptions[current] else ""
  {
    var pct := current as real / total as real * 100.0;
    Progress(current, total, pct, FormatTime(elapsed),
             if current in descriptions then descriptions[current] else "")
  }

  /** A finished run reports 100 percent, a fresh one 0 percent. */
  lemma ReportBounds(current: int, total: int, elapsed: real, descriptions: map<int, string>)
    requires total > 0 && 0 <= current <= total
    ensures 0.0 <= Report(current, total, elapsed, descriptions).percentage <= 100.0
    ensures current == total ==> Report(current, total, elapsed, descriptions).percentage == 100.0
    ensures current == 0 ==> Report(current, total, elapsed, descriptions).percentage == 0.0
  {
    var p := Report(current, total, elapsed, descriptions).percentage;
    assert p * total as real == current as real * 100.0;
    MulBelow(p, 0.0, total as real);
    MulBelow(100.0, p, total as real);
  }
}
