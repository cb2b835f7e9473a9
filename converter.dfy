// The stand-alone converter of test.py: the free-form call-out reader
// `extract_rebar_info`, its grade, length and weight helpers, the ASCII
// fallback sketch, the diagram dispatch and the size and time formatters.
// Widgets, logging and the Excel workflow of that file are not modelled.

module Converter {
  import opened Common
  import opened Dict
  import Pattern
  import DxfParser
  import Helpers
  import BaseProcessor

  // ---------------------------------------------------------------------------
  // `re.search`: the leftmost start position at which a pattern matches

  /** The patterns `extract_rebar_info` searches for. */
  datatype Search = Marker(c: char) | CountSep | Millimetres | LengthCount

  /** Whether the pattern matches when anchored at position `j`. */
  predicate Hit(p: Search, text: string, j: nat)
  {
    match p
    case Marker(c) => MarkerAt(c, text, j)
    case CountSep => CountAt(text, j)
    case Millimetres => MmAt(text, j).Some?
    case LengthCount => LengthCountAt(text, j).Some?
  }

  /** `re.search`: the first position in `[i, |text|)` where the pattern matches, if any. */
  function FirstHit(p: Search, text: string, i: nat): (r: Option<nat>)
    ensures r.Some? ==> i <= r.value < |text| && Hit(p, text, r.value)
                        && forall k :: i <= k < r.value ==> !Hit(p, text, k)
    ensures r.None? ==> forall k :: i <= k < |text| ==> !Hit(p, text, k)
    decreases |text| - i
  {
    if i >= |text| then None else if Hit(p, text, i) then Some(i) else FirstHit(p, text, i + 1)
  }

  /** The digit run that starts just after position `j`. */
  function RunAfter(text: string, j: nat): (d: string)
    requires j < |text|
    ensures |d| <= |text| - j - 1 && AllDigits(d) && d == text[j + 1..][..|d|]
    ensures j + 1 < |text| && IsDigit(text[j + 1]) ==> d != []
  {
    var k := Pattern.RunLen(Pattern.Digits, text[j + 1..]);
    text[j + 1..][..k]
  }

  /** `c\d`: the marker character `c` followed by a digit starts at `j`. */
  predicate MarkerAt(c: char, text: string, j: nat)
  {
    j + 1 < |text| && text[j] == c && IsDigit(text[j + 1])
  }

  /** `re.search(c + r'(\d+)', text)`: the digits after the first marker `c` that has any. */
  function SearchMarker(c: char, text: string): (r: Option<string>)
    ensures r.Some? ==> r.value != [] && AllDigits(r.value)
    ensures r.None? <==> forall j :: 0 <= j < |text| ==> !Hit(Marker(c), text, j)
  {
    match FirstHit(Marker(c), text, 0)
    case Some(j) => Some(RunAfter(text, j))
    case None => None
  }

  /** The separators of `[xX×*-]`. */
  predicate IsCountSep(c: char)
  {
    c == 'x' || c == 'X' || c == '×' || c == '*' || c == '-'
  }

  predicate CountAt(text: string, j: nat)
  {
    j + 1 < |text| && IsCountSep(text[j]) && IsDigit(text[j + 1])
  }

  /** `re.search(r'[xX×*-](\d+)', text)`: the digits after the first separator that has any. */
  function SearchCount(text: string): (r: Option<string>)
    ensures r.Some? ==> r.value != [] && AllDigits(r.value)
    ensures r.None? <==> forall j :: 0 <= j < |text| ==> !Hit(CountSep, text, j)
  {
    match FirstHit(CountSep, text, 0)
    case Some(j) => Some(RunAfter(text, j))
    case None => None
  }

  // ---------------------------------------------------------------------------
  // `(\d+(?:\.\d+)?)\s*mm`

  /** `\s*mm` at the start of `s`. */
  predicate MmTail(s: string)
  {
    var t := StripLeft(s);
    |t| >= 2 && t[0] == 'm' && t[1] == 'm'
  }

  /**
   * The pattern anchored at `j`: the integer digits and the (possibly empty)
   * fraction digits of the number before `mm`. The fraction is taken when
   * the text after it continues with `mm`; otherwise the integer alone is
   * tried. Giving back digits cannot help, since a digit is neither '.',
   * whitespace nor 'm'.
   */
  function MmAt(text: string, j: nat): (r: Option<(string, string)>)
    ensures r.Some? ==> r.value.0 != [] && AllDigits(r.value.0) && AllDigits(r.value.1)
  {
    if j >= |text| || !IsDigit(text[j]) then None
    else
      var k := Pattern.RunLen(Pattern.Digits, text[j..]);
      var e := j + k;
      var whole := text[j..e];
      assert whole == text[j..][..k];
      if e + 1 < |text| && text[e] == '.' && IsDigit(text[e + 1])
         && MmTail(text[e + 1 + Pattern.RunLen(Pattern.Digits, text[e + 1..])..]) then
        var f := Pattern.RunLen(Pattern.Digits, text[e + 1..]);
        Some((whole, text[e + 1..][..f]))
      else if MmTail(text[e..]) then Some((whole, ""))
      else None
  }

  /** `re.search(r'(\d+(?:\.\d+)?)\s*mm', text)` and `float` of its group. */
  function SearchMm(text: string): (r: Option<real>)
    ensures r.None? <==> forall j :: 0 <= j < |text| ==> !Hit(Millimetres, text, j)
  {
    match FirstHit(Millimetres, text, 0)
    case Some(j) => Some(DecimalValue(MmAt(text, j).value.0, MmAt(text, j).value.1))
    case None => None
  }

  // ---------------------------------------------------------------------------
  // `[#D]?\d+[-_](\d+(?:\+\d+)*)[xX×*-](\d+)`

  predicate DigitTokens(toks: seq<string>)
  {
    forall i :: 0 <= i < |toks| ==> toks[i] != [] && AllDigits(toks[i])
  }

  /**
   * The group `\d+(?:\+\d+)*`: '+'-separated digit runs, each as long as
   * possible, and the text left after the last one.
   */
  function ScanDigits(s: string): (r: Option<(seq<string>, string)>)
    ensures r.Some? <==> s != [] && IsDigit(s[0])
    ensures r.Some? ==> r.value.0 != [] && DigitTokens(r.value.0)
                        && s == DxfParser.JoinPlus(r.value.0) + r.value.1
    decreases |s|
  {
    var k := Pattern.RunLen(Pattern.Digits, s);
    if k == 0 then None
    else
      var tok := s[..k];
      var rest := s[k..];
      assert s == tok + rest;
      if rest != [] && rest[0] == '+' then
        match ScanDigits(rest[1..])
        case Some((ts, r)) =>
          ScanDigitsStep(s, tok, rest, ts, r);
          Some(([tok] + ts, r))
        case None => Some(([tok], rest))
      else Some(([tok], rest))
  }

  lemma ScanDigitsStep(s: string, tok: string, rest: string, ts: seq<string>, r: string)
    requires tok != [] && AllDigits(tok) && s == tok + rest && rest != [] && rest[0] == '+'
    requires ts != [] && DigitTokens(ts) && rest[1..] == DxfParser.JoinPlus(ts) + r
    ensures [tok] + ts != [] && DigitTokens([tok] + ts) && s == DxfParser.JoinPlus([tok] + ts) + r
  {
    assert ([tok] + ts)[1..] == ts;
    assert DxfParser.JoinPlus([tok] + ts) == tok + "+" + DxfParser.JoinPlus(ts);
    assert rest == "+" + rest[1..];
    assert forall i :: 1 <= i < |[tok] + ts| ==> ([tok] + ts)[i] == ts[i - 1];
  }

  /** The pattern anchored at `j`: the length tokens and the count digits. */
  function LengthCountAt(text: string, j: nat): (r: Option<(seq<string>, string)>)
    ensures r.Some? ==> r.value.0 != [] && DigitTokens(r.value.0) && r.value.1 != [] && AllDigits(r.value.1)
  {
    if j >= |text| then None
    else
      var p := if text[j] == '#' || text[j] == 'D' then j + 1 else j;
      var k := Pattern.RunLen(Pattern.Digits, text[p..]);
      if k == 0 || p + k >= |text| || !(text[p + k] == '-' || text[p + k] == '_') then None
      else
        match ScanDigits(text[p + k + 1..])
        case None => None
        case Some((toks, rest)) =>
          if rest == [] || !IsCountSep(rest[0]) then None
          else
            var c := Pattern.RunLen(Pattern.Digits, rest[1..]);
            if c == 0 then None else Some((toks, rest[1..][..c]))
  }

  function SearchLengthCount(text: string): (r: Option<(seq<string>, string)>)
    ensures r.Some? ==> r.value.0 != [] && DigitTokens(r.value.0) && r.value.1 != [] && AllDigits(r.value.1)
    ensures r.None? <==> forall j :: 0 <= j < |text| ==> !Hit(LengthCount, text, j)
  {
    match FirstHit(LengthCount, text, 0)
    case Some(j) => LengthCountAt(text, j)
    case None => None
  }

  /** `[float(part) for part in parts]` on digit tokens. */
  function Values(toks: seq<string>): (vs: seq<real>)
    requires DigitTokens(toks)
    ensures |vs| == |toks| && forall i :: 0 <= i < |toks| ==> vs[i] == DigitsValue(toks[i]) as real
  {
    if toks == [] then [] else [DigitsValue(toks[0]) as real] + Values(toks[1..])
  }

  // ---------------------------------------------------------------------------
  // The designation lookup by nominal size

  /** The converter's `rebar_unit_weight` table (kg/m), in its insertion order. */
  predicate IsUnitWeightTable(t: Entries<string, real>)
  {
    |t| == 17
    && t[0] == ("#2", 0.249)
    && t[1] == ("#3", 0.561)
    && t[2] == ("#4", 0.996)
    && t[3] == ("#5", 1.552)
    && t[4] == ("#6", 2.235)
    && t[5] == ("#7", 3.042)
    && t[6] == ("#8", 3.973)
    && t[7] == ("#9", 5.026)
    && t[8] == ("#10", 6.404)
    && t[9] == ("#11", 7.906)
    && t[10] == ("#12", 11.38)
    && t[11] == ("#13", 13.87)
    && t[12] == ("#14", 14.59)
    && t[13] == ("#15", 20.24)
    && t[14] == ("#16", 25.00)
    && t[15] == ("#17", 31.20)
    && t[16] == ("#18", 39.70)
  }

  /**
   * The nominal diameters (mm) that the comments of that table pair with
   * the standard numbers `#2` to `#14`: the table the `D` lookup is meant
   * to search.
   */
  predicate IsNominalDiameterTable(t: Entries<string, real>)
  {
    |t| == 13
    && t[0] == ("#2", 6.0)
    && t[1] == ("#3", 10.0)
    && t[2] == ("#4", 13.0)
    && t[3] == ("#5", 16.0)
    && t[4] == ("#6", 19.0)
    && t[5] == ("#7", 22.0)
    && t[6] == ("#8", 25.0)
    && t[7] == ("#9", 29.0)
    && t[8] == ("#10", 32.0)
    && t[9] == ("#11", 36.0)
    && t[10] == ("#12", 43.0)
    && t[11] == ("#13", 50.0)
    && t[12] == ("#14", 57.0)
  }

  predicate Near(v: real, x: real)
  {
    Abs(v - x) < 0.1
  }

  /** The key of the first entry whose value lies within 0.1 of `x`. */
  function NearKey(table: Entries<string, real>, x: real): (r: Option<string>)
    ensures r.Some? ==> exists i :: 0 <= i < |table| && table[i].0 == r.value && Near(table[i].1, x)
                                    && forall j :: 0 <= j < i ==> !Near(table[j].1, x)
    ensures r.None? <==> forall i :: 0 <= i < |table| ==> !Near(table[i].1, x)
  {
    if table == [] then None
    else if Near(table[0].1, x) then Some(table[0].0)
    else
      var r := NearKey(table[1..], x);
      assert forall i :: 1 <= i < |table| ==> table[i] == table[1..][i - 1];
      if r.Some? then
        var i :| 0 <= i < |table[1..]| && table[1..][i].0 == r.value && Near(table[1..][i].1, x)
                 && forall j :: 0 <= j < i ==> !Near(table[1..][j].1, x);
        assert table[i + 1].0 == r.value && Near(table[i + 1].1, x);
        assert forall j :: 0 <= j < i + 1 ==> !Near(table[j].1, x);
        r
      else r
  }

  /** The `for num, dia in ...items()` loop with its `break`. */
  method FirstNear(table: Entries<string, real>, x: real) returns (r: Option<string>)
    ensures r == NearKey(table, x)
  {
    var i := 0;
    while i < |table|
      invariant 0 <= i <= |table|
      invariant NearKey(table[i..], x) == NearKey(table, x)
    {
      if Near(table[i].1, x) {
        return Some(table[i].0);
      }
      assert table[i..][1..] == table[i + 1..];
      i := i + 1;
    }
    return None;
  }

  function OrEmpty(r: Option<string>): string
  {
    if r.Some? then r.value else ""
  }

  /**
   * The designation: '#' and the digits of the first `#\d+`; failing that,
   * the first table key near the number of the first `D\d+`; failing that,
   * the first key near the number before the first `mm`.
   */
  function NumberOf(table: Entries<string, real>, text: string): string
  {
    var hash := SearchMarker('#', text);
    var n1 := if hash.Some? then "#" + hash.value else "";
    var d := SearchMarker('D', text);
    var n2 := if n1 == [] && d.Some? then OrEmpty(NearKey(table, DigitsValue(d.value) as real)) else n1;
    var mm := SearchMm(text);
    if n2 == [] && mm.Some? then OrEmpty(NearKey(table, mm.value)) else n2
  }

  // ---------------------------------------------------------------------------
  // extract_rebar_info

  /** The tuple `(number, count, length, segments)`, or the all-None tuple for empty text. */
  datatype RebarInfo = NoText | Info(number: string, count: nat, length: Option<real>, segments: seq<real>)

  /** The count, total length and segments of a text: see `CountLengthOf`. */
  datatype Amounts = Amounts(count: nat, length: Option<real>, segments: seq<real>)

  /**
   * From the first `[#D]?\d+[-_]L1+...+Lk[xX×*-]C`: the lengths, their sum and
   * C; failing that, the digits after the first `[xX×*-]` as the count,
   * or 1, with no length and no segments.
   */
  function AmountsOf(text: string): Amounts
  {
    match SearchLengthCount(text)
    case Some((toks, c)) =>
      var segments := Values(toks);
      Amounts(DigitsValue(c), Some(SumReals(segments)), segments)
    case None =>
      var cm := SearchCount(text);
      Amounts(if cm.Some? then DigitsValue(cm.value) else 1, None, [])
  }

  function RebarInfoOf(table: Entries<string, real>, text: string): RebarInfo
  {
    if text == [] then NoText
    else
      var a := AmountsOf(text);
      Info(NumberOf(table, text), a.count, a.length, a.segments)
  }

  /**
   * `extract_rebar_info`: reassigns its locals through the designation
   * searches, the table scans and the length/count searches. The `except`
   * branches cannot be taken: both groups are digit strings, so `float`
   * and `int` succeed.
   */
  method ExtractRebarInfo(table: Entries<string, real>, text: string) returns (r: RebarInfo)
    ensures r == RebarInfoOf(table, text)
  {
    if text == [] {
      return NoText;
    }
    var number := FindNumber(table, text);
    var count := 1;
    var length: Option<real> := None;
    var segments: seq<real> := [];
    var lc := SearchLengthCount(text);
    if lc.Some? {
      segments := Values(lc.value.0);
      length := Some(SumReals(segments));
      count := DigitsValue(lc.value.1);
    } else {
      var cm := SearchCount(text);
      if cm.Some? {
        count := DigitsValue(cm.value);
      }
    }
    return Info(number, count, length, segments);
  }

  /** The designation part of `extract_rebar_info`. */
  method FindNumber(table: Entries<string, real>, text: string) returns (number: string)
    ensures number == NumberOf(table, text)
  {
    number := "";
    var m := SearchMarker('#', text);
    if m.Some? {
      number := "#" + m.value;
    }
    if number == [] {
      var d := SearchMarker('D', text);
      if d.Some? {
        var near := FirstNear(table, DigitsValue(d.value) as real);
        if near.Some? {
          number := near.value;
        }
      }
    }
    if number == [] {
      var mm := SearchMm(text);
      if mm.Some? {
        var near := FirstNear(table, mm.value);
        if near.Some? {
          number := near.value;
        }
      }
    }
  }

  /** Empty text gives the all-None tuple; any other text a designation (possibly "") and a count. */
  lemma EmptyText(table: Entries<string, real>, text: string)
    ensures RebarInfoOf(table, text).NoText? <==> text == []
  {
  }

  /** The call-out `#n-L1+...+Lkxc`. */
  function Callout(n: string, toks: seq<string>, c: string): string
    requires toks != []
  {
    "#" + n + "-" + DxfParser.JoinPlus(toks) + "x" + c
  }

  /**
   * Round trip: a call-out built from a designation, length tokens and a
   * count is read back as that designation, those lengths, their sum and
   * that count.
   */
  lemma CalloutRoundTrip(table: Entries<string, real>, n: string, toks: seq<string>, c: string)
    requires n != [] && AllDigits(n) && toks != [] && DigitTokens(toks) && c != [] && AllDigits(c)
    ensures RebarInfoOf(table, Callout(n, toks, c))
            == Info("#" + n, DigitsValue(c), Some(SumReals(Values(toks))), Values(toks))
  {
    CalloutNumber(table, n, toks, c);
    CalloutAmounts(n, toks, c);
  }

  lemma CalloutNumber(table: Entries<string, real>, n: string, toks: seq<string>, c: string)
    requires n != [] && AllDigits(n) && toks != []
    ensures NumberOf(table, Callout(n, toks, c)) == "#" + n
  {
    var text := Callout(n, toks, c);
    var body := DxfParser.JoinPlus(toks) + "x" + c;
    assert text == "#" + (n + ("-" + body));
    assert text[1..] == n + ("-" + body);
    Pattern.RunLenExact(Pattern.Digits, n, "-" + body);
    assert Hit(Marker('#'), text, 0);
    assert RunAfter(text, 0) == n;
  }

  lemma CalloutAmounts(n: string, toks: seq<string>, c: string)
    requires n != [] && AllDigits(n) && toks != [] && DigitTokens(toks) && c != [] && AllDigits(c)
    ensures AmountsOf(Callout(n, toks, c)) == Amounts(DigitsValue(c), Some(SumReals(Values(toks))), Values(toks))
  {
    var text := Callout(n, toks, c);
    var body := DxfParser.JoinPlus(toks) + ("x" + c);
    CalloutShape(n, toks, c);
    DxfParser.MarkSlices(text, n, body);
    Pattern.RunLenExact(Pattern.Digits, n, "-" + body);
    ScanJoinDigits(toks, "x" + c);
    CountTail(c);
    LengthCountAtParts(text, |n|, toks, "x" + c, |c|);
    FirstLengthCount(text);
  }

  /** The call-out is its pieces concatenated from the right. */
  lemma CalloutShape(n: string, toks: seq<string>, c: string)
    requires toks != []
    ensures Callout(n, toks, c) == "#" + (n + ("-" + (DxfParser.JoinPlus(toks) + ("x" + c))))
  {
  }

  /** After the 'x', the count digits run to the end. */
  lemma CountTail(c: string)
    requires c != [] && AllDigits(c)
    ensures ("x" + c)[0] == 'x' && ("x" + c)[1..] == c
    ensures Pattern.RunLen(Pattern.Digits, c) == |c| && c[..|c|] == c
  {
    assert ("x" + c)[1..] == c;
    Pattern.RunLenExact(Pattern.Digits, c, []);
    assert c + [] == c;
  }

  /** The length-and-count group at a '#', read off the pieces it is computed from. */
  lemma LengthCountAtParts(text: string, k: nat, toks: seq<string>, rest: string, m: nat)
    requires |text| > 0 && text[0] == '#' && Pattern.RunLen(Pattern.Digits, text[1..]) == k && 0 < k
    requires 1 + k < |text| && text[1 + k] == '-' && ScanDigits(text[1 + k + 1..]) == Some((toks, rest))
    requires rest != [] && IsCountSep(rest[0]) && Pattern.RunLen(Pattern.Digits, rest[1..]) == m && m > 0
    ensures LengthCountAt(text, 0) == Some((toks, rest[1..][..m]))
  {
  }

  /** A group found at the first position is the one the search gives. */
  lemma FirstLengthCount(text: string)
    requires LengthCountAt(text, 0).Some?
    ensures SearchLengthCount(text) == LengthCountAt(text, 0)
  {
    assert Hit(LengthCount, text, 0);
  }

  lemma {:induction false} ScanJoinDigits(toks: seq<string>, rest: string)
    requires toks != [] && DigitTokens(toks)
    requires rest == [] || (!IsDigit(rest[0]) && rest[0] != '+')
    ensures ScanDigits(DxfParser.JoinPlus(toks) + rest) == Some((toks, rest))
  {
    if |toks| == 1 {
      ScanDigitsLast(toks, rest);
    } else {
      ScanJoinDigits(toks[1..], rest);
      DxfParser.JoinPlusCons(toks, rest);
      ScanDigitsPlus(toks[0], DxfParser.JoinPlus(toks[1..]) + rest, toks[1..], rest);
    }
  }

  /** A single number followed by a stop is scanned as that number. */
  lemma ScanDigitsLast(toks: seq<string>, rest: string)
    requires |toks| == 1 && DigitTokens(toks)
    requires rest == [] || (!IsDigit(rest[0]) && rest[0] != '+')
    ensures ScanDigits(DxfParser.JoinPlus(toks) + rest) == Some((toks, rest))
  {
    var s := DxfParser.JoinPlus(toks) + rest;
    assert s == toks[0] + rest;
    Pattern.RunLenExact(Pattern.Digits, toks[0], rest);
    assert s[..|toks[0]|] == toks[0] && s[|toks[0]|..] == rest;
    assert [toks[0]] == toks;
  }

  /** A number, a '+' and a text that scans to `ts` scan to the number followed by `ts`. */
  lemma ScanDigitsPlus(tok: string, tail: string, ts: seq<string>, r: string)
    requires tok != [] && AllDigits(tok) && ScanDigits(tail) == Some((ts, r))
    ensures ScanDigits(tok + ("+" + tail)) == Some(([tok] + ts, r))
  {
    var s := tok + ("+" + tail);
    Pattern.RunLenExact(Pattern.Digits, tok, "+" + tail);
    assert s[..|tok|] == tok && s[|tok|..] == "+" + tail;
    assert ("+" + tail)[1..] == tail;
  }

  /** Text without '-' and '_' has no length-and-count group. */
  lemma NoLengthCount(text: string)
    requires forall j :: 0 <= j < |text| ==> text[j] != '-' && text[j] != '_'
    ensures SearchLengthCount(text).None?
  {
    forall j | 0 <= j < |text| ensures !Hit(LengthCount, text, j) {
      var p := if text[j] == '#' || text[j] == 'D' then j + 1 else j;
      var k := Pattern.RunLen(Pattern.Digits, text[p..]);
      if k > 0 && p + k < |text| {
        assert text[p + k] != '-' && text[p + k] != '_';
      }
    }
  }

  /**
   * Without lengths, the count is the number after the first separator:
   * `#nxc` is c bars of unknown length and no segments.
   */
  lemma CountOnlyCallout(n: string, c: string)
    requires n != [] && AllDigits(n) && c != [] && AllDigits(c)
    ensures AmountsOf("#" + n + "x" + c) == Amounts(DigitsValue(c), None, [])
  {
    var text := "#" + n + "x" + c;
    CountOnlyShape(n, c);
    NoLengthCount(text);
    CountOnlyFirst(text, |n|);
    CountTail(c);
    assert RunAfter(text, 1 + |n|) == c;
  }

  /** Where the pieces of `#nxc` sit. */
  lemma CountOnlyShape(n: string, c: string)
    requires n != [] && AllDigits(n) && c != [] && AllDigits(c)
    ensures var text := "#" + n + "x" + c;
            |text| == 2 + |n| + |c| && text[0] == '#' && text[1 + |n|] == 'x' && text[2 + |n|..] == c
            && (forall j :: 1 <= j < 1 + |n| ==> IsDigit(text[j]))
            && (forall j :: 2 + |n| <= j < |text| ==> IsDigit(text[j]))
  {
    var text := "#" + n + "x" + c;
    assert text == "#" + n + ("x" + c);
    assert forall j :: 1 <= j < 1 + |n| ==> text[j] == n[j - 1];
    assert forall j :: 2 + |n| <= j < |text| ==> text[j] == c[j - 2 - |n|];
  }

  /** In `#nxc` the first separator followed by a digit is the 'x'. */
  lemma CountOnlyFirst(text: string, k: nat)
    requires 2 + k < |text| && text[0] == '#' && text[1 + k] == 'x' && IsDigit(text[2 + k])
    requires forall j :: 1 <= j < 1 + k ==> IsDigit(text[j])
    ensures FirstHit(CountSep, text, 0) == Some(1 + k)
  {
    assert !Hit(CountSep, text, 0);
    assert forall j :: 1 <= j < 1 + k ==> !Hit(CountSep, text, j);
    assert Hit(CountSep, text, 1 + k);
    FirstHitAt(CountSep, text, 0, 1 + k);
  }

  /** The first hit from `i` is the position `h` when `h` hits and nothing in `[i, h)` does. */
  lemma {:induction false} FirstHitAt(p: Search, text: string, i: nat, h: nat)
    requires i <= h < |text| && Hit(p, text, h) && forall j :: i <= j < h ==> !Hit(p, text, j)
    ensures FirstHit(p, text, i) == Some(h)
    decreases h - i
  {
    if i < h {
      FirstHitAt(p, text, i + 1, h);
    }
  }

  // ---------------------------------------------------------------------------
  // The `D` lookup

  lemma {:induction false} NearKeyFrom(table: Entries<string, real>, x: real, i: nat)
    requires i <= |table| && forall j :: 0 <= j < i ==> !Near(table[j].1, x)
    ensures NearKey(table, x) == NearKey(table[i..], x)
  {
    if i > 0 {
      NearKeyFrom(table[1..], x, i - 1);
      assert table[1..][i - 1..] == table[i..];
    }
  }

  /** `D` and a size, with no `#` before it: the first table key near the size. */
  lemma DSizeLookup(table: Entries<string, real>, d: string)
    requires d != [] && AllDigits(d) && NearKey(table, DigitsValue(d) as real).Some?
    ensures NumberOf(table, "D" + d) == NearKey(table, DigitsValue(d) as real).value
  {
    DSearches(d);
  }

  /** In `Dd` there is no `#` marker and no `mm`, and the `D` marker gives d. */
  lemma DSearches(d: string)
    requires d != [] && AllDigits(d)
    ensures SearchMarker('#', "D" + d).None? && SearchMarker('D', "D" + d) == Some(d) && SearchMm("D" + d).None?
  {
    var text := "D" + d;
    assert forall j :: 1 <= j < |text| ==> text[j] == d[j - 1];
    assert forall j :: 0 <= j < |text| ==> !Hit(Marker('#'), text, j);
    assert Hit(Marker('D'), text, 0);
    assert text[1..] == d + [];
    Pattern.RunLenExact(Pattern.Digits, d, []);
    assert d[..|d|] == d;
    assert RunAfter(text, 0) == d;
    NoMm(text);
  }

  /** Text without an 'm' has no number followed by `mm`. */
  lemma NoMm(text: string)
    requires forall j :: 0 <= j < |text| ==> text[j] != 'm'
    ensures SearchMm(text).None?
  {
    forall j | 0 <= j < |text| ensures !Hit(Millimetres, text, j) {
      NoMmAt(text, j);
    }
  }

  lemma NoMmAt(text: string, j: nat)
    requires forall j :: 0 <= j < |text| ==> text[j] != 'm'
    ensures MmAt(text, j).None?
  {
    if j < |text| && IsDigit(text[j]) {
      var e := j + Pattern.RunLen(Pattern.Digits, text[j..]);
      NoMmTail(text, e);
      if e + 1 < |text| {
        NoMmTail(text, e + 1 + Pattern.RunLen(Pattern.Digits, text[e + 1..]));
      }
    }
  }

  lemma NoMmTail(text: string, i: nat)
    requires i <= |text| && forall j :: 0 <= j < |text| ==> text[j] != 'm'
    ensures !MmTail(text[i..])
  {
    var s := text[i..];
    var t := StripLeft(s);
    if t != [] {
      assert t[0] == s[|s| - |t|] == text[i + |s| - |t|];
    }
  }

  /**
   * As written, the `D` size is compared with the unit weights: `D25` reads
   * as `#16`, whose unit weight happens to be 25.00 kg/m.
   */
  lemma D25ReadsAsNumber16(table: Entries<string, real>)
    requires IsUnitWeightTable(table)
    ensures NumberOf(table, "D25") == "#16"
  {
    WeightNear25(table);
    Near25ReadsAs(table, "#16");
  }

  lemma Near25ReadsAs(table: Entries<string, real>, key: string)
    requires NearKey(table, 25.0) == Some(key)
    ensures NumberOf(table, "D25") == key
  {
    D25Pieces();
    DSizeLookup(table, "25");
  }

  lemma D25Pieces()
    ensures "D" + "25" == "D25" && "25" != [] && AllDigits("25") && DigitsValue("25") == 25
  {
  }

  lemma WeightNear25(table: Entries<string, real>)
    requires IsUnitWeightTable(table)
    ensures NearKey(table, 25.0) == Some("#16")
  {
    forall j | 0 <= j < 14 ensures !Near(table[j].1, 25.0) {
      assert table[j].1 <= 20.24;
    }
    NearKeyFrom(table, 25.0, 14);
  }

  /** As written, `D13` (the size of `#4`) is near no unit weight and no `mm` follows: no designation. */
  lemma D13ReadsAsNothing(table: Entries<string, real>)
    requires IsUnitWeightTable(table)
    ensures NumberOf(table, "D13") == ""
  {
    NotNear13(table);
    D13Pieces();
    DSearches("13");
  }

  lemma NotNear13(table: Entries<string, real>)
    requires IsUnitWeightTable(table)
    ensures NearKey(table, 13.0).None?
  {
    forall j | 0 <= j < |table| ensures !Near(table[j].1, 13.0) {
      assert table[j].1 <= 11.38 || table[j].1 >= 13.87;
    }
  }

  lemma D13Pieces()
    ensures "D" + "13" == "D13" && "13" != [] && AllDigits("13") && DigitsValue("13") == 13
  {
  }

  /** No two values of the table lie within 0.1 of each other. */
  ghost predicate Separated(table: Entries<string, real>)
  {
    forall i, j :: 0 <= i < j < |table| ==> !Near(table[i].1, table[j].1)
  }

  /** In a separated table, looking up an entry's own value finds that entry. */
  lemma SeparatedLookup(table: Entries<string, real>, i: nat)
    requires Separated(table) && i < |table|
    ensures NearKey(table, table[i].1) == Some(table[i].0)
  {
    forall j | 0 <= j < i ensures !Near(table[j].1, table[i].1) {
      assert !Near(table[j].1, table[i].1);
    }
    NearKeyFrom(table, table[i].1, i);
    assert table[i..][0] == table[i];
  }

  lemma NominalSeparated(table: Entries<string, real>)
    requires IsNominalDiameterTable(table)
    ensures Separated(table)
  {
  }

  /**
   * Searching the nominal diameters instead, every `D` size of the table
   * reads as its own number: `D25` as `#8`, `D13` as `#4`.
   */
  lemma DSizeReadsAsNominal(table: Entries<string, real>, i: nat, n: nat)
    requires IsNominalDiameterTable(table) && i < |table| && table[i].1 == n as real
    ensures NumberOf(table, "D" + NatToString(n)) == table[i].0
  {
    NominalSeparated(table);
    SeparatedLookup(table, i);
    DSizeLookup(table, NatToString(n));
  }

  // ---------------------------------------------------------------------------
  // _get_material_grade

  /** Decimal digits with single underscores between them, as `int` accepts them. */
  predicate Grouped(t: string)
  {
    t != [] && IsDigit(t[0]) && DigitsOrUnderscores(t)
    && forall i :: 0 <= i < |t| && t[i] == '_' ==> i + 1 < |t| && IsDigit(t[i + 1])
  }

  predicate DigitsOrUnderscores(t: string)
  {
    forall i :: 0 <= i < |t| ==> IsDigit(t[i]) || t[i] == '_'
  }

  /** The digits of a grouped numeral, underscores dropped. */
  function Ungrouped(t: string): (d: string)
    requires DigitsOrUnderscores(t)
    ensures AllDigits(d)
    ensures |d| <= |t|
    ensures AllDigits(t) ==> d == t
    ensures forall i :: 0 <= i < |d| ==> d[i] in t
  {
    if t == [] then []
    else if t[|t| - 1] == '_' then Ungrouped(t[..|t| - 1])
    else Ungrouped(t[..|t| - 1]) + [t[|t| - 1]]
  }

  /** `int` on text with no surrounding whitespace: an optional sign, then a grouped numeral. */
  function IntOf(t: string): (r: Option<int>)
    ensures r.Some? <==> Grouped(t) || (t != [] && (t[0] == '+' || t[0] == '-') && Grouped(t[1..]))
    ensures Grouped(t) ==> r == Some(DigitsValue(Ungrouped(t)) as int)
    ensures t != [] && t[0] == '+' && Grouped(t[1..]) ==> r == Some(DigitsValue(Ungrouped(t[1..])) as int)
    ensures t != [] && t[0] == '-' && Grouped(t[1..]) ==> r == Some(-(DigitsValue(Ungrouped(t[1..])) as int))
  {
    if Grouped(t) then Some(DigitsValue(Ungrouped(t)) as int)
    else if t != [] && (t[0] == '+' || t[0] == '-') && Grouped(t[1..]) then
      var v := DigitsValue(Ungrouped(t[1..])) as int;
      Some(if t[0] == '-' then -v else v)
    else None
  }

  /** `int(s)` on a string: surrounding whitespace is dropped first; blank text fails. */
  function PyInt(s: string): (r: Option<int>)
    ensures Strip(s) == [] ==> r.None?
    ensures r.Some? <==> IntOf(Strip(s)).Some?
  {
    IntOf(Strip(s))
  }

  lemma PyIntOfNat(n: nat)
    ensures PyInt(NatToString(n)) == Some(n as int)
  {
    var s := NatToString(n);
    assert forall k :: 0 <= k < |s| ==> !IsSpace(s[k]);
    StripUnchanged(s);
    assert Grouped(s);
  }

  /** Underscores between digits are accepted: `int("1_0") == 10`. */
  lemma GroupedValue()
    ensures PyInt("1_0") == Some(10)
  {
    StripUnchanged("1_0");
    assert Grouped("1_0");
    assert Ungrouped("1_0") == "10" by {
      assert "1_0"[..2] == "1_" && "1_"[..1] == "1" && "1"[..0] == [];
    }
    assert DigitsValue("10") == 10 by {
      assert "10"[..1] == "1" && "1"[..0] == [];
    }
  }

  /** A leading, trailing or doubled underscore is refused. */
  lemma MisgroupedRefused()
    ensures PyInt("_10") == None && PyInt("10_") == None && PyInt("1__0") == None
  {
    StripUnchanged("_10");
    StripUnchanged("10_");
    StripUnchanged("1__0");
    assert !Grouped("10_") by { assert "10_"[2] == '_'; }
    assert !Grouped("1__0") by { assert "1__0"[1] == '_' && "1__0"[2] == '_'; }
  }

  /**
   * The converter's grade: the integer after a leading '#' picks SD280 up
   * to 6, SD420 up to 10 and SD490 above; anything else is SD280.
   */
  function TestGrade(number: string): (g: string)
    ensures g == "SD280" || g == "SD420" || g == "SD490"
  {
    if number != [] && number[0] == '#' && PyInt(number[1..]).Some? then
      var n := PyInt(number[1..]).value;
      if n <= 6 then "SD280" else if n <= 10 then "SD420" else "SD490"
    else "SD280"
  }

  /** `#n` grades by n; text without a leading '#' or an integer after it is SD280. */
  lemma TestGradeOf(n: nat, other: string)
    requires other == [] || other[0] != '#' || PyInt(other[1..]).None?
    ensures TestGrade("#" + NatToString(n)) == if n <= 6 then "SD280" else if n <= 10 then "SD420" else "SD490"
    ensures TestGrade(other) == "SD280"
  {
    GradeOfHash(n);
  }

  /** Whatever the spelling, the grade follows the integer `int` reads after the '#'. */
  lemma GradeByValue(number: string, n: int)
    requires number != [] && number[0] == '#' && PyInt(number[1..]) == Some(n)
    ensures TestGrade(number) == if n <= 6 then "SD280" else if n <= 10 then "SD420" else "SD490"
  {
  }

  /** `#1_0` names bar 10 and is graded SD420. */
  lemma GroupedGrade()
    ensures TestGrade("#1_0") == "SD420"
  {
    var number := "#1_0";
    GroupedValue();
    assert number[1..] == "1_0";
    GradeByValue(number, 10);
  }

  lemma GradeOfHash(n: nat)
    ensures TestGrade("#" + NatToString(n)) == if n <= 6 then "SD280" else if n <= 10 then "SD420" else "SD490"
  {
    var s := "#" + NatToString(n);
    PyIntOfNat(n);
    assert s[1..] == NatToString(n);
    assert s != [] && s[0] == '#' && PyInt(s[1..]) == Some(n as int);
  }

  // ---------------------------------------------------------------------------
  // calculate_line_length / calculate_polyline_length

  /** `math.sqrt`: a ValueError below zero. */
  function PySqrt(sqrt: real -> real, x: real): (r: Outcome<real>)
    requires Helpers.IsSqrt(sqrt)
    ensures r.Ok? <==> x >= 0.0
    ensures r.Ok? ==> r.value >= 0.0 && Helpers.Square(r.value) == x
    ensures r.Raises? ==> r.error == ValueError
  {
    if x >= 0.0 then Ok(sqrt(x)) else Raises(ValueError)
  }

  function SquaredDistance3(p: seq<real>, q: seq<real>): (d: real)
    requires |p| > 2 && |q| > 2
    ensures d >= 0.0
  {
    Helpers.Square(q[0] - p[0]) + Helpers.Square(q[1] - p[1]) + Helpers.Square(q[2] - p[2])
  }

  /**
   * `calculate_line_length` as written: the conditional expression takes in
   * the whole sum, so only two 3-D points get a distance. Otherwise the root
   * of the end point's third coordinate is taken when it has one, and of 0
   * when it has none.
   */
  function LineLengthAsWritten(sqrt: real -> real, p: seq<real>, q: seq<real>): (r: Outcome<real>)
    requires Helpers.IsSqrt(sqrt)
    ensures r.Raises? <==> !(|p| > 2 && |q| > 2) && |q| > 2 && q[2] < 0.0
  {
    if |p| > 2 && |q| > 2 then PySqrt(sqrt, SquaredDistance3(p, q))
    else if |q| > 2 then PySqrt(sqrt, q[2])
    else PySqrt(sqrt, 0.0)
  }

  /** As written, any two 2-D points are at distance 0. */
  lemma FlatLineLengthZero(sqrt: real -> real, p: seq<real>, q: seq<real>)
    requires Helpers.IsSqrt(sqrt) && |p| == 2 && |q| == 2
    ensures LineLengthAsWritten(sqrt, p, q) == Ok(0.0)
  {
  }

  /**
   * The distance the docstring describes: 3-D when both points have a third
   * coordinate, otherwise the planar distance.
   */
  function LineLengthIntended(sqrt: real -> real, p: seq<real>, q: seq<real>): (d: real)
    requires Helpers.IsSqrt(sqrt) && |p| >= 2 && |q| >= 2
    ensures d >= 0.0
  {
    if |p| > 2 && |q| > 2 then sqrt(SquaredDistance3(p, q))
    else Helpers.LineLength(sqrt, (p[0], p[1]), (q[0], q[1]))
  }

  /**
   * The intended distance agrees with the code on 3-D points and with the
   * 2-D helper on planar ones, where it is zero only for equal points.
   */
  lemma LineLengthIntendedAgrees(sqrt: real -> real, p: seq<real>, q: seq<real>)
    requires Helpers.IsSqrt(sqrt) && |p| >= 2 && |q| >= 2
    ensures |p| > 2 && |q| > 2 ==> LineLengthAsWritten(sqrt, p, q) == Ok(LineLengthIntended(sqrt, p, q))
    ensures |p| == 2 && |q| == 2 ==>
              LineLengthIntended(sqrt, p, q) == Helpers.LineLength(sqrt, (p[0], p[1]), (q[0], q[1]))
              && (LineLengthIntended(sqrt, p, q) == 0.0 <==> p == q)
  {
    if |p| == 2 && |q| == 2 && (p[0], p[1]) == (q[0], q[1]) {
      assert p == [p[0], p[1]] && q == [q[0], q[1]];
    }
  }

  /** `calculate_polyline_length` as written: the sum over consecutive points, or the first error. */
  function PolylineAsWritten(sqrt: real -> real, pts: seq<seq<real>>): (r: Outcome<real>)
    requires Helpers.IsSqrt(sqrt)
    ensures |pts| < 2 ==> r == Ok(0.0)
    decreases |pts|
  {
    if |pts| < 2 then Ok(0.0)
    else
      match PolylineAsWritten(sqrt, pts[..|pts| - 1])
      case Raises(e) => Raises(e)
      case Ok(t) =>
        match LineLengthAsWritten(sqrt, pts[|pts| - 2], pts[|pts| - 1])
        case Raises(e) => Raises(e)
        case Ok(d) => Ok(t + d)
  }

  /** The `for i in range(len(points) - 1)` loop: a raising step ends it. */
  method PolylineLength(sqrt: real -> real, points: seq<seq<real>>) returns (r: Outcome<real>)
    requires Helpers.IsSqrt(sqrt)
    ensures r == PolylineAsWritten(sqrt, points)
  {
    var total := 0.0;
    if |points| < 2 {
      return Ok(total);
    }
    var i := 0;
    while i < |points| - 1
      invariant 0 <= i <= |points| - 1
      invariant PolylineAsWritten(sqrt, points[..i + 1]) == Ok(total)
    {
      var d := LineLengthAsWritten(sqrt, points[i], points[i + 1]);
      assert points[..i + 2][..i + 1] == points[..i + 1];
      if d.Raises? {
        PolylineRaisesOn(sqrt, points, i + 2);
        return Raises(d.error);
      }
      total := total + d.value;
      i := i + 1;
    }
    assert points[..i + 1] == points;
    return Ok(total);
  }

  /** Once a prefix raises, the whole polyline raises the same error. */
  lemma {:induction false} PolylineRaisesOn(sqrt: real -> real, pts: seq<seq<real>>, k: nat)
    requires Helpers.IsSqrt(sqrt) && 2 <= k <= |pts| && PolylineAsWritten(sqrt, pts[..k]).Raises?
    ensures PolylineAsWritten(sqrt, pts) == PolylineAsWritten(sqrt, pts[..k])
    decreases |pts| - k
  {
    if k < |pts| {
      assert pts[..k + 1][..k] == pts[..k];
      PolylineRaisesOn(sqrt, pts, k + 1);
    } else {
      assert pts[..k] == pts;
    }
  }

  /** As written, a polyline of 2-D points has length 0 however long it is. */
  lemma {:induction false} FlatPolylineZero(sqrt: real -> real, pts: seq<seq<real>>)
    requires Helpers.IsSqrt(sqrt) && forall i :: 0 <= i < |pts| ==> |pts[i]| == 2
    ensures PolylineAsWritten(sqrt, pts) == Ok(0.0)
    decreases |pts|
  {
    if |pts| >= 2 {
      FlatPolylineZero(sqrt, pts[..|pts| - 1]);
      FlatLineLengthZero(sqrt, pts[|pts| - 2], pts[|pts| - 1]);
    }
  }

  // ---------------------------------------------------------------------------
  // calculate_rebar_weight

  /**
   * `calculate_rebar_weight`: the unit weight of the designation (0 when
   * absent) times the length in metres times the count, or 0 when the unit
   * weight or the length is 0 or missing. Rounding to two places is not
   * modelled.
   */
  function TestWeight(table: Entries<string, real>, number: string, length: Option<real>, count: int): (w: real)
    ensures Get(table, number).None? || length.None? ==> w == 0.0
  {
    var unit := if Get(table, number).Some? then Get(table, number).value else 0.0;
    if unit != 0.0 && length.Some? && length.value != 0.0 then unit * (length.value / 100.0) * count as real
    else 0.0
  }

  /**
   * With the same unit weights, the converter's weight is the processors'
   * `unit * L * count / 100`, length in centimetres.
   */
  lemma TestWeightAgrees(table: Entries<string, real>, t: BaseProcessor.Tables, number: string, length: real, count: int)
    requires Get(table, number) == (if number in t.unitWeight then Some(t.unitWeight[number]) else None)
    ensures TestWeight(table, number, Some(length), count) == BaseProcessor.CalculateWeight(t, number, length, count)
  {
    var u := BaseProcessor.UnitWeight(t, number);
    assert u * (length / 100.0) * count as real == u * length * count as real / 100.0;
  }

  // ---------------------------------------------------------------------------
  // draw_ascii_rebar

  /** The line drawn between the two end labels. */
  const MiddleChars: int := 10

  /** The caption and the line of a single segment, each centred in the wider of the two. */
  function AsciiStraight(length: real): string
  {
    var caption := Show(length);
    var width := if MiddleChars >= |caption| then MiddleChars else |caption|;
    Repeat(' ', (width - |caption|) / 2) + caption + "\n" + Repeat(' ', (width - MiddleChars) / 2) + Repeat('─', MiddleChars)
  }

  /** `start |──────────| end`. */
  function AsciiBar(segments: seq<real>): string
    requires |segments| >= 2
  {
    Show(segments[0]) + " |" + Repeat('─', MiddleChars) + "| " + Show(segments[|segments| - 1])
  }

  /** The middle caption: the inner segments' sum, or the second segment of two. */
  function MiddleLabel(segments: seq<real>): string
    requires |segments| >= 2
  {
    Show(SumReals(if |segments| > 2 then segments[1..|segments| - 1] else segments[1..]))
  }

  /** Where the middle caption starts: centred over the line (floor division). */
  function MiddleStart(segments: seq<real>): int
    requires |segments| >= 2
  {
    |Show(segments[0])| + 2 + (MiddleChars - |MiddleLabel(segments)|) / 2
  }

  /** The blank first line with the middle caption spliced in by slicing. */
  function LabelLine(segments: seq<real>): string
    requires |segments| >= 2
  {
    var blank := Repeat(' ', |AsciiBar(segments)|);
    var m := MiddleStart(segments);
    PyTake(blank, m) + MiddleLabel(segments) + PyDrop(blank, m + |MiddleLabel(segments)|)
  }

  /** test.py's `draw_ascii_rebar`: a dash for no segments, a labelled line, or a labelled bar. */
  function AsciiRebar(segments: seq<real>): (r: string)
    ensures segments == [] ==> r == "─"
  {
    if segments == [] then "─"
    else if |segments| == 1 then AsciiStraight(segments[0])
    else LabelLine(segments) + "\n" + AsciiBar(segments)
  }

  /**
   * A middle caption of at most ten characters sits over the line, inside
   * the bar's width: the first line is as wide as the bar, blank but for
   * the caption starting at `MiddleStart`.
   */
  lemma MiddleLabelCentred(segments: seq<real>)
    requires |segments| >= 2 && |MiddleLabel(segments)| <= MiddleChars
    ensures var first := LabelLine(segments);
            var m := MiddleStart(segments);
            var caption := MiddleLabel(segments);
            && AsciiRebar(segments) == first + "\n" + AsciiBar(segments)
            && |first| == |AsciiBar(segments)|
            && 0 <= m && m + |caption| <= |first|
            && first[m..m + |caption|] == caption
            && forall i :: 0 <= i < |first| && !(m <= i < m + |caption|) ==> first[i] == ' '
  {
    var bar := AsciiBar(segments);
    var caption := MiddleLabel(segments);
    var m := MiddleStart(segments);
    var n0 := |Show(segments[0])|;
    assert |bar| == n0 + 2 + MiddleChars + 2 + |Show(segments[|segments| - 1])|;
    assert 0 <= m && m + |caption| <= |bar|;
    var blank := Repeat(' ', |bar|);
    var first := LabelLine(segments);
    assert first == blank[..m] + caption + blank[m + |caption|..];
  }

  /** A single segment: its caption is centred over the ten-character line. */
  lemma StraightLabelCentred(length: real)
    requires |Show(length)| <= MiddleChars
    ensures AsciiRebar([length])
            == Repeat(' ', (MiddleChars - |Show(length)|) / 2) + Show(length) + "\n" + Repeat('─', MiddleChars)
  {
  }

  // ---------------------------------------------------------------------------
  // enhanced_draw_rebar_diagram

  /** Which drawing the converter produces for a list of segments. */
  datatype Diagram =
    | Ascii(text: string)
    | NoSegments
    | StraightDrawing(length: real, number: string)
    | LShapedDrawing(a: real, b: real, number: string)
    | UShapedDrawing(a: real, b: real, c: real, number: string)
    | ComplexDrawing(segments: seq<real>, number: string)

  /**
   * The drawer chosen by segment count, or the ASCII sketch when graphics
   * are unavailable or the chosen drawer raises (`drawerRaises` stands for
   * the drawing libraries).
   */
  function EnhancedDiagram(graphics: bool, drawerRaises: bool, segments: seq<real>, number: string): (d: Diagram)
    ensures d.Ascii? <==> !graphics || (segments != [] && drawerRaises)
    ensures d.Ascii? ==> d.text == AsciiRebar(segments)
    ensures d.NoSegments? <==> graphics && segments == []
    ensures d.StraightDrawing? <==> graphics && !drawerRaises && |segments| == 1
    ensures d.LShapedDrawing? <==> graphics && !drawerRaises && |segments| == 2
    ensures d.UShapedDrawing? <==> graphics && !drawerRaises && |segments| == 3
    ensures d.ComplexDrawing? <==> graphics && !drawerRaises && |segments| >= 4
  {
    if !graphics then Ascii(AsciiRebar(segments))
    else if segments == [] then NoSegments
    else if drawerRaises then Ascii(AsciiRebar(segments))
    else if |segments| == 1 then StraightDrawing(segments[0], number)
    else if |segments| == 2 then LShapedDrawing(segments[0], segments[1], number)
    else if |segments| == 3 then UShapedDrawing(segments[0], segments[1], segments[2], number)
    else ComplexDrawing(segments, number)
  }

  /** Every drawer is handed the segments in order, and the designation. */
  lemma DiagramKeepsSegments(segments: seq<real>, number: string)
    requires segments != []
    ensures var d := EnhancedDiagram(true, false, segments, number);
            && (d.StraightDrawing? ==> [d.length] == segments && d.number == number)
            && (d.LShapedDrawing? ==> [d.a, d.b] == segments && d.number == number)
            && (d.UShapedDrawing? ==> [d.a, d.b, d.c] == segments && d.number == number)
            && (d.ComplexDrawing? ==> d.segments == segments && d.number == number)
  {
  }

  // ---------------------------------------------------------------------------
  // format_file_size / format_time

  /** test.py's `format_file_size`: bytes below 1 KiB, gigabytes at most. */
  function TestFileSize(size: real): (r: Helpers.FileSize)
    ensures r.Sized?
  {
    if size < 1024.0 then Helpers.Sized(size, "B")
    else if size < Helpers.Pow1024(2) then Helpers.Sized(size / 1024.0, "KB")
    else if size < Helpers.Pow1024(3) then Helpers.Sized(size / Helpers.Pow1024(2), "MB")
    else Helpers.Sized(size / Helpers.Pow1024(3), "GB")
  }

  /**
   * Below a terabyte this agrees with the helper module's formatter (which
   * shows zero as the literal "0 B"); from a terabyte on the helper moves to
   * TB while this stays in GB.
   */
  lemma TestFileSizeAgrees(size: real)
    requires size != 0.0
    ensures var k := Helpers.Divisions(size, 4);
            var helper := Helpers.Sized(size / Helpers.Pow1024(k), Helpers.SizeNames[k]);
            (TestFileSize(size) == helper <==> size < Helpers.Pow1024(4))
  {
    var k := Helpers.Divisions(size, 4);
    Helpers.UnitChoice(size, 4);
    assert Helpers.Pow1024(1) == 1024.0;
    assert Helpers.Pow1024(2) == 1024.0 * Helpers.Pow1024(1);
    assert Helpers.Pow1024(3) == 1024.0 * Helpers.Pow1024(2);
    assert Helpers.Pow1024(4) == 1024.0 * Helpers.Pow1024(3);
    if k == 0 {
      assert size / Helpers.Pow1024(0) == size;
    }
  }

  /** What test.py's `format_time` shows: seconds, whole minutes and seconds, or hours and minutes. */
  datatype Clock = Secs(s: real) | MinSec(m: int, wholeSeconds: int) | HourMin(h: int, m: int)

  function TestTime(seconds: real): (r: Clock)
  {
    if seconds < 60.0 then Secs(seconds)
    else if seconds < 3600.0 then MinSec(PyFloorDiv(seconds, 60.0), PyTrunc(PyMod(seconds, 60.0)))
    else HourMin(PyFloorDiv(seconds, 3600.0), PyFloorDiv(PyMod(seconds, 3600.0), 60.0))
  }

  /**
   * The same unit as the helper module's `format_time`, with the same
   * minutes and hours; the converter shows whole seconds and drops them
   * from the hour form.
   */
  lemma TestTimeAgrees(seconds: real)
    ensures TestTime(seconds).Secs? ==> Helpers.FormatTime(seconds) == Helpers.Seconds(TestTime(seconds).s)
    ensures TestTime(seconds).MinSec? ==>
              Helpers.FormatTime(seconds).MinutesSeconds? && Helpers.FormatTime(seconds).m == TestTime(seconds).m
              && TestTime(seconds).wholeSeconds == PyTrunc(Helpers.FormatTime(seconds).s)
    ensures TestTime(seconds).HourMin? ==>
              Helpers.FormatTime(seconds).HoursMinutesSeconds? && Helpers.FormatTime(seconds).h == TestTime(seconds).h
              && Helpers.FormatTime(seconds).m == TestTime(seconds).m
  {
    if 60.0 <= seconds < 3600.0 {
      Helpers.TruncIsFloorDiv(seconds, 60.0);
    } else if seconds >= 3600.0 {
      Helpers.TruncIsFloorDiv(seconds, 3600.0);
      Helpers.TruncIsFloorDiv(PyMod(seconds, 3600.0), 60.0);
    }
  }
}
