// `DxfParser._parse_rebar_mark` of core/dxf_parser.py: a multi-segment
// mark `#<n>-<L1>+<L2>+...x<count>`, first narrowed to the leftmost
// shortest `#<digits>-...x<digits>` inside the text, then matched at the
// start of what remains.

module DxfParser {
  import opened Common
  import opened Pattern

  /** A segment as the list comprehension builds it: `int(x)` without a '.', `float(x)` with one. */
  datatype Segment = IntLength(n: nat) | FloatLength(x: real)

  /** The dictionary `_parse_rebar_mark` returns. */
  datatype Mark = Mark(rebarNumber: string, segments: seq<Segment>, count: nat)

  // ---------------------------------------------------------------------------
  // `re.search(r'(#[0-9]+-.*?x[0-9]+)', text)`

  /** The lazy `.*?` can stop before `j`: an 'x' there, followed by a digit. */
  predicate Closes(t: string, j: nat)
  {
    j + 1 < |t| && t[j] == 'x' && IsDigit(t[j + 1])
  }

  /** Some newline lies in `t[p..j]`, which `.` cannot cross. */
  predicate NewlineBetween(t: string, p: nat, j: nat)
  {
    exists k :: p <= k < j && k < |t| && t[k] == '\n'
  }

  /** Where `.*?x[0-9]+` started at `p` puts its 'x': the first closing place before any newline. */
  function LazyClose(t: string, p: nat): (r: Option<nat>)
    requires p <= |t|
    ensures r.Some? ==> p <= r.value && Closes(t, r.value)
                        && forall k :: p <= k < r.value ==> !Closes(t, k) && t[k] != '\n'
    ensures r.None? ==> forall j :: p <= j < |t| && Closes(t, j) ==> NewlineBetween(t, p, j)
    decreases |t| - p
  {
    if p == |t| then None
    else if Closes(t, p) then Some(p)
    else if t[p] == '\n' then None
    else
      var r := LazyClose(t, p + 1);
      assert r.None? ==> forall j :: p < j < |t| && Closes(t, j) ==> NewlineBetween(t, p, j) by {
        if r.None? {
          forall j | p < j < |t| && Closes(t, j) ensures NewlineBetween(t, p, j) {
            assert NewlineBetween(t, p + 1, j);
          }
        }
      }
      r
  }

  /** The end of the narrowing pattern's match starting at `i`, if it matches there. */
  function MarkAt(t: string, i: nat): (r: Option<nat>)
    requires i <= |t|
    ensures r.Some? ==> i < r.value <= |t| && t[i] == '#'
  {
    if i == |t| || t[i] != '#' then None
    else
      var k := RunLen(Digits, t[i + 1..]);
      var p := i + 1 + k;
      if k == 0 || p >= |t| || t[p] != '-' then None
      else CloseEnd(t, p + 1)
  }

  /** After the '-' at `p - 1`: the lazy part up to its 'x', then the count digits. */
  function CloseEnd(t: string, p: nat): (r: Option<nat>)
    requires p <= |t|
    ensures r.Some? ==> p < r.value <= |t|
  {
    match LazyClose(t, p)
    case None => None
    case Some(j) => Some(j + 1 + RunLen(Digits, t[j + 1..]))
  }

  /** `re.search`: the leftmost position from `i` on where the pattern matches, and the match's end. */
  function SearchFrom(t: string, i: nat): (r: Option<(nat, nat)>)
    requires i <= |t|
    ensures r.Some? ==> i <= r.value.0 <= |t| && MarkAt(t, r.value.0) == Some(r.value.1)
                        && forall k :: i <= k < r.value.0 ==> MarkAt(t, k).None?
    ensures r.None? ==> forall k :: i <= k <= |t| ==> MarkAt(t, k).None?
    decreases |t| - i
  {
    match MarkAt(t, i)
    case Some(e) => Some((i, e))
    case None => if i == |t| then None else SearchFrom(t, i + 1)
  }

  /** The text after narrowing: the leftmost match of the search, or the text itself. */
  function Narrow(text: string): (s: string)
    ensures SearchFrom(text, 0).None? ==> s == text
    ensures SearchFrom(text, 0).Some? ==>
              var (a, b) := SearchFrom(text, 0).value;
              s == text[a..b] && s[0] == '#'
  {
    match SearchFrom(text, 0)
    case Some((a, b)) => text[a..b]
    case None => text
  }

  // ---------------------------------------------------------------------------
  // `re.match(r'#(\d+)-([\d\.]+(?:\+[\d\.]+)*)x(\d+)', text)`

  predicate IsToken(s: string)
  {
    s != [] && forall i :: 0 <= i < |s| ==> IsNumChar(s[i])
  }

  predicate AllTokens(toks: seq<string>)
  {
    forall i :: 0 <= i < |toks| ==> IsToken(toks[i])
  }

  /** `'+'.join(toks)`. */
  function JoinPlus(toks: seq<string>): string
    requires toks != []
  {
    if |toks| == 1 then toks[0] else toks[0] + "+" + JoinPlus(toks[1..])
  }

  /**
   * The length group `[\d\.]+(?:\+[\d\.]+)*`: '+'-separated tokens, each as
   * long as possible, and the text left after the last one.
   */
  function ScanTokens(s: string): (r: Option<(seq<string>, string)>)
    ensures r.Some? <==> s != [] && IsNumChar(s[0])
    ensures r.Some? ==> r.value.0 != [] && AllTokens(r.value.0) && s == JoinPlus(r.value.0) + r.value.1
                        && (r.value.1 == [] || !IsNumChar(r.value.1[0]))
    decreases |s|
  {
    var k := RunLen(Num, s);
    if k == 0 then None
    else
      var tok := s[..k];
      var rest := s[k..];
      assert s == tok + rest;
      if rest != [] && rest[0] == '+' then
        match ScanTokens(rest[1..])
        case Some((ts, r)) =>
          ScanStep(s, tok, rest, ts, r);
          Some(([tok] + ts, r))
        case None => Some(([tok], rest))
      else Some(([tok], rest))
  }

  lemma ScanStep(s: string, tok: string, rest: string, ts: seq<string>, r: string)
    requires IsToken(tok) && s == tok + rest && rest != [] && rest[0] == '+'
    requires ts != [] && AllTokens(ts) && rest[1..] == JoinPlus(ts) + r
    ensures [tok] + ts != [] && AllTokens([tok] + ts) && s == JoinPlus([tok] + ts) + r
  {
    assert ([tok] + ts)[1..] == ts;
    assert JoinPlus([tok] + ts) == tok + "+" + JoinPlus(ts);
    assert rest == "+" + rest[1..];
    assert forall i :: 1 <= i < |[tok] + ts| ==> ([tok] + ts)[i] == ts[i - 1];
  }

  /** The text of a mark with the given groups. */
  function MarkText(n: string, toks: seq<string>, c: string): string
    requires toks != []
  {
    "#" + n + "-" + JoinPlus(toks) + "x" + c
  }

  predicate MarkGroups(n: string, toks: seq<string>, c: string)
  {
    n != [] && AllDigits(n) && toks != [] && AllTokens(toks) && c != [] && AllDigits(c)
  }

  /** The anchored match: the designation digits, the length tokens and the count digits. */
  function MatchMark(t: string): (r: Option<(string, seq<string>, string)>)
    ensures r.Some? ==> MarkGroups(r.value.0, r.value.1, r.value.2)
                        && StartsWith(t, MarkText(r.value.0, r.value.1, r.value.2))
  {
    if t == [] || t[0] != '#' then None
    else
      var k := RunLen(Digits, t[1..]);
      if k == 0 || 1 + k >= |t| || t[1 + k] != '-' then None
      else
        match ScanTokens(t[2 + k..])
        case None => None
        case Some((toks, rest)) =>
          if rest == [] || rest[0] != 'x' then None
          else
            var m := RunLen(Digits, rest[1..]);
            if m == 0 then None
            else
              MarkTextOf(t, k, toks, rest, m);
              Some((t[1..1 + k], toks, rest[1..][..m]))
  }

  lemma MarkTextOf(t: string, k: nat, toks: seq<string>, rest: string, m: nat)
    requires 0 < k && 1 + k < |t| && t[0] == '#' && t[1 + k] == '-' && AllIn(Digits, t[1..][..k])
    requires toks != [] && AllTokens(toks) && t[2 + k..] == JoinPlus(toks) + rest
    requires rest != [] && rest[0] == 'x' && 0 < m < |rest| && AllIn(Digits, rest[1..][..m])
    ensures MarkGroups(t[1..1 + k], toks, rest[1..][..m])
    ensures StartsWith(t, MarkText(t[1..1 + k], toks, rest[1..][..m]))
  {
    var n := t[1..1 + k];
    var c := rest[1..][..m];
    assert n == t[1..][..k];
    assert t == "#" + n + "-" + t[2 + k..] by {
      assert t == t[..1] + t[1..1 + k] + t[1 + k..2 + k] + t[2 + k..];
    }
    assert rest == "x" + c + rest[1 + m..] by {
      assert rest == rest[..1] + rest[1..1 + m] + rest[1 + m..];
    }
    var mt := MarkText(n, toks, c);
    assert t == mt + rest[1 + m..];
    assert t[..|mt|] == mt;
  }

  // ---------------------------------------------------------------------------
  // Building the result

  /** `float(x) if '.' in x else int(x)` on one token. */
  function ToSegment(tok: string): (r: Outcome<Segment>)
    requires IsToken(tok)
    ensures r.Ok? && r.value.IntLength? <==> '.' !in tok
    ensures r.Raises? <==> '.' in tok && (CountChar(tok, '.') > 1 || !HasDigit(tok))
    ensures r.Raises? ==> r.error == ValueError
    ensures r.Ok? && r.value.IntLength? ==> PyFloat(tok) == Ok(r.value.n as real)
  {
    if '.' in tok then
      var x :- PyFloat(tok);
      Ok(FloatLength(x))
    else
      assert AllDigits(tok) by {
        forall i | 0 <= i < |tok| ensures IsDigit(tok[i]) { assert tok[i] in tok; }
      }
      PyFloatOfDigits(tok);
      Ok(IntLength(DigitsValue(tok)))
  }

  /** The comprehension over all tokens, raising at the first token `float` rejects. */
  function ToSegments(toks: seq<string>): (r: Outcome<seq<Segment>>)
    requires AllTokens(toks)
    ensures r.Ok? <==> forall i :: 0 <= i < |toks| ==> ToSegment(toks[i]).Ok?
    ensures r.Ok? ==> |r.value| == |toks| && forall i :: 0 <= i < |toks| ==> Ok(r.value[i]) == ToSegment(toks[i])
    ensures r.Raises? ==> r.error == ValueError
  {
    if toks == [] then Ok([])
    else
      var s :- ToSegment(toks[0]);
      TailTokens(toks);
      var rest :- ToSegments(toks[1..]);
      SegmentsCons(toks, s, rest);
      Ok([s] + rest)
  }

  lemma TailTokens(toks: seq<string>)
    requires toks != []
    ensures forall i :: 1 <= i < |toks| ==> toks[i] == toks[1..][i - 1]
  {
  }

  /** The first token's segment in front of the others' converts every token in order. */
  lemma SegmentsCons(toks: seq<string>, s: Segment, rest: seq<Segment>)
    requires toks != [] && AllTokens(toks) && ToSegment(toks[0]) == Ok(s)
    requires |rest| == |toks| - 1 && forall i :: 0 <= i < |rest| ==> Ok(rest[i]) == ToSegment(toks[1..][i])
    ensures |[s] + rest| == |toks| && forall i :: 0 <= i < |toks| ==> Ok(([s] + rest)[i]) == ToSegment(toks[i])
  {
    forall i | 0 <= i < |toks| ensures Ok(([s] + rest)[i]) == ToSegment(toks[i]) {
      if i > 0 {
        assert toks[i] == toks[1..][i - 1];
      }
    }
  }

  /**
   * `_parse_rebar_mark`: narrow, match at the start, then build the
   * designation, the segments and the count; None when the match fails,
   * ValueError when a dotted token is not a float.
   */
  function ParseRebarMark(text: string): (r: Outcome<Option<Mark>>)
    ensures r.Ok? && r.value.None? <==> MatchMark(Narrow(text)).None?
    ensures r.Raises? ==> r.error == ValueError
    ensures r.Ok? && r.value.Some? ==>
              var (n, toks, c) := MatchMark(Narrow(text)).value;
              r.value.value.rebarNumber == "#" + n && r.value.value.count == DigitsValue(c)
              && ToSegments(toks) == Ok(r.value.value.segments)
  {
    match MatchMark(Narrow(text))
    case None => Ok(None)
    case Some((n, toks, c)) =>
      var segments :- ToSegments(toks);
      Ok(Some(Mark("#" + n, segments, DigitsValue(c))))
  }

  // ---------------------------------------------------------------------------
  // What a well-formed mark parses to

  lemma {:induction false} JoinPlusNumChars(toks: seq<string>, k: nat)
    requires toks != [] && AllTokens(toks) && k < |JoinPlus(toks)|
    ensures IsNumChar(JoinPlus(toks)[k]) || JoinPlus(toks)[k] == '+'
  {
    if |toks| > 1 {
      var j := JoinPlus(toks[1..]);
      assert JoinPlus(toks) == toks[0] + "+" + j;
      if k > |toks[0]| {
        assert JoinPlus(toks)[k] == j[k - |toks[0]| - 1];
        JoinPlusNumChars(toks[1..], k - |toks[0]| - 1);
      }
    }
  }

  /** The tokens of a rendered length group are scanned back, whatever follows that is not '+' or a number. */
  lemma {:induction false} ScanJoin(toks: seq<string>, rest: string)
    requires toks != [] && AllTokens(toks)
    requires rest == [] || (!IsNumChar(rest[0]) && rest[0] != '+')
    ensures ScanTokens(JoinPlus(toks) + rest) == Some((toks, rest))
  {
    if |toks| == 1 {
      ScanJoinLast(toks, rest);
    } else {
      ScanJoin(toks[1..], rest);
      ScanJoinStep(toks, rest);
    }
  }

  /** A single token followed by a stop is scanned as that token. */
  lemma ScanJoinLast(toks: seq<string>, rest: string)
    requires |toks| == 1 && AllTokens(toks)
    requires rest == [] || (!IsNumChar(rest[0]) && rest[0] != '+')
    ensures ScanTokens(JoinPlus(toks) + rest) == Some((toks, rest))
  {
    var s := JoinPlus(toks) + rest;
    assert s == toks[0] + rest;
    RunLenExact(Num, toks[0], rest);
    assert s[..|toks[0]|] == toks[0] && s[|toks[0]|..] == rest;
    assert [toks[0]] == toks;
  }

  /** A first token and a '+' in front of tokens that scan back scan back with it. */
  lemma ScanJoinStep(toks: seq<string>, rest: string)
    requires |toks| > 1 && AllTokens(toks)
    requires ScanTokens(JoinPlus(toks[1..]) + rest) == Some((toks[1..], rest))
    ensures ScanTokens(JoinPlus(toks) + rest) == Some((toks, rest))
  {
    JoinPlusCons(toks, rest);
    ScanTokenPlus(toks[0], JoinPlus(toks[1..]) + rest, toks[1..], rest);
  }

  /** The rendered group of several tokens is the first token, a '+' and the rest's group. */
  lemma JoinPlusCons(toks: seq<string>, rest: string)
    requires |toks| > 1
    ensures JoinPlus(toks) + rest == toks[0] + ("+" + (JoinPlus(toks[1..]) + rest))
    ensures [toks[0]] + toks[1..] == toks
  {
    var j := JoinPlus(toks[1..]);
    assert JoinPlus(toks) == toks[0] + "+" + j;
    SeqAssoc(toks[0], "+", j, rest);
  }

  lemma SeqAssoc(a: string, b: string, c: string, d: string)
    ensures a + b + c + d == a + (b + (c + d))
  {
  }

  /** A token, a '+' and a text that scans to `ts` scan to the token followed by `ts`. */
  lemma ScanTokenPlus(tok: string, tail: string, ts: seq<string>, r: string)
    requires IsToken(tok) && ScanTokens(tail) == Some((ts, r))
    ensures ScanTokens(tok + ("+" + tail)) == Some(([tok] + ts, r))
  {
    var s := tok + ("+" + tail);
    RunLenExact(Num, tok, "+" + tail);
    assert s[..|tok|] == tok && s[|tok|..] == "+" + tail;
    assert ("+" + tail)[1..] == tail;
  }

  /** The anchored match, read off the pieces it is computed from. */
  lemma MatchMarkParts(t: string, k: nat, toks: seq<string>, rest: string, m: nat)
    requires t != [] && t[0] == '#' && RunLen(Digits, t[1..]) == k && 0 < k && 1 + k < |t| && t[1 + k] == '-'
    requires ScanTokens(t[2 + k..]) == Some((toks, rest))
    requires rest != [] && rest[0] == 'x' && RunLen(Digits, rest[1..]) == m && m > 0
    ensures MatchMark(t) == Some((t[1..1 + k], toks, rest[1..][..m]))
  {
  }

  /** The anchored match on a mark assembled from its pieces. */
  lemma MatchMarkPieces(t: string, n: string, toks: seq<string>, c: string, rest: string)
    requires MarkGroups(n, toks, c)
    requires rest == [] || !IsDigit(rest[0])
    requires t == "#" + (n + ("-" + (JoinPlus(toks) + ("x" + (c + rest)))))
    ensures MatchMark(t) == Some((n, toks, c))
  {
    var after := "x" + (c + rest);
    var body := JoinPlus(toks) + after;
    MarkSlices(t, n, body);
    CountSlices(after, c, rest);
    RunLenExact(Digits, n, "-" + body);
    ScanJoin(toks, after);
    RunLenExact(Digits, c, rest);
    MatchMarkParts(t, |n|, toks, after, |c|);
  }

  /** The pieces of `#`, the designation, `-` and the rest of a mark. */
  lemma MarkSlices(t: string, n: string, body: string)
    requires t == "#" + (n + ("-" + body))
    ensures |t| == 2 + |n| + |body| && t[0] == '#' && t[1 + |n|] == '-'
    ensures t[1..] == n + ("-" + body) && t[1..1 + |n|] == n && t[2 + |n|..] == body
  {
    assert t[1..] == n + ("-" + body);
    assert t[1..1 + |n|] == n;
  }

  /** The pieces of `x`, the count and what follows it. */
  lemma CountSlices(after: string, c: string, rest: string)
    requires after == "x" + (c + rest)
    ensures after[0] == 'x' && after[1..] == c + rest && after[1..][..|c|] == c
  {
    assert after[1..] == c + rest;
  }

  /** A rendered mark, followed by anything that does not start with a digit, is matched back. */
  lemma MatchMarkText(n: string, toks: seq<string>, c: string, rest: string)
    requires MarkGroups(n, toks, c)
    requires rest == [] || !IsDigit(rest[0])
    ensures MatchMark(MarkText(n, toks, c) + rest) == Some((n, toks, c))
  {
    var t := MarkText(n, toks, c) + rest;
    assert t == "#" + (n + ("-" + (JoinPlus(toks) + ("x" + (c + rest)))));
    MatchMarkPieces(t, n, toks, c, rest);
  }

  /** Without 'x' or a newline in `t[p..j]`, the lazy part stops at the closing 'x' at `j`. */
  lemma {:induction false} LazyCloseAt(t: string, p: nat, j: nat)
    requires p <= j && Closes(t, j)
    requires forall k :: p <= k < j ==> t[k] != 'x' && t[k] != '\n'
    ensures LazyClose(t, p) == Some(j)
    decreases j - p
  {
    if p < j {
      LazyCloseAt(t, p + 1, j);
    }
  }

  /** A '#', digits and a '-' at `i`: the match there ends where the part after the '-' does. */
  lemma MarkAtDash(t: string, i: nat, k: nat)
    requires i < |t| && t[i] == '#' && RunLen(Digits, t[i + 1..]) == k && 0 < k && i + 1 + k < |t|
    requires t[i + 1 + k] == '-'
    ensures MarkAt(t, i) == CloseEnd(t, i + 2 + k)
  {
  }

  /** The part after the '-' ends after the count digits that follow its 'x'. */
  lemma CloseEndAt(t: string, p: nat, j: nat, m: nat)
    requires p <= |t| && LazyClose(t, p) == Some(j) && RunLen(Digits, t[j + 1..]) == m
    ensures CloseEnd(t, p) == Some(j + 1 + m)
  {
  }

  /** A mark text on its own is left unchanged by the narrowing search. */
  lemma NarrowMarkText(n: string, toks: seq<string>, c: string)
    requires MarkGroups(n, toks, c)
    ensures Narrow(MarkText(n, toks, c)) == MarkText(n, toks, c)
  {
    var t := MarkText(n, toks, c);
    var j := 2 + |n| + |JoinPlus(toks)|;
    MarkTextPieces(n, toks, c);
    MarkAtDash(t, 0, |n|);
    CloseEndAt(t, 2 + |n|, j, |c|);
    NarrowWhole(t);
  }

  /** Where the narrowing search finds the pieces of a mark text. */
  lemma MarkTextPieces(n: string, toks: seq<string>, c: string)
    requires MarkGroups(n, toks, c)
    ensures var t := MarkText(n, toks, c);
            var j := 2 + |n| + |JoinPlus(toks)|;
            && 0 < |n| && 1 + |n| < |t| && t[0] == '#' && RunLen(Digits, t[1..]) == |n| && t[1 + |n|] == '-'
            && 2 + |n| <= |t| && j + 1 <= |t| && LazyClose(t, 2 + |n|) == Some(j)
            && RunLen(Digits, t[j + 1..]) == |c| && j + 1 + |c| == |t|
  {
    var t := MarkText(n, toks, c);
    var join := JoinPlus(toks);
    var body := join + ("x" + c);
    MarkTextShape(n, toks, c);
    MarkSlices(t, n, body);
    RunLenExact(Digits, n, "-" + body);
    LazyCloseJoin(t, 2 + |n|, toks, c);
    RunLenExact(Digits, c, []);
    assert c + [] == c;
  }

  /** The mark text is its pieces concatenated from the right. */
  lemma MarkTextShape(n: string, toks: seq<string>, c: string)
    requires toks != []
    ensures MarkText(n, toks, c) == "#" + (n + ("-" + (JoinPlus(toks) + ("x" + c))))
  {
  }

  /** Where a length group and `x` and the count start at `p`, the lazy part stops at that 'x', and the count follows. */
  lemma LazyCloseJoin(t: string, p: nat, toks: seq<string>, c: string)
    requires toks != [] && AllTokens(toks) && c != [] && AllDigits(c)
    requires p <= |t| && t[p..] == JoinPlus(toks) + ("x" + c)
    ensures p + |JoinPlus(toks)| + 1 <= |t|
    ensures LazyClose(t, p) == Some(p + |JoinPlus(toks)|)
    ensures t[p + |JoinPlus(toks)| + 1..] == c
  {
    var join := JoinPlus(toks);
    var rest := t[p..];
    var j := p + |join|;
    forall k | p <= k < j ensures t[k] != 'x' && t[k] != '\n' {
      assert t[k] == rest[k - p] == join[k - p];
      JoinPlusNumChars(toks, k - p);
    }
    assert t[j] == rest[|join|] == 'x';
    assert t[j + 1] == rest[|join| + 1] == c[0];
    LazyCloseAt(t, p, j);
    assert t[j + 1..] == rest[|join| + 1..] == c;
  }

  /** A text where a mark starts at 0 and runs to the end is its own narrowing. */
  lemma NarrowWhole(t: string)
    requires MarkAt(t, 0) == Some(|t|)
    ensures Narrow(t) == t
  {
    assert SearchFrom(t, 0) == Some((0 as nat, |t|));
    assert t[0..|t|] == t;
  }


  /** A well-formed mark gives its designation, its count and the conversion of every token. */
  lemma ParseMarkText(n: string, toks: seq<string>, c: string)
    requires MarkGroups(n, toks, c)
    ensures ParseRebarMark(MarkText(n, toks, c))
            == match ToSegments(toks)
               case Raises(e) => Raises(e)
               case Ok(segs) => Ok(Some(Mark("#" + n, segs, DigitsValue(c))))
  {
    NarrowMarkText(n, toks, c);
    MatchMarkText(n, toks, c, []);
    assert MarkText(n, toks, c) + [] == MarkText(n, toks, c);
  }

  /** All-digit tokens become integers, one per token, in order. */
  lemma DigitTokens(toks: seq<string>)
    requires forall i :: 0 <= i < |toks| ==> toks[i] != [] && AllDigits(toks[i])
    ensures AllTokens(toks)
    ensures ToSegments(toks).Ok?
    ensures forall i :: 0 <= i < |toks| ==> ToSegments(toks).value[i] == IntLength(DigitsValue(toks[i]))
  {
    assert AllTokens(toks) by {
      forall i, k | 0 <= i < |toks| && 0 <= k < |toks[i]| ensures IsNumChar(toks[i][k]) {
        assert IsDigit(toks[i][k]);
      }
    }
    forall i | 0 <= i < |toks| ensures ToSegment(toks[i]) == Ok(IntLength(DigitsValue(toks[i]))) {
      assert forall k :: 0 <= k < |toks[i]| ==> toks[i][k] != '.';
      assert '.' !in toks[i];
    }
  }

  /** A mark whose lengths are all digit strings parses to one integer segment per length. */
  lemma ParseDigitMark(text: string, n: string, toks: seq<string>, c: string)
    requires n != [] && AllDigits(n) && c != [] && AllDigits(c) && toks != []
    requires forall i :: 0 <= i < |toks| ==> toks[i] != [] && AllDigits(toks[i])
    requires text == MarkText(n, toks, c)
    ensures ParseRebarMark(text).Ok? && ParseRebarMark(text).value.Some?
    ensures var m := ParseRebarMark(text).value.value;
      m.rebarNumber == "#" + n && m.count == DigitsValue(c) && |m.segments| == |toks|
      && forall i :: 0 <= i < |toks| ==> m.segments[i] == IntLength(DigitsValue(toks[i]))
  {
    DigitTokens(toks);
    ParseMarkText(n, toks, c);
  }

  /** `#10-1000+1000+1000x31` gives three integer segments of 1000 and count 31. */
  lemma ExampleMultiple(text: string, toks: seq<string>)
    requires toks == ["1000", "1000", "1000"] && text == MarkText("10", toks, "31")
    ensures ParseRebarMark(text) == Ok(Some(Mark("#10", [IntLength(1000), IntLength(1000), IntLength(1000)], 31)))
  {
    ThousandSegments(toks);
    ParseSegmentsMark("10", toks, "31", [IntLength(1000), IntLength(1000), IntLength(1000)]);
  }

  lemma ThousandSegments(toks: seq<string>)
    requires toks == ["1000", "1000", "1000"]
    ensures MarkGroups("10", toks, "31")
    ensures ToSegments(toks) == Ok([IntLength(1000), IntLength(1000), IntLength(1000)])
    ensures DigitsValue("31") == 31 && "#" + "10" == "#10"
  {
    ThousandNumerals();
    DigitTriple("1000", "1000", "1000");
  }

  /** The text of the mark in `ExampleMultiple`. */
  lemma ExampleMultipleText(toks: seq<string>)
    requires toks == ["1000", "1000", "1000"]
    ensures MarkText("10", toks, "31") == "#10-1000+1000+1000x31"
  {
    assert toks[1..][1..] == ["1000"];
    assert JoinPlus(toks[1..][1..]) == "1000";
    assert JoinPlus(toks[1..]) == "1000+1000";
    assert JoinPlus(toks) == "1000+1000+1000";
  }

  /** `#9-45+700x50` gives integer segments 45 and 700 and count 50. */
  lemma ExampleTwo(text: string, toks: seq<string>)
    requires toks == ["45", "700"] && text == MarkText("9", toks, "50")
    ensures ParseRebarMark(text) == Ok(Some(Mark("#9", [IntLength(45), IntLength(700)], 50)))
  {
    TwoSegments(toks);
    ParseSegmentsMark("9", toks, "50", [IntLength(45), IntLength(700)]);
  }

  lemma TwoSegments(toks: seq<string>)
    requires toks == ["45", "700"]
    ensures MarkGroups("9", toks, "50")
    ensures ToSegments(toks) == Ok([IntLength(45), IntLength(700)])
    ensures DigitsValue("50") == 50 && "#" + "9" == "#9"
  {
    TwoNumerals();
    DigitPair("45", "700");
  }

  lemma TwoNumerals()
    ensures "45" == NatToString(45) && "700" == NatToString(700)
    ensures "9" == NatToString(9) && "50" == NatToString(50) && "#" + "9" == "#9"
  {
  }

  lemma ThousandNumerals()
    ensures "1000" == NatToString(1000) && "10" == NatToString(10)
    ensures "31" == NatToString(31) && "#" + "10" == "#10"
  {
  }

  /** Two digit strings are length tokens and become the integers they spell, in order. */
  lemma DigitPair(a: string, b: string)
    requires a != [] && AllDigits(a) && b != [] && AllDigits(b)
    ensures AllTokens([a, b])
    ensures ToSegments([a, b]) == Ok([IntLength(DigitsValue(a)), IntLength(DigitsValue(b))])
  {
    DigitSegment(a);
    DigitSegment(b);
    assert AllTokens([b]);
    assert [b][1..] == [];
    assert ToSegments([b][1..]) == Ok([]);
    var sb := [IntLength(DigitsValue(b))];
    assert sb + [] == sb;
    assert ToSegments([b]) == Ok(sb);
    assert AllTokens([a, b]);
    assert [a, b][1..] == [b];
    assert ToSegments([a, b][1..]) == Ok(sb);
    assert [IntLength(DigitsValue(a))] + sb == [IntLength(DigitsValue(a)), IntLength(DigitsValue(b))];
  }

  /** Three digit strings are length tokens and become the integers they spell, in order. */
  lemma DigitTriple(a: string, b: string, c: string)
    requires a != [] && AllDigits(a) && b != [] && AllDigits(b) && c != [] && AllDigits(c)
    ensures AllTokens([a, b, c])
    ensures ToSegments([a, b, c]) == Ok([IntLength(DigitsValue(a)), IntLength(DigitsValue(b)), IntLength(DigitsValue(c))])
  {
    DigitPair(b, c);
    DigitSegment(a);
    var rest := [IntLength(DigitsValue(b)), IntLength(DigitsValue(c))];
    assert AllTokens([a, b, c]);
    assert [a, b, c][1..] == [b, c];
    assert ToSegments([a, b, c][1..]) == Ok(rest);
    assert [IntLength(DigitsValue(a))] + rest == [IntLength(DigitsValue(a)), IntLength(DigitsValue(b)), IntLength(DigitsValue(c))];
  }

  /** A digit string is a length token and becomes the integer it spells. */
  lemma DigitSegment(tok: string)
    requires tok != [] && AllDigits(tok)
    ensures IsToken(tok) && ToSegment(tok) == Ok(IntLength(DigitsValue(tok)))
  {
    forall i | 0 <= i < |tok| ensures IsNumChar(tok[i]) && tok[i] != '.' {
      assert IsDigit(tok[i]);
    }
  }

  /** The text of the mark in `ExampleTwo`. */
  lemma ExampleTwoText(toks: seq<string>)
    requires toks == ["45", "700"]
    ensures MarkText("9", toks, "50") == "#9-45+700x50"
  {
    assert JoinPlus(toks) == "45+700" by { assert toks[1..] == ["700"]; }
  }

  /** `#10-510.5x11` gives one float segment 510.5 and count 11. */
  lemma ExampleDecimal(text: string, toks: seq<string>)
    requires toks == ["510.5"] && text == MarkText("10", toks, "11")
    ensures ParseRebarMark(text) == Ok(Some(Mark("#10", [FloatLength(510.5)], 11)))
  {
    DecimalSegments(toks);
    DecimalNumerals();
    ParseSegmentsMark("10", toks, "11", [FloatLength(510.5)]);
  }

  lemma DecimalNumerals()
    ensures "10" != [] && AllDigits("10") && "11" != [] && AllDigits("11")
    ensures DigitsValue("11") == 11 && "#" + "10" == "#10"
  {
    assert "10" == NatToString(10) && "11" == NatToString(11);
  }

  /** A mark whose tokens convert to `segs` parses to those segments. */
  lemma ParseSegmentsMark(n: string, toks: seq<string>, c: string, segs: seq<Segment>)
    requires MarkGroups(n, toks, c) && ToSegments(toks) == Ok(segs)
    ensures ParseRebarMark(MarkText(n, toks, c)) == Ok(Some(Mark("#" + n, segs, DigitsValue(c))))
  {
    ParseMarkText(n, toks, c);
  }

  lemma DecimalSegments(toks: seq<string>)
    requires toks == ["510.5"]
    ensures AllTokens(toks) && ToSegments(toks) == Ok([FloatLength(510.5)])
  {
    DecimalSegment(toks[0]);
    assert toks[1..] == [];
    assert ToSegments(toks[1..]) == Ok([]);
    assert ToSegments(toks) == Ok([FloatLength(510.5)] + []);
    assert [FloatLength(510.5)] + [] == [FloatLength(510.5)];
  }

  lemma DecimalSegment(tok: string)
    requires tok == "510.5"
    ensures IsToken(tok) && ToSegment(tok) == Ok(FloatLength(510.5))
  {
    assert tok[3] == '.';
    ExampleFloat();
  }

  /** The text of the mark in `ExampleDecimal`. */
  lemma ExampleDecimalText(toks: seq<string>)
    requires toks == ["510.5"]
    ensures MarkText("10", toks, "11") == "#10-510.5x11"
  {
  }

  lemma ExampleFloat()
    ensures PyFloat("510.5") == Ok(510.5)
  {
    var s := "510.5";
    assert HasDigit(s) by { assert IsDigit(s[0]); }
    assert CountChar(s, '.') == 1 by {
      assert s[..4] == "510." && s[..4][..3] == "510" && "510"[..2] == "51" && "51"[..1] == "5";
    }
    assert IndexOf(s, '.') == 3 by {
      assert s[1..] == "10.5" && s[1..][1..] == "0.5" && s[1..][1..][1..] == ".5";
    }
    assert s[..3] == "510" && s[4..] == "5";
    assert DigitsValue("510") == 510 by { assert "510"[..2] == "51" && "51"[..1] == "5"; }
    assert DigitsValue("5") == 5;
  }

  /** A length token with two dots, such as `1.2.3`, passes the match but `float` raises. */
  lemma TwoDotsRaise(n: string, toks: seq<string>, c: string, i: nat)
    requires MarkGroups(n, toks, c) && i < |toks| && CountChar(toks[i], '.') > 1
    ensures ParseRebarMark(MarkText(n, toks, c)) == Raises(ValueError)
  {
    ParseMarkText(n, toks, c);
    assert '.' in toks[i];
    assert ToSegment(toks[i]).Raises?;
  }
}
