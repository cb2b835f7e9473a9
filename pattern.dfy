// The anchored regular expressions of the per-type rebar processors
// (`re.match`: anchored at the start, trailing text ignored), as a small
// scanner over a chain of atoms.
//
// A pattern here is a chain of literal characters and greedy runs,
// `\d+` (Digits) or `[\d\.]+` (Num); each run is one capture group.
// In every modelled pattern a run is followed by a literal outside its class
// (or ends the pattern), so giving back characters of a run can never let the
// next literal match: the greedy scan below is exactly Python's backtracking
// match on these patterns.

module Pattern {
  import opened Common

  datatype Class = Digits | Num

  datatype Pat = End | Lit(c: char, next: Pat) | Run(cls: Class, next: Pat)

  /** Whether `c` belongs to a run's character class. */
  predicate InClass(cls: Class, c: char)
  {
    match cls
    case Digits => IsDigit(c)
    case Num => IsNumChar(c)
  }

  predicate AllIn(cls: Class, s: string)
  {
    forall i :: 0 <= i < |s| ==> InClass(cls, s[i])
  }

  /** Literal atoms for every character of `s`, followed by `next`. */
  function Lits(s: string, next: Pat): Pat
  {
    if s == [] then next else Lit(s[0], Lits(s[1..], next))
  }

  /** Every run is followed by a literal outside its class, or ends the pattern. */
  predicate WellFormed(p: Pat)
  {
    match p
    case End => true
    case Lit(_, n) => WellFormed(n)
    case Run(cls, n) => (n.End? || (n.Lit? && !InClass(cls, n.c))) && WellFormed(n)
  }

  /** The number of capture groups. */
  function NumRuns(p: Pat): nat
  {
    match p
    case End => 0
    case Lit(_, n) => NumRuns(n)
    case Run(_, n) => 1 + NumRuns(n)
  }

  /** Length of the longest prefix of `t` inside class `cls`. */
  function RunLen(cls: Class, t: string): (k: nat)
    ensures k <= |t| && AllIn(cls, t[..k])
    ensures k < |t| ==> !InClass(cls, t[k])
  {
    if t != [] && InClass(cls, t[0]) then
      var k := 1 + RunLen(cls, t[1..]);
      assert t[..k] == [t[0]] + t[1..][..k - 1];
      k
    else 0
  }

  /** `re.search(p, t)` from position `i`: the leftmost position where `p` matches, and its groups. */
  function SearchFrom(p: Pat, t: string, i: nat): (r: Option<(nat, seq<string>)>)
    requires i <= |t|
    ensures r.Some? ==> i <= r.value.0 <= |t| && MatchAt(p, t[r.value.0..]) == Some(r.value.1)
                        && forall k :: i <= k < r.value.0 ==> MatchAt(p, t[k..]).None?
    ensures r.None? ==> forall k :: i <= k <= |t| ==> MatchAt(p, t[k..]).None?
    decreases |t| - i
  {
    match MatchAt(p, t[i..])
    case Some(caps) => Some((i, caps))
    case None => if i == |t| then None else SearchFrom(p, t, i + 1)
  }

  /** `re.match(p, t)`: the captured groups when `p` matches at the start of `t`. */
  function MatchAt(p: Pat, t: string): Option<seq<string>>
  {
    match p
    case End => Some([])
    case Lit(c, n) =>
      if t != [] && t[0] == c then MatchAt(n, t[1..]) else None
    case Run(cls, n) =>
      var k := RunLen(cls, t);
      if k == 0 then None
      else
        var rest :- MatchAt(n, t[k..]);
        Some([t[..k]] + rest)
  }

  /** The text a pattern spells out for the given groups. */
  function Render(p: Pat, caps: seq<string>): string
    requires |caps| == NumRuns(p)
  {
    match p
    case End => []
    case Lit(c, n) => [c] + Render(n, caps)
    case Run(_, n) => caps[0] + Render(n, caps[1..])
  }

  /** Groups that the pattern's runs could capture: non-empty and inside their classes. */
  predicate ValidCaps(p: Pat, caps: seq<string>)
  {
    match p
    case End => caps == []
    case Lit(_, n) => ValidCaps(n, caps)
    case Run(cls, n) => caps != [] && caps[0] != [] && AllIn(cls, caps[0]) && ValidCaps(n, caps[1..])
  }

  /** What follows the matched text does not extend a final run. */
  predicate Stops(p: Pat, rest: string)
  {
    match p
    case End => true
    case Lit(_, n) => Stops(n, rest)
    case Run(cls, n) => if n.End? then rest == [] || !InClass(cls, rest[0]) else Stops(n, rest)
  }

  /** The class of the run that ends the pattern, if it ends with a run. */
  function FinalRun(p: Pat): Option<Class>
  {
    match p
    case End => None
    case Lit(_, n) => FinalRun(n)
    case Run(cls, n) => if n.End? then Some(cls) else FinalRun(n)
  }

  lemma {:induction false} StopsFinal(p: Pat, rest: string)
    ensures Stops(p, rest)
            <==> FinalRun(p).None? || rest == [] || !InClass(FinalRun(p).value, rest[0])
  {
    match p
    case End =>
    case Lit(_, n) => StopsFinal(n, rest);
    case Run(cls, n) => if !n.End? { StopsFinal(n, rest); }
  }

  /** The classes of the runs, in order: one per capture group. */
  function Classes(p: Pat): (cs: seq<Class>)
    ensures |cs| == NumRuns(p)
  {
    match p
    case End => []
    case Lit(_, n) => Classes(n)
    case Run(cls, n) => [cls] + Classes(n)
  }

  /** Valid groups, one per run, each non-empty and inside its run's class. */
  lemma {:induction false} ValidCapsClasses(p: Pat, caps: seq<string>)
    requires ValidCaps(p, caps)
    ensures |caps| == |Classes(p)|
    ensures forall j :: 0 <= j < |caps| ==> caps[j] != [] && AllIn(Classes(p)[j], caps[j])
  {
    match p
    case End =>
    case Lit(_, n) => ValidCapsClasses(n, caps);
    case Run(cls, n) =>
      ValidCapsClasses(n, caps[1..]);
      assert forall j :: 1 <= j < |caps| ==> caps[j] == caps[1..][j - 1];
  }

  /** Conversely, one non-empty group inside each run's class is valid. */
  lemma {:induction false} ClassesValid(p: Pat, caps: seq<string>)
    requires |caps| == |Classes(p)|
    requires forall j :: 0 <= j < |caps| ==> caps[j] != [] && AllIn(Classes(p)[j], caps[j])
    ensures ValidCaps(p, caps)
  {
    match p
    case End =>
    case Lit(_, n) => ClassesValid(n, caps);
    case Run(cls, n) =>
      RunClasses(cls, n, caps);
      ClassesValid(n, caps[1..]);
  }

  /** Groups fitting a run and what follows it: the first fits the run, the rest what follows. */
  lemma RunClasses(cls: Class, n: Pat, caps: seq<string>)
    requires |caps| == |Classes(Run(cls, n))|
    requires forall j :: 0 <= j < |caps| ==> caps[j] != [] && AllIn(Classes(Run(cls, n))[j], caps[j])
    ensures caps != [] && caps[0] != [] && AllIn(cls, caps[0])
    ensures |caps[1..]| == |Classes(n)|
    ensures forall j :: 0 <= j < |caps[1..]| ==> caps[1..][j] != [] && AllIn(Classes(n)[j], caps[1..][j])
  {
    var cs := Classes(Run(cls, n));
    assert cs == [cls] + Classes(n);
    assert cs[0] == cls;
    forall j | 0 <= j < |caps[1..]|
      ensures caps[1..][j] != [] && AllIn(Classes(n)[j], caps[1..][j])
    {
      assert caps[1..][j] == caps[j + 1];
      assert cs[j + 1] == Classes(n)[j];
    }
  }

  /** Literal atoms add no group and accept the same groups as what follows them. */
  lemma {:induction false} LitsValid(s: string, n: Pat, caps: seq<string>)
    ensures ValidCaps(Lits(s, n), caps) <==> ValidCaps(n, caps)
    ensures NumRuns(Lits(s, n)) == NumRuns(n)
  {
    if s != [] {
      LitsValid(s[1..], n, caps);
    }
  }

  /** Literal atoms match exactly their own characters at the start of the text. */
  lemma {:induction false} MatchLits(s: string, n: Pat, t: string)
    ensures MatchAt(Lits(s, n), t) == if StartsWith(t, s) then MatchAt(n, t[|s|..]) else None
  {
    if s == [] {
      assert t[0..] == t;
    } else if t != [] && t[0] == s[0] {
      MatchLits(s[1..], n, t[1..]);
      assert StartsWith(t, s) <==> StartsWith(t[1..], s[1..]) by {
        if |s| <= |t| {
          assert t[..|s|] == [t[0]] + t[1..][..|s| - 1];
          assert s == [s[0]] + s[1..];
        }
      }
      if StartsWith(t, s) {
        assert t[1..][|s| - 1..] == t[|s|..];
      }
    } else {
      assert !StartsWith(t, s) by {
        if |s| <= |t| { assert t[..|s|][0] == t[0]; }
      }
    }
  }

  /** One matching step over a literal. */
  lemma MatchLitStep(c: char, n: Pat, t: string)
    requires t != [] && t[0] == c
    ensures MatchAt(Lit(c, n), t) == MatchAt(n, t[1..])
  {
  }

  /** One matching step over a run that consumes exactly `x`. */
  lemma MatchRunStep(cls: Class, n: Pat, x: string, y: string)
    requires x != [] && AllIn(cls, x) && (y == [] || !InClass(cls, y[0]))
    ensures MatchAt(Run(cls, n), x + y)
            == match MatchAt(n, y) case None => None case Some(r) => Some([x] + r)
  {
    RunLenExact(cls, x, y);
    assert (x + y)[..|x|] == x && (x + y)[|x|..] == y;
  }

  lemma ValidCapsCount(p: Pat, caps: seq<string>)
    requires ValidCaps(p, caps)
    ensures |caps| == NumRuns(p)
  {
  }

  lemma {:induction false} RunLenExact(cls: Class, x: string, y: string)
    requires AllIn(cls, x)
    requires y == [] || !InClass(cls, y[0])
    ensures RunLen(cls, x + y) == |x|
    decreases |x|
  {
    if x == [] {
      assert x + y == y;
    } else {
      assert (x + y)[1..] == x[1..] + y;
      RunLenExact(cls, x[1..], y);
    }
  }

  /**
   * Round trip: the text rendered from valid groups, followed by anything
   * that does not continue a final run, matches with exactly those groups.
   */
  lemma {:induction false} MatchRender(p: Pat, caps: seq<string>, rest: string)
    requires WellFormed(p) && ValidCaps(p, caps) && Stops(p, rest)
    ensures |caps| == NumRuns(p)
    ensures MatchAt(p, Render(p, caps) + rest) == Some(caps)
  {
    ValidCapsCount(p, caps);
    match p
    case End =>
    case Lit(c, n) =>
      assert ([c] + Render(n, caps) + rest)[1..] == Render(n, caps) + rest;
      MatchRender(n, caps, rest);
    case Run(cls, n) =>
      var t := Render(p, caps) + rest;
      var after := Render(n, caps[1..]) + rest;
      assert t == caps[0] + after;
      assert after == [] || !InClass(cls, after[0]) by {
        if n.Lit? {
          assert Render(n, caps[1..])[0] == n.c;
        } else {
          assert Render(n, caps[1..]) == [];
        }
      }
      RunLenExact(cls, caps[0], after);
      assert t[|caps[0]|..] == after;
      assert t[..|caps[0]|] == caps[0];
      assert Stops(n, rest) by {
        if !n.End? {
          assert Stops(p, rest) == Stops(n, rest);
        }
      }
      MatchRender(n, caps[1..], rest);
      assert caps == [caps[0]] + caps[1..];
  }

  /**
   * Soundness: a match spells out its groups at the start of the text,
   * the groups are valid and the text after them does not continue a final run.
   */
  lemma {:induction false} MatchSound(p: Pat, t: string)
    requires MatchAt(p, t).Some?
    ensures var caps := MatchAt(p, t).value;
      ValidCaps(p, caps) && |caps| == NumRuns(p)
      && StartsWith(t, Render(p, caps)) && Stops(p, t[|Render(p, caps)|..])
  {
    var caps := MatchAt(p, t).value;
    match p
    case End =>
    case Lit(c, n) =>
      MatchSound(n, t[1..]);
      var r := Render(n, caps);
      assert Render(p, caps) == [c] + r;
      assert t[1..][..|r|] == r;
      assert t[..|r| + 1] == [t[0]] + t[1..][..|r|];
      assert t[|r| + 1..] == t[1..][|r|..];
    case Run(cls, n) =>
      var k := RunLen(cls, t);
      MatchSound(n, t[k..]);
      var tailCaps := MatchAt(n, t[k..]).value;
      assert caps == [t[..k]] + tailCaps;
      assert caps[1..] == tailCaps;
      var r := Render(n, tailCaps);
      assert Render(p, caps) == t[..k] + r;
      assert t[k..][..|r|] == r;
      assert t[..k + |r|] == t[..k] + t[k..][..|r|];
      assert t[k + |r|..] == t[k..][|r|..];
      if n.End? {
        assert r == [];
      }
  }

  /** Together: for a well-formed pattern, a match is exactly a rendering of valid groups. */
  lemma MatchIff(p: Pat, caps: seq<string>, t: string)
    requires WellFormed(p) && ValidCaps(p, caps)
    ensures |caps| == NumRuns(p)
    ensures MatchAt(p, t) == Some(caps)
            <==> StartsWith(t, Render(p, caps)) && Stops(p, t[|Render(p, caps)|..])
  {
    ValidCapsCount(p, caps);
    var r := Render(p, caps);
    if StartsWith(t, r) && Stops(p, t[|r|..]) {
      assert t == r + t[|r|..];
      MatchRender(p, caps, t[|r|..]);
    }
    if MatchAt(p, t) == Some(caps) {
      MatchSound(p, t);
    }
  }

  /** The search finds the leftmost matching position, with its groups. */
  lemma SearchFirst(p: Pat, t: string, j: nat, caps: seq<string>)
    requires j <= |t| && MatchAt(p, t[j..]) == Some(caps)
    requires forall k :: 0 <= k < j ==> MatchAt(p, t[k..]).None?
    ensures SearchFrom(p, t, 0) == Some((j, caps))
  {
  }
}
