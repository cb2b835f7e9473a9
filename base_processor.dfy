// The behaviour every per-type processor shares: the designation lookups in
// the configuration tables, the weight formula, and the anchored match that
// `can_process` and `process` perform.

module BaseProcessor {
  import opened Common
  import opened Pattern

  /**
   * The configuration tables a processor reads: unit weight (kg/m),
   * diameter (mm) and material grade per designation such as "#4".
   */
  datatype Tables = Tables(unitWeight: map<string, real>, diameters: map<string, real>,
                           grades: map<string, string>)

  /** Grade reported for a designation missing from the grade table. */
  const UnknownGrade: string := "未知"

  /** One parsed call-out: the dictionary a processor returns. */
  datatype RebarRecord = RebarRecord(
    rebarNumber: string,
    segments: seq<real>,
    angles: seq<nat>,
    radius: Option<nat>,
    count: nat,
    rawText: string,
    length: real,
    weight: real,
    rtype: string,
    note: string)

  /**
   * What every processor's record satisfies: the length is the sum of the
   * segments, the weight is the base formula on that length and count, and
   * there are fewer bend angles than segments.
   */
  predicate Consistent(t: Tables, rec: RebarRecord)
  {
    rec.length == SumReals(rec.segments)
    && rec.weight == CalculateWeight(t, rec.rebarNumber, rec.length, rec.count)
    && |rec.angles| < |rec.segments|
  }

  function Diameter(t: Tables, number: string): (d: real)
    ensures number in t.diameters ==> d == t.diameters[number]
    ensures number !in t.diameters ==> d == 0.0
  {
    if number in t.diameters then t.diameters[number] else 0.0
  }

  function UnitWeight(t: Tables, number: string): (w: real)
    ensures number in t.unitWeight ==> w == t.unitWeight[number]
    ensures number !in t.unitWeight ==> w == 0.0
  {
    if number in t.unitWeight then t.unitWeight[number] else 0.0
  }

  function Grade(t: Tables, number: string): (g: string)
    ensures number in t.grades ==> g == t.grades[number]
    ensures number !in t.grades ==> g == UnknownGrade
  {
    if number in t.grades then t.grades[number] else UnknownGrade
  }

  /** Weight in kg: unit weight times length times count, over 100. */
  function CalculateWeight(t: Tables, number: string, length: real, count: int): real
  {
    UnitWeight(t, number) * length * count as real / 100.0
  }

  predicate NonNegativeWeights(t: Tables)
  {
    forall k :: k in t.unitWeight ==> t.unitWeight[k] >= 0.0
  }

  /** An unknown designation has diameter 0, unit weight 0, grade "未知" and weighs nothing. */
  lemma UnknownDesignation(t: Tables, number: string, length: real, count: int)
    requires number !in t.unitWeight && number !in t.diameters && number !in t.grades
    ensures Diameter(t, number) == 0.0 && UnitWeight(t, number) == 0.0
    ensures Grade(t, number) == UnknownGrade
    ensures CalculateWeight(t, number, length, count) == 0.0
  {
  }

  /** The weight is non-negative for non-negative table values, length and count. */
  lemma WeightNonNegative(t: Tables, number: string, length: real, count: int)
    requires NonNegativeWeights(t) && length >= 0.0 && count >= 0
    ensures CalculateWeight(t, number, length, count) >= 0.0
  {
    var u := UnitWeight(t, number);
    assert u >= 0.0;
    assert u * length >= 0.0;
    assert u * length * count as real >= 0.0;
  }

  /** The weight of `count` bars is `count` times the weight with the default count of 1. */
  lemma WeightPerBar(t: Tables, number: string, length: real, count: int)
    ensures CalculateWeight(t, number, length, count)
            == count as real * CalculateWeight(t, number, length, 1)
  {
  }

  /** `can_process`: the pattern matches at the start of the text as given. */
  predicate CanProcess(p: Pat, text: string)
  {
    MatchAt(p, text).Some?
  }

  /**
   * The first half of `process`: strip the text, then match. The groups and
   * the stripped text, when the pattern matches, go on to `parse_match`.
   */
  function MatchStripped(p: Pat, text: string): (r: Option<(seq<string>, string)>)
    ensures r.Some? <==> CanProcess(p, Strip(text))
    ensures r.Some? ==> r.value.1 == Strip(text) && ValidCaps(p, r.value.0)
                        && |r.value.0| == NumRuns(p)
                        && StartsWith(r.value.1, Render(p, r.value.0))
  {
    var s := Strip(text);
    var caps :- MatchAt(p, s);
    MatchSound(p, s);
    Some((caps, s))
  }

  lemma MatchStrippedOf(p: Pat, text: string, caps: seq<string>)
    requires Strip(text) == text && MatchAt(p, text) == Some(caps)
    ensures MatchStripped(p, text) == Some((caps, text))
  {
  }

  lemma MatchStrippedNone(p: Pat, text: string)
    requires Strip(text) == text && MatchAt(p, text).None?
    ensures MatchStripped(p, text).None?
  {
  }

  /**
   * `process` strips but `can_process` does not: a pattern that starts with a
   * visible character rejects padded text that `process` still accepts.
   */
  lemma StripOnlyInProcess(p: Pat, pre: string, s: string, post: string)
    requires p.Lit? && !IsSpace(p.c)
    requires pre != [] && forall k :: 0 <= k < |pre| ==> IsSpace(pre[k])
    requires forall k :: 0 <= k < |post| ==> IsSpace(post[k])
    requires s != [] && !IsSpace(s[0]) && !IsSpace(s[|s| - 1])
    ensures !CanProcess(p, pre + s + post)
    ensures MatchStripped(p, pre + s + post) == MatchStripped(p, s)
  {
    assert (pre + s + post)[0] == pre[0];
    StripPadded(pre, s, post);
    StripUnchanged(s);
  }
}
