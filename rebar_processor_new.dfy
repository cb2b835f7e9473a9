// The coordinating `RebarProcessor` of the modular design: it holds the
// shared processor registry, tries the processors in registry order, and
// offers the static lookups, weight and summary helpers.

module RebarProcessorNew {
  import opened Common
  import opened Pattern
  import opened BaseProcessor
  import opened Dict
  import opened Processors
  import Summary
  import Type18Processor

  /**
   * The first registered processor, in registry order, that can handle the
   * stripped text decides: its record, or the ValueError its `process`
   * raises; when none can, None.
   */
  function Dispatch(t: Tables, es: Entries<string, Kind>, s: string): Outcome<Option<RebarRecord>>
  {
    if es == [] then Ok(None)
    else if CanProcess(PatternOf(es[0].1), s) then
      match Process(t, es[0].1, s)
      case Raises(e) => Raises(e)
      case Ok(None) => Dispatch(t, es[1..], s)
      case Ok(Some(rec)) => Ok(Some(rec))
    else Dispatch(t, es[1..], s)
  }

  class RebarProcessor {
    /** `self.processors`: the registry object itself, not a copy. */
    const processors: ProcessorTable

    constructor(registry: ProcessorTable)
      ensures processors == registry
    {
      processors := registry;
    }

    /** `parse_rebar_text`: strip, then try every processor in order and return the first result. */
    method ParseRebarText(t: Tables, text: string) returns (r: Outcome<Option<RebarRecord>>)
      ensures r == Dispatch(t, processors.entries, Strip(text))
    {
      var s := Strip(text);
      var es := processors.entries;
      var i := 0;
      while i < |es|
        invariant 0 <= i <= |es|
        invariant Dispatch(t, es, s) == Dispatch(t, es[i..], s)
      {
        var k := es[i].1;
        if CanProcess(PatternOf(k), s) {
          var res := Process(t, k, s);
          if res.Raises? || res.value.Some? {
            return res;
          }
        }
        assert es[i..][1..] == es[i + 1..];
        i := i + 1;
      }
      return Ok(None);
    }

    /** `get_supported_types`: the registry's keys, in order. */
    function GetSupportedTypes(): (ks: seq<string>)
      reads processors
      ensures |ks| == |processors.entries|
      ensures forall i :: 0 <= i < |ks| ==> ks[i] == processors.entries[i].0
    {
      Keys(processors.entries)
    }

    /** `add_processor`: insert or overwrite one key of the shared registry. */
    method AddProcessor(key: string, k: Kind)
      modifies processors
      ensures processors.entries == Put(old(processors.entries), key, k)
    {
      processors.entries := Put(processors.entries, key, k);
    }

    /** `remove_processor`: delete a key of the shared registry if it is there. */
    method RemoveProcessor(key: string)
      modifies processors
      ensures processors.entries
              == if HasKey(old(processors.entries), key) then Delete(old(processors.entries), key)
                 else old(processors.entries)
    {
      if HasKey(processors.entries, key) {
        processors.entries := Delete(processors.entries, key);
      }
    }
  }

  // ---------------------------------------------------------------------------
  // What dispatch computes

  /** One step of dispatch on stripped text: a processor that can handle it decides. */
  lemma DispatchStep(t: Tables, es: Entries<string, Kind>, s: string)
    requires Strip(s) == s && es != []
    ensures CanProcess(PatternOf(es[0].1), s) ==> Dispatch(t, es, s) == Process(t, es[0].1, s)
                                                  && Dispatch(t, es, s) != Ok(None)
    ensures !CanProcess(PatternOf(es[0].1), s) ==> Dispatch(t, es, s) == Dispatch(t, es[1..], s)
  {
    if CanProcess(PatternOf(es[0].1), s) {
      ProcessAccepted(t, es[0].1, s);
    }
  }

  /** No processor of the registry can handle the text. */
  predicate NoneAccepts(es: Entries<string, Kind>, s: string)
  {
    forall i :: 0 <= i < |es| ==> !CanProcess(PatternOf(es[i].1), s)
  }

  lemma NoneAcceptsCons(es: Entries<string, Kind>, s: string)
    requires es != []
    ensures NoneAccepts(es, s) <==> !CanProcess(PatternOf(es[0].1), s) && NoneAccepts(es[1..], s)
  {
    assert forall i :: 1 <= i < |es| ==> es[i] == es[1..][i - 1];
  }

  /** Dispatch yields None exactly when no registered processor can handle the text. */
  lemma {:induction false} DispatchNone(t: Tables, es: Entries<string, Kind>, s: string)
    requires Strip(s) == s
    ensures Dispatch(t, es, s) == Ok(None) <==> NoneAccepts(es, s)
  {
    if es != [] {
      DispatchNone(t, es[1..], s);
      DispatchStep(t, es, s);
      NoneAcceptsCons(es, s);
    }
  }

  /**
   * When a registered processor can handle the text, dispatch gives exactly
   * that processor's result, wherever it sits in the registry: the patterns
   * exclude each other, so the order of the registry does not matter.
   */
  lemma {:induction false} DispatchAgrees(t: Tables, es: Entries<string, Kind>, s: string, i: nat)
    requires Strip(s) == s
    requires i < |es| && CanProcess(PatternOf(es[i].1), s)
    ensures Dispatch(t, es, s) == Process(t, es[i].1, s)
  {
    if CanProcess(PatternOf(es[0].1), s) {
      AtMostOneKind(es[0].1, es[i].1, s);
    } else {
      assert i != 0;
      LaterEntry(es, i);
      DispatchAgrees(t, es[1..], s, i - 1);
    }
    DispatchStep(t, es, s);
  }

  /** An entry other than the first is an entry of the rest. */
  lemma LaterEntry(es: Entries<string, Kind>, i: nat)
    requires 0 < i < |es|
    ensures es[1..][i - 1] == es[i]
  {
  }

  /** On the initial registry, dispatch never yields a type18 or type19 record. */
  lemma DefaultDispatchTypes(t: Tables, s: string)
    ensures Dispatch(t, DefaultEntries, s).Ok? && Dispatch(t, DefaultEntries, s).value.Some? ==>
              Dispatch(t, DefaultEntries, s).value.value.rtype in ["type10", "type11", "type12"]
  {
    DispatchTypeIn(t, DefaultEntries, s);
    assert TypeNames(DefaultEntries) == ["type10", "type11", "type12"];
  }

  /** The `rebar_type` of every registered processor, in registry order. */
  function TypeNames(es: Entries<string, Kind>): (r: seq<string>)
    ensures |r| == |es| && forall i :: 0 <= i < |es| ==> r[i] == TypeName(es[i].1)
  {
    if es == [] then [] else [TypeName(es[0].1)] + TypeNames(es[1..])
  }

  /** A record that dispatch yields comes from one of the registered processors. */
  lemma {:induction false} DispatchTypeIn(t: Tables, es: Entries<string, Kind>, s: string)
    ensures Dispatch(t, es, s).Ok? && Dispatch(t, es, s).value.Some? ==>
              Dispatch(t, es, s).value.value.rtype in TypeNames(es)
  {
    if es != [] {
      DispatchTypeIn(t, es[1..], s);
      assert TypeNames(es) == [TypeName(es[0].1)] + TypeNames(es[1..]);
    }
  }

  /** With the initial registry an arc call-out such as `弧450#10-700x1` is not parsed. */
  lemma ArcTextUnparsed(t: Tables, text: string)
    requires Strip(text) != [] && Strip(text)[0] == '弧'
    ensures Dispatch(t, DefaultEntries, Strip(text)) == Ok(None)
  {
    var s := Strip(text);
    StripIdempotent(text);
    forall i | 0 <= i < |DefaultEntries|
      ensures !CanProcess(PatternOf(DefaultEntries[i].1), s)
    {
      if CanProcess(PatternOf(DefaultEntries[i].1), s) {
        LeadOf(DefaultEntries[i].1, s);
      }
    }
    DispatchNone(t, DefaultEntries, s);
  }

  /** With every processor registered, `弧450#10-700x1` gives the type18 record. */
  lemma ArcTextParsedWithAll(t: Tables, text: string)
    requires text == "弧450#10-700x1"
    ensures Dispatch(t, AllEntries, text) == Type18Processor.Process(t, text)
    ensures Dispatch(t, AllEntries, text).Ok? && Dispatch(t, AllEntries, text).value.Some?
    ensures Dispatch(t, AllEntries, text).value.value.radius == Some(450)
  {
    ArcTextFacts(t, text);
    ArcRecordWithAll(t, text);
  }

  /** With every processor registered, a text the arc processor turns into a record is dispatched to it. */
  lemma ArcRecordWithAll(t: Tables, s: string)
    requires Strip(s) == s
    requires Type18Processor.Process(t, s).Ok? && Type18Processor.Process(t, s).value.Some?
    ensures Dispatch(t, AllEntries, s) == Type18Processor.Process(t, s)
  {
    assert |AllEntries| == 5 && AllEntries[3].1 == Type18;
    RecordAtFourth(t, AllEntries, s);
  }

  /** The arc call-out has no surrounding blanks, and the arc processor reads its radius. */
  lemma ArcTextFacts(t: Tables, text: string)
    requires text == "弧450#10-700x1"
    ensures Strip(text) == text
    ensures Type18Processor.Process(t, text).Ok? && Type18Processor.Process(t, text).value.Some?
    ensures Type18Processor.Process(t, text).value.value.radius == Some(450)
  {
    Type18Processor.Example(t, text);
    assert text[0] == '弧' && text[|text| - 1] == '1';
    StripUnchanged(text);
  }

  /** A text the fourth processor, an arc one, turns into a record is dispatched to it. */
  lemma RecordAtFourth(t: Tables, es: Entries<string, Kind>, s: string)
    requires Strip(s) == s && |es| > 3 && es[3].1 == Type18
    requires Type18Processor.Process(t, s).Ok? && Type18Processor.Process(t, s).value.Some?
    ensures Dispatch(t, es, s) == Type18Processor.Process(t, s)
  {
    assert Process(t, Type18, s) == Type18Processor.Process(t, s);
    DispatchAgrees(t, es, s, 3);
  }

  // ---------------------------------------------------------------------------
  // Static helpers

  /** `calculate_rebar_weight`: unit weight times length times count, with no division by 100. */
  function CalculateRebarWeight(t: Tables, number: string, length: real, count: int): (w: real)
    ensures w == 100.0 * CalculateWeight(t, number, length, count)
  {
    UnitWeight(t, number) * length * count as real
  }

  /** `validate_rebar_number`: the designation is a key of the unit-weight table. */
  predicate ValidateRebarNumber(t: Tables, number: string)
  {
    number in t.unitWeight
  }

  /** A designation that does not validate weighs nothing, under either formula. */
  lemma InvalidWeighsNothing(t: Tables, number: string, length: real, count: int)
    requires !ValidateRebarNumber(t, number)
    ensures CalculateRebarWeight(t, number, length, count) == 0.0
    ensures CalculateWeight(t, number, length, count) == 0.0
  {
  }

  /** `get_rebar_summary` of this module: unknown designations get the grade "未知". */
  method GetRebarSummary(t: Tables, items: seq<Summary.Item>) returns (s: Entries<string, Summary.Entry>)
    ensures s == Summary.SummaryOf(t, UnknownGrade, items)
    ensures forall i :: 0 <= i < |s| ==> s[i].1.grade == Grade(t, s[i].0)
  {
    s := Summary.GetRebarSummary(t, UnknownGrade, items);
    forall i | 0 <= i < |s|
      ensures s[i].1.grade == Grade(t, s[i].0)
    {
      Summary.SummaryGet(t, UnknownGrade, items, s[i].0);
      GetFirst(s, i);
    }
  }

  lemma GetFirst<K, V>(e: Entries<K, V>, i: nat)
    requires DistinctKeys(e) && i < |e|
    ensures Get(e, e[i].0) == Some(e[i].1)
  {
    if i > 0 {
      assert e[0].0 != e[i].0;
      assert e[1..][i - 1] == e[i];
      GetFirst(e[1..], i - 1);
    }
  }

  /**
   * Every instance reads and writes the same registry: a processor added
   * through one instance is found through another.
   */
  method SharedRegistry(registry: ProcessorTable, key: string, k: Kind) returns (seen: Option<Kind>)
    modifies registry
    ensures seen == Some(k)
    ensures registry.entries == Put(old(registry.entries), key, k)
  {
    var a := new RebarProcessor(registry);
    var b := new RebarProcessor(registry);
    a.AddProcessor(key, k);
    PutGet(old(registry.entries), key, k, key);
    seen := GetProcessor(b.processors, key);
  }
}
