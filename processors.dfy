// The processor package: the five per-type processors seen through one
// kind, and the `PROCESSORS` registry, a dictionary from type name to
// processor shared by everyone who asks for it.

module Processors {
  import opened Common
  import opened Pattern
  import opened BaseProcessor
  import opened Dict
  import Type10Processor
  import Type11Processor
  import Type12Processor
  import Type18Processor
  import Type19Processor

  /** One of the processor classes. */
  datatype Kind = Type10 | Type11 | Type12 | Type18 | Type19

  /** The `rebar_type` a processor of this kind carries. */
  function TypeName(k: Kind): string
  {
    match k
    case Type10 => "type10"
    case Type11 => "type11"
    case Type12 => "type12"
    case Type18 => "type18"
    case Type19 => "type19"
  }

  /** `get_pattern`. */
  function PatternOf(k: Kind): Pat
  {
    match k
    case Type10 => Type10Processor.Pattern10
    case Type11 => Type11Processor.Pattern11
    case Type12 => Type12Processor.Pattern12
    case Type18 => Type18Processor.Pattern18
    case Type19 => Type19Processor.Pattern19
  }

  /** The literal every pattern of this kind starts with. */
  function Lead(k: Kind): char
  {
    match k
    case Type10 => '#'
    case Type11 => '安'
    case Type12 => 'V'
    case Type18 => '弧'
    case Type19 => '直'
  }

  /** `process` of a processor of this kind. */
  function Process(t: Tables, k: Kind, text: string): (r: Outcome<Option<RebarRecord>>)
    ensures r.Ok? && r.value.None? <==> !CanProcess(PatternOf(k), Strip(text))
    ensures r.Raises? ==> r.error == ValueError
    ensures r.Ok? && r.value.Some? ==>
              Consistent(t, r.value.value) && r.value.value.rawText == Strip(text)
              && r.value.value.rtype == TypeName(k)
  {
    match k
    case Type10 => Type10Processor.Process(t, text)
    case Type11 => Type11Processor.Process(t, text)
    case Type12 => Type12Processor.Process(t, text)
    case Type18 => Type18Processor.Process(t, text)
    case Type19 => Type19Processor.Process(t, text)
  }

  lemma MatchLead(p: Pat, s: string)
    requires p.Lit? && MatchAt(p, s).Some?
    ensures s != [] && s[0] == p.c
  {
  }

  /** A text a processor can handle starts with that processor's leading literal. */
  lemma LeadOf(k: Kind, s: string)
    requires CanProcess(PatternOf(k), s)
    ensures s != [] && s[0] == Lead(k)
  {
    assert PatternOf(k).Lit? && PatternOf(k).c == Lead(k);
    MatchLead(PatternOf(k), s);
  }

  /**
   * The patterns start with five different literals ('#', '安', 'V', '弧',
   * '直'), so at most one kind of processor can handle any text.
   */
  lemma AtMostOneKind(k1: Kind, k2: Kind, s: string)
    requires CanProcess(PatternOf(k1), s) && CanProcess(PatternOf(k2), s)
    ensures k1 == k2
  {
    LeadOf(k1, s);
    LeadOf(k2, s);
  }

  /** A processor that can handle stripped text yields a record or raises, never None. */
  lemma ProcessAccepted(t: Tables, k: Kind, s: string)
    requires Strip(s) == s && CanProcess(PatternOf(k), s)
    ensures Process(t, k, s).Raises? || Process(t, k, s).value.Some?
  {
  }

  /** The registry as `PROCESSORS` is initialised: type10, type11, type12, in that order. */
  const DefaultEntries: Entries<string, Kind> :=
    [("type10", Type10), ("type11", Type11), ("type12", Type12)]

  /** Every processor class, type18 and type19 included. */
  const AllEntries: Entries<string, Kind> :=
    DefaultEntries + [("type18", Type18), ("type19", Type19)]

  /** The registry's keys are exactly the three straight and bent types, each once. */
  lemma DefaultKeys()
    ensures Keys(DefaultEntries) == ["type10", "type11", "type12"]
    ensures DistinctKeys(DefaultEntries)
    ensures forall i :: 0 <= i < |DefaultEntries| ==> TypeName(DefaultEntries[i].1) == DefaultEntries[i].0
  {
  }

  /** The arc processors exist but are not registered. */
  lemma ArcKindsUnregistered()
    ensures forall i :: 0 <= i < |DefaultEntries| ==> DefaultEntries[i].1 !in {Type18, Type19}
    ensures forall i :: |DefaultEntries| <= i < |AllEntries| ==> AllEntries[i].1 in {Type18, Type19}
  {
  }

  /** The module-level dictionary every caller of `get_all_processors` shares. */
  class ProcessorTable {
    var entries: Entries<string, Kind>

    constructor()
      ensures entries == DefaultEntries
    {
      entries := DefaultEntries;
    }
  }

  /** `get_processor`: `PROCESSORS.get(rebar_type)`. */
  function GetProcessor(table: ProcessorTable, key: string): (r: Option<Kind>)
    reads table
    ensures r.None? <==> !HasKey(table.entries, key)
    ensures r.Some? ==> (key, r.value) in table.entries
  {
    Get(table.entries, key)
  }

  /** On the initial registry, `get_processor` finds the three registered types and nothing else. */
  lemma GetProcessorDefault(key: string)
    ensures Get(DefaultEntries, key)
            == if key == "type10" then Some(Type10)
               else if key == "type11" then Some(Type11)
               else if key == "type12" then Some(Type12)
               else None
  {
    assert DefaultEntries[1..] == [("type11", Type11), ("type12", Type12)];
    assert DefaultEntries[1..][1..] == [("type12", Type12)];
  }
}
