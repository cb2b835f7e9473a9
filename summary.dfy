// `get_rebar_summary`, which both rebar processor modules define the same
// way (they differ only in the grade reported for an unknown designation):
// one loop over the records that accumulates per-designation totals in a
// dictionary kept in first-seen order.

module Summary {
  import opened Common
  import opened Dict
  import opened BaseProcessor

  /** What the summary reads of a record: its designation and its optional length and weight. */
  datatype Item = Item(number: string, length: Option<real>, weight: Option<real>)

  /** One designation's totals: records seen, summed length and weight, and its lookups. */
  datatype Entry = Entry(count: nat, totalLength: real, totalWeight: real, diameter: real, grade: string)

  /** The item of a parsed record, which always carries its length and weight. */
  function ItemOf(rec: RebarRecord): Item
  {
    Item(rec.rebarNumber, Some(rec.length), Some(rec.weight))
  }

  /** `rebar.get(field, 0)`. */
  function OrZero(x: Option<real>): real
  {
    if x.Some? then x.value else 0.0
  }

  /** The grade lookup with the given default for designations missing from the table. */
  function GradeOr(t: Tables, number: string, unknown: string): (g: string)
    ensures number in t.grades ==> g == t.grades[number]
    ensures number !in t.grades ==> g == unknown
  {
    if number in t.grades then t.grades[number] else unknown
  }

  /** The entry a designation is given the first time it is seen. */
  function Initial(t: Tables, unknown: string, number: string): Entry
  {
    Entry(0, 0.0, 0.0, Diameter(t, number), GradeOr(t, number, unknown))
  }

  /** The entry a designation has so far, or its initial entry. */
  function Current(t: Tables, unknown: string, s: Entries<string, Entry>, number: string): Entry
  {
    match Get(s, number) case Some(e) => e case None => Initial(t, unknown, number)
  }

  /** The entry after adding one record, its length and its weight. */
  function Bump(e: Entry, it: Item): Entry
  {
    Entry(e.count + 1, e.totalLength + OrZero(it.length), e.totalWeight + OrZero(it.weight),
          e.diameter, e.grade)
  }

  /** One turn of the loop: create the entry if needed, then add the record to it. */
  function Step(t: Tables, unknown: string, s: Entries<string, Entry>, it: Item): Entries<string, Entry>
  {
    Put(s, it.number, Bump(Current(t, unknown, s, it.number), it))
  }

  /** The summary of a list of records: the loop's state after the last record. */
  function SummaryOf(t: Tables, unknown: string, items: seq<Item>): Entries<string, Entry>
  {
    if items == [] then [] else Step(t, unknown, SummaryOf(t, unknown, items[..|items| - 1]), items[|items| - 1])
  }

  /** `get_rebar_summary`. */
  method GetRebarSummary(t: Tables, unknown: string, items: seq<Item>) returns (s: Entries<string, Entry>)
    ensures s == SummaryOf(t, unknown, items)
    ensures DistinctKeys(s)
  {
    s := [];
    var i := 0;
    while i < |items|
      invariant 0 <= i <= |items|
      invariant s == SummaryOf(t, unknown, items[..i])
    {
      assert items[..i + 1][..i] == items[..i];
      s := Step(t, unknown, s, items[i]);
      i := i + 1;
    }
    assert items[..|items|] == items;
    SummaryDistinct(t, unknown, items);
  }

  // ---------------------------------------------------------------------------
  // Independent definitions of the totals, record by record

  /** The number of records with this designation. */
  function CountOf(items: seq<Item>, number: string): nat
  {
    if items == [] then 0
    else CountOf(items[..|items| - 1], number) + (if items[|items| - 1].number == number then 1 else 0)
  }

  /** The summed lengths of the records with this designation, a missing length counting 0. */
  function LengthOf(items: seq<Item>, number: string): real
  {
    if items == [] then 0.0
    else LengthOf(items[..|items| - 1], number)
         + (if items[|items| - 1].number == number then OrZero(items[|items| - 1].length) else 0.0)
  }

  /** The summed weights of the records with this designation, a missing weight counting 0. */
  function WeightOf(items: seq<Item>, number: string): real
  {
    if items == [] then 0.0
    else WeightOf(items[..|items| - 1], number)
         + (if items[|items| - 1].number == number then OrZero(items[|items| - 1].weight) else 0.0)
  }

  /** The designations in order of first appearance. */
  function FirstSeen(items: seq<Item>): seq<string>
  {
    if items == [] then []
    else
      var f := FirstSeen(items[..|items| - 1]);
      if items[|items| - 1].number in f then f else f + [items[|items| - 1].number]
  }

  /**
   * A designation has an entry iff some record carries it; its count is the
   * number of such records (not of bars), its totals are the sums of their
   * lengths and weights, and its diameter and grade are the lookups.
   */
  lemma {:induction false} SummaryGet(t: Tables, unknown: string, items: seq<Item>, number: string)
    ensures Get(SummaryOf(t, unknown, items), number)
            == if CountOf(items, number) == 0 then None
               else Some(Entry(CountOf(items, number), LengthOf(items, number), WeightOf(items, number),
                               Diameter(t, number), GradeOr(t, number, unknown)))
  {
    if items != [] {
      var front := items[..|items| - 1];
      var it := items[|items| - 1];
      SummaryGet(t, unknown, front, number);
      SummaryGet(t, unknown, front, it.number);
      if number == it.number {
        NoRecordsNoTotals(front, number);
        SummaryGetLast(t, unknown, items, number);
      } else {
        SummaryGetOther(t, unknown, items, number);
      }
    }
  }

  /** What `SummaryGet` states: the entry the records with this designation add up to. */
  function Expected(t: Tables, unknown: string, items: seq<Item>, number: string): Option<Entry>
  {
    if CountOf(items, number) == 0 then None
    else Some(Entry(CountOf(items, number), LengthOf(items, number), WeightOf(items, number),
                    Diameter(t, number), GradeOr(t, number, unknown)))
  }

  /** The last record's designation: its entry gains the record. */
  lemma SummaryGetLast(t: Tables, unknown: string, items: seq<Item>, number: string)
    requires items != [] && items[|items| - 1].number == number
    requires var front := items[..|items| - 1];
             Get(SummaryOf(t, unknown, front), number) == Expected(t, unknown, front, number)
             && (CountOf(front, number) == 0 ==> LengthOf(front, number) == 0.0 && WeightOf(front, number) == 0.0)
    ensures Get(SummaryOf(t, unknown, items), number) == Expected(t, unknown, items, number)
  {
    var front := items[..|items| - 1];
    var it := items[|items| - 1];
    var s := SummaryOf(t, unknown, front);
    var e := Current(t, unknown, s, number);
    CurrentSoFar(t, unknown, front, number);
    LastTotals(items, number);
    var e' := Bump(e, it);
    assert e' == Entry(CountOf(items, number), LengthOf(items, number), WeightOf(items, number),
                       Diameter(t, number), GradeOr(t, number, unknown));
    assert SummaryOf(t, unknown, items) == Put(s, number, e');
    PutGet(s, number, e', number);
    assert Expected(t, unknown, items, number) == Some(e');
  }

  /** The entry so far, created or found, holds the totals of the records so far. */
  lemma CurrentSoFar(t: Tables, unknown: string, front: seq<Item>, number: string)
    requires Get(SummaryOf(t, unknown, front), number) == Expected(t, unknown, front, number)
    requires CountOf(front, number) == 0 ==> LengthOf(front, number) == 0.0 && WeightOf(front, number) == 0.0
    ensures Current(t, unknown, SummaryOf(t, unknown, front), number)
            == Entry(CountOf(front, number), LengthOf(front, number), WeightOf(front, number),
                     Diameter(t, number), GradeOr(t, number, unknown))
  {
  }

  lemma LastTotals(items: seq<Item>, number: string)
    requires items != [] && items[|items| - 1].number == number
    ensures var front := items[..|items| - 1];
            var it := items[|items| - 1];
            && CountOf(items, number) == CountOf(front, number) + 1
            && LengthOf(items, number) == LengthOf(front, number) + OrZero(it.length)
            && WeightOf(items, number) == WeightOf(front, number) + OrZero(it.weight)
  {
  }

  /** Another designation: its entry is untouched by the last record. */
  lemma SummaryGetOther(t: Tables, unknown: string, items: seq<Item>, number: string)
    requires items != [] && items[|items| - 1].number != number
    requires var front := items[..|items| - 1];
             Get(SummaryOf(t, unknown, front), number) == Expected(t, unknown, front, number)
    ensures Get(SummaryOf(t, unknown, items), number) == Expected(t, unknown, items, number)
  {
    var front := items[..|items| - 1];
    var it := items[|items| - 1];
    var s := SummaryOf(t, unknown, front);
    var e' := Bump(Current(t, unknown, s, it.number), it);
    assert SummaryOf(t, unknown, items) == Put(s, it.number, e');
    PutGet(s, it.number, e', number);
    assert CountOf(items, number) == CountOf(front, number);
    assert LengthOf(items, number) == LengthOf(front, number);
    assert WeightOf(items, number) == WeightOf(front, number);
  }

  lemma {:induction false} NoRecordsNoTotals(items: seq<Item>, number: string)
    ensures CountOf(items, number) == 0 ==> LengthOf(items, number) == 0.0 && WeightOf(items, number) == 0.0
  {
    if items != [] {
      NoRecordsNoTotals(items[..|items| - 1], number);
    }
  }

  /** No designation appears twice in the summary. */
  lemma {:induction false} SummaryDistinct(t: Tables, unknown: string, items: seq<Item>)
    ensures DistinctKeys(SummaryOf(t, unknown, items))
  {
    if items != [] {
      var front := items[..|items| - 1];
      var it := items[|items| - 1];
      var s := SummaryOf(t, unknown, front);
      SummaryDistinct(t, unknown, front);
      PutDistinct(s, it.number, Bump(Current(t, unknown, s, it.number), it));
    }
  }

  lemma HasKeyKeys<K, V>(e: Entries<K, V>, k: K)
    ensures HasKey(e, k) <==> k in Keys(e)
  {
    if HasKey(e, k) {
      var i :| 0 <= i < |e| && e[i].0 == k;
      assert Keys(e)[i] == k;
    }
    if k in Keys(e) {
      var i :| 0 <= i < |Keys(e)| && Keys(e)[i] == k;
      assert e[i].0 == k;
    }
  }

  /** The summary lists the designations in the order they first appear. */
  lemma {:induction false} SummaryOrder(t: Tables, unknown: string, items: seq<Item>)
    ensures Keys(SummaryOf(t, unknown, items)) == FirstSeen(items)
  {
    if items != [] {
      var front := items[..|items| - 1];
      var it := items[|items| - 1];
      var s := SummaryOf(t, unknown, front);
      SummaryOrder(t, unknown, front);
      var e' := Bump(Current(t, unknown, s, it.number), it);
      assert SummaryOf(t, unknown, items) == Put(s, it.number, e');
      PutKeys(s, it.number, e');
      HasKeyKeys(s, it.number);
      if it.number in FirstSeen(front) {
        assert FirstSeen(items) == FirstSeen(front);
      } else {
        assert FirstSeen(items) == FirstSeen(front) + [it.number];
      }
    }
  }

  /** The counts add up to the number of records. */
  lemma {:induction false} CountsTotal(items: seq<Item>, number: string)
    ensures CountOf(items, number) <= |items|
    ensures CountOf(items, number) > 0 <==> exists i :: 0 <= i < |items| && items[i].number == number
  {
    if items != [] {
      var front := items[..|items| - 1];
      CountsTotal(front, number);
      if exists i :: 0 <= i < |front| && front[i].number == number {
        var i :| 0 <= i < |front| && front[i].number == number;
        assert items[i] == front[i];
      }
      if exists i :: 0 <= i < |items| && items[i].number == number {
        var i :| 0 <= i < |items| && items[i].number == number;
        if i < |front| { assert front[i] == items[i]; }
      }
    }
  }
}
