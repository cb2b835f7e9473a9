// The drawing reader: call-out texts from TEXT and MTEXT entities, zone
// frames from `$P-` polylines, the ray-casting point-in-polygon test and the
// grouping of every call-out into the first zone that contains it.
//
// The reader parses with the legacy single-file processor, so the text parser
// is `LegacyRebarProcessor.ParseRebarText` under a `Literals` parameter (the
// file's literals as stored are `LegacyRebarProcessor.AsWritten`).

module CadReader {
  import opened Common
  import opened BaseProcessor
  import opened Dict
  import Legacy = LegacyRebarProcessor
  import Summary

  /** A polygon vertex `(x, y)`. */
  type Point = (real, real)

  /** An insertion point; it is falsy exactly when all three coordinates are zero. */
  datatype Vec3 = Vec3(x: real, y: real, z: real)

  predicate Truthy(p: Vec3)
  {
    p.x != 0.0 || p.y != 0.0 || p.z != 0.0
  }

  /** A TEXT or MTEXT entity (or one line of an MTEXT): text, insertion point, rotation. */
  datatype TextEntity = TextEntity(text: string, insert: Vec3, rotation: real)

  /** An LWPOLYLINE: its layer (the empty string when it has none) and its vertices. */
  datatype Polyline = Polyline(layer: string, points: seq<Point>)

  /**
   * The model space: its TEXT, MTEXT and LWPOLYLINE entities in drawing
   * order, and how many entities of other kinds it holds.
   */
  datatype ModelSpace = ModelSpace(texts: seq<TextEntity>, mtexts: seq<TextEntity>,
                                   polylines: seq<Polyline>, others: nat)

  /** A layout object is falsy when it holds no entity at all. */
  predicate Present(ms: Option<ModelSpace>)
  {
    ms.Some? && |ms.value.texts| + |ms.value.mtexts| + |ms.value.polylines| + ms.value.others > 0
  }

  /** A call-out record with the insertion point and rotation of its text. */
  datatype Located = Located(rec: RebarRecord, position: Vec3, rotation: real)

  /** A zone frame. A frame without vertices never contains a point. */
  datatype Table = Table(name: string, points: seq<Point>)

  /** One grouped row: the located record plus the three table lookups. */
  datatype Entry = Entry(item: Located, diameter: real, unitWeight: real, grade: string)

  // ---------------------------------------------------------------------------
  // point_in_polygon

  /** The term the ray-casting test adds to its denominator. */
  const Eps: real := 0.000000000001

  /** The vertex paired with vertex `i`: the previous one, and the last for the first. */
  function Prev(n: nat, i: nat): nat
    requires i < n
  {
    if i == 0 then n - 1 else i - 1
  }

  /** Whether the edge ending at vertex `i` flips the answer for the point `(x, y)`. */
  function EdgeToggles(poly: seq<Point>, i: nat, x: real, y: real): (r: Outcome<bool>)
    requires i < |poly|
    ensures r.Raises? ==> r.error == ZeroDivisionError
    ensures (poly[i].1 > y) == (poly[Prev(|poly|, i)].1 > y) ==> r == Ok(false)
    ensures poly[i].1 == poly[Prev(|poly|, i)].1 ==> r == Ok(false)
  {
    var (xi, yi) := poly[i];
    var (xj, yj) := poly[Prev(|poly|, i)];
    if (yi > y) != (yj > y) then
      var d := yj - yi + Eps;
      if d == 0.0 then Raises(ZeroDivisionError) else Ok(LeftOfCrossing(x, y, xi, yi, xj, yj, d))
    else Ok(false)
  }

  /** Whether `x` lies left of where the edge from `(xi, yi)` to `(xj, yj)` meets the height `y`. */
  function LeftOfCrossing(x: real, y: real, xi: real, yi: real, xj: real, yj: real, d: real): bool
    requires d != 0.0
  {
    x < (xj - xi) * (y - yi) / d + xi
  }

  /** The answer after the first `k` edges, or the error of the first edge that raised. */
  function InsideAfter(poly: seq<Point>, k: nat, x: real, y: real): (r: Outcome<bool>)
    requires k <= |poly|
    ensures r.Raises? ==> r.error == ZeroDivisionError
  {
    if k == 0 then Ok(false)
    else
      var before :- InsideAfter(poly, k - 1, x, y);
      var t :- EdgeToggles(poly, k - 1, x, y);
      Ok(before != t)
  }

  /** The ray-casting answer for the whole polygon. */
  function Inside(poly: seq<Point>, x: real, y: real): (r: Outcome<bool>)
    ensures poly == [] ==> r == Ok(false)
  {
    InsideAfter(poly, |poly|, x, y)
  }

  /** `point_in_polygon`: one pass over the edges, flipping `inside` at each crossing. */
  method PointInPolygon(x: real, y: real, polygon: seq<Point>) returns (r: Outcome<bool>)
    ensures r == Inside(polygon, x, y)
  {
    var num := |polygon|;
    var inside := false;
    var i := 0;
    while i < num
      invariant 0 <= i <= num
      invariant InsideAfter(polygon, i, x, y) == Ok(inside)
    {
      var j := if i == 0 then num - 1 else i - 1;
      var xi, yi := polygon[i].0, polygon[i].1;
      var xj, yj := polygon[j].0, polygon[j].1;
      InsideStep(polygon, i, x, y, inside);
      if (yi > y) != (yj > y) {
        var d := yj - yi + Eps;
        if d == 0.0 {
          ZeroDenominatorRaises(polygon, num, x, y, i);
          return Raises(ZeroDivisionError);
        }
        if LeftOfCrossing(x, y, xi, yi, xj, yj, d) {
          inside := !inside;
        }
      }
      i := i + 1;
    }
    return Ok(inside);
  }

  lemma InsideStep(poly: seq<Point>, k: nat, x: real, y: real, b: bool)
    requires k < |poly| && InsideAfter(poly, k, x, y) == Ok(b)
    ensures var e := EdgeToggles(poly, k, x, y);
            InsideAfter(poly, k + 1, x, y) == if e.Raises? then Raises(e.error) else Ok(b != e.value)
  {
  }

  /** The number of edges among the first `k` that cross the ray. */
  function Crossings(poly: seq<Point>, k: nat, x: real, y: real): nat
    requires k <= |poly|
  {
    if k == 0 then 0 else Crossings(poly, k - 1, x, y) + (if EdgeToggles(poly, k - 1, x, y) == Ok(true) then 1 else 0)
  }

  /** No edge of the polygon divides by zero for this point. */
  predicate NoZeroDenominator(poly: seq<Point>, x: real, y: real)
  {
    forall i :: 0 <= i < |poly| ==> EdgeToggles(poly, i, x, y).Ok?
  }

  /** The answer is the parity of the number of crossing edges. */
  lemma {:induction false} InsideIsParity(poly: seq<Point>, k: nat, x: real, y: real)
    requires k <= |poly| && NoZeroDenominator(poly, x, y)
    ensures InsideAfter(poly, k, x, y) == Ok(Crossings(poly, k, x, y) % 2 == 1)
  {
    if k > 0 {
      InsideIsParity(poly, k - 1, x, y);
      assert EdgeToggles(poly, k - 1, x, y).Ok?;
    }
  }

  /** An edge that divides by zero makes the whole test raise. */
  lemma {:induction false} ZeroDenominatorRaises(poly: seq<Point>, k: nat, x: real, y: real, i: nat)
    requires i < k <= |poly| && EdgeToggles(poly, i, x, y).Raises?
    ensures InsideAfter(poly, k, x, y) == Raises(ZeroDivisionError)
  {
    if i < k - 1 {
      ZeroDenominatorRaises(poly, k - 1, x, y, i);
    }
  }

  /** A point level with or above every vertex, or below every vertex, is outside. */
  lemma {:induction false} OutsideVerticalExtent(poly: seq<Point>, k: nat, x: real, y: real)
    requires k <= |poly|
    requires (forall i :: 0 <= i < |poly| ==> poly[i].1 <= y) || (forall i :: 0 <= i < |poly| ==> poly[i].1 > y)
    ensures InsideAfter(poly, k, x, y) == Ok(false)
  {
    if k > 0 {
      OutsideVerticalExtent(poly, k - 1, x, y);
      var j := Prev(|poly|, k - 1);
      assert (poly[k - 1].1 > y) == (poly[j].1 > y);
    }
  }

  /** The square with corners (0, 0) and (10, 10): its centre is inside, (20, 20) is not. */
  lemma SquareExample(sq: seq<Point>)
    requires sq == [(0.0, 0.0), (10.0, 0.0), (10.0, 10.0), (0.0, 10.0)]
    ensures Inside(sq, 5.0, 5.0) == Ok(true)
    ensures Inside(sq, 20.0, 20.0) == Ok(false)
  {
    assert EdgeToggles(sq, 0, 5.0, 5.0) == Ok(false);
    assert EdgeToggles(sq, 1, 5.0, 5.0) == Ok(false);
    assert EdgeToggles(sq, 2, 5.0, 5.0) == Ok(true);
    assert EdgeToggles(sq, 3, 5.0, 5.0) == Ok(false);
    assert InsideAfter(sq, 1, 5.0, 5.0) == Ok(false);
    assert InsideAfter(sq, 2, 5.0, 5.0) == Ok(false);
    assert InsideAfter(sq, 3, 5.0, 5.0) == Ok(true);
    OutsideVerticalExtent(sq, 4, 20.0, 20.0);
  }

  /** A denominator of zero is reachable: an edge from height 1e-12 down to 0, for a point at height 0. */
  lemma ZeroDenominatorExample(poly: seq<Point>)
    requires poly == [(0.0, Eps), (0.0, 0.0)]
    ensures Inside(poly, 0.0, 0.0) == Raises(ZeroDivisionError)
  {
    assert EdgeToggles(poly, 0, 0.0, 0.0).Raises?;
    ZeroDenominatorRaises(poly, 2, 0.0, 0.0, 0);
  }

  // ---------------------------------------------------------------------------
  // get_rebar_tables

  /** The zone name of a `$P-` layer: the rest of the name, or the whole name when nothing follows. */
  function ZoneName(layer: string): (n: string)
    requires StartsWith(layer, "$P-")
    ensures |layer| > 3 ==> "$P-" + n == layer
    ensures |layer| == 3 ==> n == "$P-"
  {
    if |layer| > 3 then layer[3..] else layer
  }

  /** The zone frames of the given polylines, in drawing order. */
  function TablesOf(ps: seq<Polyline>): (r: seq<Table>)
    ensures |r| <= |ps|
  {
    if ps == [] then []
    else if StartsWith(ps[0].layer, "$P-") then [Table(ZoneName(ps[0].layer), ps[0].points)] + TablesOf(ps[1..])
    else TablesOf(ps[1..])
  }

  /** One polyline further: its frame, if it is on a `$P-` layer, then the frames of the rest. */
  lemma TablesStep(ps: seq<Polyline>, i: nat)
    requires i < |ps|
    ensures TablesOf(ps[i..])
            == (if StartsWith(ps[i].layer, "$P-") then [Table(ZoneName(ps[i].layer), ps[i].points)] else [])
               + TablesOf(ps[i + 1..])
  {
    assert ps[i..][1..] == ps[i + 1..];
  }

  /** Every frame comes from a `$P-` polyline, and every `$P-` polyline gives a frame. */
  lemma {:induction false} TablesOfSound(ps: seq<Polyline>)
    ensures forall tb :: tb in TablesOf(ps) ==>
              exists p :: p in ps && StartsWith(p.layer, "$P-") && tb == Table(ZoneName(p.layer), p.points)
    ensures forall p :: p in ps && StartsWith(p.layer, "$P-") ==> Table(ZoneName(p.layer), p.points) in TablesOf(ps)
  {
    if ps != [] {
      TablesOfSound(ps[1..]);
      forall p | p in ps && StartsWith(p.layer, "$P-")
        ensures Table(ZoneName(p.layer), p.points) in TablesOf(ps)
      {
        if p != ps[0] {
          assert p in ps[1..];
        }
      }
    }
  }

  /** The frames of a drawing without other polylines are all of them. */
  lemma {:induction false} TablesOfAllFrames(ps: seq<Polyline>)
    requires forall i :: 0 <= i < |ps| ==> StartsWith(ps[i].layer, "$P-")
    ensures |TablesOf(ps)| == |ps|
  {
    if ps != [] {
      TablesOfAllFrames(ps[1..]);
    }
  }

  // ---------------------------------------------------------------------------
  // extract_rebar_texts

  /** `s.split('\n')`: at least one piece, none holding a line break. */
  function SplitLines(s: string): (r: seq<string>)
    ensures |r| >= 1
    ensures forall i :: 0 <= i < |r| ==> '\n' !in r[i]
    decreases |s|
  {
    var k := IndexOf(s, '\n');
    if k == |s| then [s] else [s[..k]] + SplitLines(s[k + 1..])
  }

  /** `'\n'.join(lines)`. */
  function JoinLines(lines: seq<string>): string
  {
    if lines == [] then [] else if |lines| == 1 then lines[0] else lines[0] + "\n" + JoinLines(lines[1..])
  }

  /** Splitting on line breaks and joining them back gives the text again. */
  lemma {:induction false} SplitJoin(s: string)
    ensures JoinLines(SplitLines(s)) == s
    decreases |s|
  {
    var k := IndexOf(s, '\n');
    if k < |s| {
      SplitJoin(s[k + 1..]);
      assert s == s[..k] + "\n" + s[k + 1..];
    }
  }

  /** The lines of one MTEXT entity, each carrying the entity's insertion point and rotation. */
  function LinesOf(m: TextEntity): (r: seq<TextEntity>)
    ensures |r| >= 1
  {
    var ls := SplitLines(m.text);
    seq(|ls|, i requires 0 <= i < |ls| => TextEntity(ls[i], m.insert, m.rotation))
  }

  function MtextLines(ms: seq<TextEntity>): seq<TextEntity>
  {
    if ms == [] then [] else LinesOf(ms[0]) + MtextLines(ms[1..])
  }

  /** Every text the reader parses, in its order: the TEXT entities, then each MTEXT line. */
  function Texts(ms: ModelSpace): seq<TextEntity>
  {
    ms.texts + MtextLines(ms.mtexts)
  }

  /** A parsed record placed at its text: the raw text is the unstripped text or line. */
  function Locate(rec: RebarRecord, e: TextEntity): Located
  {
    Located(rec.(rawText := e.text), e.insert, e.rotation)
  }

  /** A text parser: `None` for a text it does not recognise, `Raises` for one it cannot convert. */
  type Parser = string -> Outcome<Option<RebarRecord>>

  /** The parser the reader uses: the legacy processor's `parse_rebar_text`. */
  function LegacyParser(L: Legacy.Literals, t: Tables): Parser
  {
    s => Legacy.ParseRebarText(L, t, s)
  }

  /**
   * The records found in `items`: texts that do not parse are skipped, and
   * the first text whose parse raises ends the scan.
   */
  function Extract(parse: Parser, items: seq<TextEntity>): (r: seq<Located>)
    ensures |r| <= |items|
  {
    if items == [] then []
    else match parse(items[0].text)
      case Raises(_) => []
      case Ok(None) => Extract(parse, items[1..])
      case Ok(Some(rec)) => [Locate(rec, items[0])] + Extract(parse, items[1..])
  }

  /** Each record comes from a text that parsed to it. */
  lemma {:induction false} ExtractSound(parse: Parser, items: seq<TextEntity>, k: nat)
    requires k < |Extract(parse, items)|
    ensures exists i, rec :: 0 <= i < |items| && parse(items[i].text) == Ok(Some(rec))
                             && Extract(parse, items)[k] == Locate(rec, items[i])
  {
    var r := parse(items[0].text);
    if r.Ok? && r.value.Some? && k == 0 {
      assert Extract(parse, items)[0] == Locate(r.value.value, items[0]);
    } else {
      var k' := if r.Ok? && r.value.Some? then k - 1 else k;
      ExtractSound(parse, items[1..], k');
      var i, rec :| 0 <= i < |items[1..]| && parse(items[1..][i].text) == Ok(Some(rec))
                    && Extract(parse, items[1..])[k'] == Locate(rec, items[1..][i]);
      assert items[1..][i] == items[i + 1];
    }
  }

  /** Nothing after a text whose parse raises is reported. */
  lemma {:induction false} ExtractStopsAtError(parse: Parser, items: seq<TextEntity>, i: nat)
    requires i < |items| && parse(items[i].text).Raises?
    ensures Extract(parse, items) == Extract(parse, items[..i])
  {
    if i > 0 {
      ExtractStopsAtError(parse, items[1..], i - 1);
      assert items[1..][..i - 1] == items[..i][1..];
    }
  }

  /** Without a raising text, every text that parses is reported, in order. */
  lemma {:induction false} ExtractComplete(parse: Parser, items: seq<TextEntity>,
                                           i: nat, rec: RebarRecord)
    requires i < |items| && parse(items[i].text) == Ok(Some(rec))
    requires forall j :: 0 <= j < i ==> parse(items[j].text).Ok?
    ensures Locate(rec, items[i]) in Extract(parse, items)
  {
    if i > 0 {
      ExtractComplete(parse, items[1..], i - 1, rec);
      assert parse(items[0].text).Ok?;
    }
  }

  lemma ExtractCons(parse: Parser, e: TextEntity, rest: seq<TextEntity>)
    ensures var p := parse(e.text);
            Extract(parse, [e] + rest) ==
              if p.Raises? then [] else if p.value.None? then Extract(parse, rest)
              else [Locate(p.value.value, e)] + Extract(parse, rest)
  {
    assert ([e] + rest)[0] == e && ([e] + rest)[1..] == rest;
  }

  // ---------------------------------------------------------------------------
  // process_drawing

  /** The name of the catch-all zone of a drawing without frames. */
  const AllZone: string := "全部"

  /** The frames a drawing groups into: its own, or the single catch-all one. */
  function Zones(tables: seq<Table>): (z: seq<Table>)
    ensures z != []
    ensures tables != [] ==> z == tables
  {
    if tables == [] then [Table(AllZone, [])] else tables
  }

  /** The first frame with vertices that contains `(x, y)`, or `dflt` when none does. */
  function FirstContaining(tables: seq<Table>, x: real, y: real, dflt: string): (r: Outcome<string>)
    ensures r.Ok? ==> r.value == dflt || exists i :: 0 <= i < |tables| && tables[i].name == r.value
    ensures r.Raises? ==> r.error == ZeroDivisionError
  {
    if tables == [] then Ok(dflt)
    else if tables[0].points != [] then
      var inside :- Inside(tables[0].points, x, y);
      if inside then Ok(tables[0].name)
      else
        var r := FirstContaining(tables[1..], x, y, dflt);
        assert r.Ok? && r.value != dflt ==> exists i :: 1 <= i < |tables| && tables[i].name == r.value by {
          if r.Ok? && r.value != dflt {
            var i :| 0 <= i < |tables[1..]| && tables[1..][i].name == r.value;
            assert tables[i + 1].name == r.value;
          }
        }
        r
    else
      var r := FirstContaining(tables[1..], x, y, dflt);
      assert r.Ok? && r.value != dflt ==> exists i :: 1 <= i < |tables| && tables[i].name == r.value by {
        if r.Ok? && r.value != dflt {
          var i :| 0 <= i < |tables[1..]| && tables[1..][i].name == r.value;
          assert tables[i + 1].name == r.value;
        }
      }
      r
  }

  /** The zone of a record: the first frame holding a truthy position, else the first frame. */
  function ZoneOf(zones: seq<Table>, pos: Vec3): (r: Outcome<string>)
    requires zones != []
    ensures r.Ok? ==> exists i :: 0 <= i < |zones| && zones[i].name == r.value
    ensures !Truthy(pos) ==> r == Ok(zones[0].name)
  {
    if Truthy(pos) then FirstContaining(zones, pos.x, pos.y, zones[0].name) else Ok(zones[0].name)
  }

  /** The first frame that contains the point wins, whatever the later frames say. */
  lemma {:induction false} FirstZoneWins(tables: seq<Table>, x: real, y: real, dflt: string, i: nat)
    requires i < |tables| && tables[i].points != [] && Inside(tables[i].points, x, y) == Ok(true)
    requires forall j :: 0 <= j < i ==> tables[j].points == [] || Inside(tables[j].points, x, y) == Ok(false)
    ensures FirstContaining(tables, x, y, dflt) == Ok(tables[i].name)
  {
    if i > 0 {
      FirstZoneWins(tables[1..], x, y, dflt, i - 1);
      assert tables[0].points == [] || Inside(tables[0].points, x, y) == Ok(false);
    }
  }

  /** A point in no frame goes to the default zone. */
  lemma {:induction false} NoZoneDefault(tables: seq<Table>, x: real, y: real, dflt: string)
    requires forall j :: 0 <= j < |tables| ==> tables[j].points == [] || Inside(tables[j].points, x, y) == Ok(false)
    ensures FirstContaining(tables, x, y, dflt) == Ok(dflt)
  {
    if tables != [] {
      NoZoneDefault(tables[1..], x, y, dflt);
      assert tables[0].points == [] || Inside(tables[0].points, x, y) == Ok(false);
    }
  }

  /** The row `process_drawing` builds for a record. */
  function Enrich(L: Legacy.Literals, t: Tables, item: Located): (e: Entry)
    ensures e.item == item
    ensures e.grade == Summary.GradeOr(t, item.rec.rebarNumber, L.unknownGrade)
  {
    var n := item.rec.rebarNumber;
    Entry(item, Diameter(t, n), UnitWeight(t, n), Summary.GradeOr(t, n, L.unknownGrade))
  }

  /** Where a record goes: the zone of its position, or the error raised while finding it. */
  type Locator = Vec3 -> Outcome<string>

  /** The locator of `process_drawing` over its frames. */
  function ZoneLocator(zones: seq<Table>): (loc: Locator)
    requires zones != []
    ensures forall pos :: loc(pos) == ZoneOf(zones, pos)
  {
    pos => ZoneOf(zones, pos)
  }

  /** Every record's zone is found without an error. */
  predicate AllZoned(loc: Locator, recs: seq<Located>)
  {
    forall i :: 0 <= i < |recs| ==> loc(recs[i].position).Ok?
  }

  /** The rows of zone `z`, in the order of the records. */
  function InZone(L: Legacy.Literals, t: Tables, loc: Locator, recs: seq<Located>, z: string): (r: seq<Entry>)
    ensures |r| <= |recs|
  {
    if recs == [] then []
    else
      var last := recs[|recs| - 1];
      InZone(L, t, loc, recs[..|recs| - 1], z) + (if loc(last.position) == Ok(z) then [Enrich(L, t, last)] else [])
  }

  /** The empty groups, one per distinct frame name, in order of first appearance. */
  function InitGroups(tables: seq<Table>): (g: Entries<string, seq<Entry>>)
    ensures DistinctKeys(g)
    ensures forall z :: HasKey(g, z) <==> exists i :: 0 <= i < |tables| && tables[i].name == z
    ensures forall z :: HasKey(g, z) ==> Get(g, z) == Some([])
  {
    if tables == [] then []
    else
      var g := InitGroups(tables[..|tables| - 1]);
      InitGroupsStep(tables, tables[..|tables| - 1], g);
      Put(g, tables[|tables| - 1].name, [])
  }

  /** Adding the last frame's name as an empty group keeps the groups one per name seen. */
  lemma InitGroupsStep(tables: seq<Table>, front: seq<Table>, g: Entries<string, seq<Entry>>)
    requires tables != [] && front == tables[..|tables| - 1]
    requires DistinctKeys(g)
    requires forall z :: HasKey(g, z) <==> exists i :: 0 <= i < |front| && front[i].name == z
    requires forall z :: HasKey(g, z) ==> Get(g, z) == Some([])
    ensures var g' := Put(g, tables[|tables| - 1].name, []);
            && DistinctKeys(g')
            && (forall z :: HasKey(g', z) <==> exists i :: 0 <= i < |tables| && tables[i].name == z)
            && (forall z :: HasKey(g', z) ==> Get(g', z) == Some([]))
  {
    var n := tables[|tables| - 1].name;
    PutDistinct(g, n, []);
    forall z ensures HasKey(Put(g, n, []), z) ==> Get(Put(g, n, []), z) == Some([]) {
      PutGet(g, n, [], z);
    }
    forall z ensures HasKey(Put(g, n, []), z) <==> exists i :: 0 <= i < |tables| && tables[i].name == z {
      InitGroupsKey(tables, front, g, z);
    }
  }

  /** One name is a key after the step exactly when some frame, the last included, has it. */
  lemma InitGroupsKey(tables: seq<Table>, front: seq<Table>, g: Entries<string, seq<Entry>>, z: string)
    requires tables != [] && front == tables[..|tables| - 1]
    requires HasKey(g, z) <==> exists i :: 0 <= i < |front| && front[i].name == z
    ensures HasKey(Put(g, tables[|tables| - 1].name, []), z) <==> exists i :: 0 <= i < |tables| && tables[i].name == z
  {
    var n := tables[|tables| - 1].name;
    PutGet(g, n, [], z);
    if HasKey(g, z) {
      var i :| 0 <= i < |front| && front[i].name == z;
      assert tables[i].name == z;
    }
    if z != n && exists i :: 0 <= i < |tables| && tables[i].name == z {
      var i :| 0 <= i < |tables| && tables[i].name == z;
      assert i < |front| && front[i].name == z;
    }
    if z == n {
      assert tables[|tables| - 1].name == z;
    }
  }

  /** Adds the row of the next record to its zone. */
  function AddRow(g: Entries<string, seq<Entry>>, z: string, e: Entry): Entries<string, seq<Entry>>
    requires HasKey(g, z)
  {
    Put(g, z, Get(g, z).value + [e])
  }

  /** The groups after the first `i` records: the keys of `init`, each holding its zone's rows so far. */
  ghost predicate GroupsAt(L: Legacy.Literals, t: Tables, loc: Locator, recs: seq<Located>, i: nat,
                     grouped: Entries<string, seq<Entry>>, init: Entries<string, seq<Entry>>)
    requires i <= |recs|
  {
    && DistinctKeys(grouped) && Keys(grouped) == Keys(init)
    && (forall z :: HasKey(grouped, z) <==> HasKey(init, z))
    && (forall z :: HasKey(grouped, z) ==> Get(grouped, z) == Some(InZone(L, t, loc, recs[..i], z)))
  }

  lemma InZoneStep(L: Legacy.Literals, t: Tables, loc: Locator, recs: seq<Located>, i: nat, z: string)
    requires i < |recs|
    ensures InZone(L, t, loc, recs[..i + 1], z)
            == InZone(L, t, loc, recs[..i], z)
               + (if loc(recs[i].position) == Ok(z) then [Enrich(L, t, recs[i])] else [])
  {
    assert recs[..i + 1][..i] == recs[..i];
  }

  /** Appending one record's row to its zone keeps the groups in step with the records. */
  lemma AddRowStep(L: Legacy.Literals, t: Tables, loc: Locator, recs: seq<Located>, i: nat,
                   grouped: Entries<string, seq<Entry>>, init: Entries<string, seq<Entry>>, target: string)
    requires i < |recs| && loc(recs[i].position) == Ok(target) && HasKey(init, target)
    requires GroupsAt(L, t, loc, recs, i, grouped, init)
    ensures HasKey(grouped, target)
    ensures GroupsAt(L, t, loc, recs, i + 1, AddRow(grouped, target, Enrich(L, t, recs[i])), init)
  {
    var e := Enrich(L, t, recs[i]);
    var v := Get(grouped, target).value + [e];
    var next := AddRow(grouped, target, e);
    assert next == Put(grouped, target, v);
    AddRowKeys(grouped, init, target, v);
    AddRowValues(L, t, loc, recs, i, grouped, init, target);
    GroupsAtIntro(L, t, loc, recs, i + 1, next, init, grouped);
  }

  /** Groups with the keys of `init`, each holding its zone's rows, are in step with the records. */
  lemma GroupsAtIntro(L: Legacy.Literals, t: Tables, loc: Locator, recs: seq<Located>, i: nat,
                      next: Entries<string, seq<Entry>>, init: Entries<string, seq<Entry>>,
                      grouped: Entries<string, seq<Entry>>)
    requires i <= |recs| && DistinctKeys(next) && Keys(next) == Keys(init)
    requires forall z :: HasKey(next, z) <==> HasKey(init, z)
    requires forall z :: HasKey(grouped, z) <==> HasKey(init, z)
    requires forall z :: HasKey(grouped, z) ==> Get(next, z) == Some(InZone(L, t, loc, recs[..i], z))
    ensures GroupsAt(L, t, loc, recs, i, next, init)
  {
  }

  lemma AddRowKeys<V>(grouped: Entries<string, V>, init: Entries<string, V>, target: string, v: V)
    requires DistinctKeys(grouped) && Keys(grouped) == Keys(init) && HasKey(grouped, target)
    requires forall z :: HasKey(grouped, z) <==> HasKey(init, z)
    ensures DistinctKeys(Put(grouped, target, v)) && Keys(Put(grouped, target, v)) == Keys(init)
    ensures forall z :: HasKey(Put(grouped, target, v), z) <==> HasKey(init, z)
  {
    PutKeys(grouped, target, v);
    PutDistinct(grouped, target, v);
    forall z ensures HasKey(Put(grouped, target, v), z) <==> HasKey(init, z) {
      PutGet(grouped, target, v, z);
    }
  }

  lemma AddRowValues(L: Legacy.Literals, t: Tables, loc: Locator, recs: seq<Located>, i: nat,
                     grouped: Entries<string, seq<Entry>>, init: Entries<string, seq<Entry>>, target: string)
    requires i < |recs| && loc(recs[i].position) == Ok(target) && HasKey(grouped, target)
    requires forall z :: HasKey(grouped, z) ==> Get(grouped, z) == Some(InZone(L, t, loc, recs[..i], z))
    ensures var next := AddRow(grouped, target, Enrich(L, t, recs[i]));
            forall z :: HasKey(grouped, z) ==> Get(next, z) == Some(InZone(L, t, loc, recs[..i + 1], z))
  {
    var e := Enrich(L, t, recs[i]);
    var v := Get(grouped, target).value + [e];
    var next := Put(grouped, target, v);
    forall z | HasKey(grouped, z) ensures Get(next, z) == Some(InZone(L, t, loc, recs[..i + 1], z)) {
      PutGet(grouped, target, v, z);
      InZoneStep(L, t, loc, recs, i, z);
      if z == target {
        calc {
          Get(next, z);
          Some(v);
          Some(InZone(L, t, loc, recs[..i], z) + [e]);
        }
      } else {
        assert Get(next, z) == Get(grouped, z);
        assert loc(recs[i].position) != Ok(z);
        assert InZone(L, t, loc, recs[..i], z) + [] == InZone(L, t, loc, recs[..i], z);
      }
    }
  }

  // ---------------------------------------------------------------------------
  // Every record lands in exactly one group

  /** `process_drawing` after its I/O: the groups, or `None` when some zone test raised. */
  method Group(L: Legacy.Literals, t: Tables, tables: seq<Table>, recs: seq<Located>)
    returns (r: Option<Entries<string, seq<Entry>>>)
    ensures r.None? <==> !AllZoned(ZoneLocator(Zones(tables)), recs)
    ensures r.Some? ==> DistinctKeys(r.value) && Keys(r.value) == Keys(InitGroups(Zones(tables)))
    ensures r.Some? ==> forall z :: HasKey(r.value, z) ==> Get(r.value, z) == Some(InZone(L, t, ZoneLocator(Zones(tables)), recs, z))
  {
    var zones := Zones(tables);
    var loc := ZoneLocator(zones);
    var init := InitGroups(zones);
    var grouped := init;
    var i := 0;
    assert recs[..0] == [];
    while i < |recs|
      invariant 0 <= i <= |recs|
      invariant GroupsAt(L, t, loc, recs, i, grouped, init)
      invariant AllZoned(loc, recs[..i])
    {
      var found := FindZone(zones, recs[i].position);
      if found.Raises? {
        assert !loc(recs[i].position).Ok?;
        return None;
      }
      var target := found.value;
      ZoneHasGroup(zones, recs[i].position);
      AddRowStep(L, t, loc, recs, i, grouped, init, target);
      grouped := AddRow(grouped, target, Enrich(L, t, recs[i]));
      ZonedStep(loc, recs, i);
      i := i + 1;
    }
    assert recs[..i] == recs;
    return Some(grouped);
  }

  lemma ZoneHasGroup(zones: seq<Table>, pos: Vec3)
    requires zones != [] && ZoneOf(zones, pos).Ok?
    ensures HasKey(InitGroups(zones), ZoneOf(zones, pos).value)
  {
  }

  lemma ZonedStep(loc: Locator, recs: seq<Located>, i: nat)
    requires i < |recs| && AllZoned(loc, recs[..i]) && loc(recs[i].position).Ok?
    ensures AllZoned(loc, recs[..i + 1])
  {
    assert forall k :: 0 <= k < i + 1 ==> recs[..i + 1][k] == recs[k];
  }

  /** The zone lookup of `process_drawing`'s inner loop, `break` at the first containing frame. */
  method FindZone(zones: seq<Table>, pos: Vec3) returns (r: Outcome<string>)
    requires zones != []
    ensures r == ZoneOf(zones, pos)
  {
    var target := zones[0].name;
    if !Truthy(pos) {
      return Ok(target);
    }
    var i := 0;
    while i < |zones|
      invariant 0 <= i <= |zones|
      invariant FirstContaining(zones, pos.x, pos.y, target) == FirstContaining(zones[i..], pos.x, pos.y, target)
    {
      assert zones[i..][1..] == zones[i + 1..];
      if zones[i].points != [] {
        var inside := PointInPolygon(pos.x, pos.y, zones[i].points);
        if inside.Raises? {
          return Raises(inside.error);
        }
        if inside.value {
          return Ok(zones[i].name);
        }
      }
      i := i + 1;
    }
    return Ok(target);
  }

  // ---------------------------------------------------------------------------
  // Every record lands in exactly one group

  /** The total number of rows over the zones `names`. */
  function RowCount(L: Legacy.Literals, t: Tables, loc: Locator, recs: seq<Located>, names: seq<string>): nat
  {
    if names == [] then 0 else |InZone(L, t, loc, recs, names[0])| + RowCount(L, t, loc, recs, names[1..])
  }

  function Occurrences(names: seq<string>, z: string): nat
  {
    if names == [] then 0 else (if names[0] == z then 1 else 0) + Occurrences(names[1..], z)
  }

  lemma {:induction false} OccursOnce(names: seq<string>, z: string)
    requires forall i, j :: 0 <= i < j < |names| ==> names[i] != names[j]
    requires z in names
    ensures Occurrences(names, z) == 1
  {
    if names[0] == z {
      NotOccurring(names[1..], z);
    } else {
      OccursOnce(names[1..], z);
    }
  }

  lemma {:induction false} NotOccurring(names: seq<string>, z: string)
    requires z !in names
    ensures Occurrences(names, z) == 0
  {
    if names != [] {
      NotOccurring(names[1..], z);
    }
  }

  lemma {:induction false} RowCountStep(L: Legacy.Literals, t: Tables, loc: Locator, recs: seq<Located>,
                                        names: seq<string>, z: string)
    requires recs != [] && loc(recs[|recs| - 1].position) == Ok(z)
    ensures RowCount(L, t, loc, recs, names) == RowCount(L, t, loc, recs[..|recs| - 1], names) + Occurrences(names, z)
  {
    if names != [] {
      RowCountStep(L, t, loc, recs, names[1..], z);
    }
  }

  /**
   * Over distinct zone names that include every record's zone, the rows add
   * up to the records: each record is placed exactly once.
   */
  lemma {:induction false} EachRecordOnce(L: Legacy.Literals, t: Tables, loc: Locator, recs: seq<Located>,
                                          names: seq<string>)
    requires AllZoned(loc, recs)
    requires forall i, j :: 0 <= i < j < |names| ==> names[i] != names[j]
    requires forall i :: 0 <= i < |recs| ==> loc(recs[i].position).value in names
    ensures RowCount(L, t, loc, recs, names) == |recs|
  {
    if recs == [] {
      ZeroRows(L, t, loc, names);
    } else {
      var z := loc(recs[|recs| - 1].position).value;
      RowCountStep(L, t, loc, recs, names, z);
      OccursOnce(names, z);
      var init := recs[..|recs| - 1];
      assert forall i :: 0 <= i < |init| ==> init[i] == recs[i];
      EachRecordOnce(L, t, loc, init, names);
    }
  }

  lemma {:induction false} ZeroRows(L: Legacy.Literals, t: Tables, loc: Locator, names: seq<string>)
    ensures RowCount(L, t, loc, [], names) == 0
  {
    if names != [] {
      ZeroRows(L, t, loc, names[1..]);
    }
  }

  /** The group keys are distinct and hold every zone a record can get. */
  lemma GroupKeysCover(zones: seq<Table>, recs: seq<Located>)
    requires zones != [] && AllZoned(ZoneLocator(zones), recs)
    ensures forall i, j :: 0 <= i < j < |Keys(InitGroups(zones))| ==> Keys(InitGroups(zones))[i] != Keys(InitGroups(zones))[j]
    ensures forall i :: 0 <= i < |recs| ==> ZoneLocator(zones)(recs[i].position).value in Keys(InitGroups(zones))
  {
    var g := InitGroups(zones);
    forall i | 0 <= i < |recs| ensures ZoneLocator(zones)(recs[i].position).value in Keys(g) {
      var z := ZoneOf(zones, recs[i].position).value;
      assert HasKey(g, z);
      var k :| 0 <= k < |g| && g[k].0 == z;
      assert Keys(g)[k] == z;
    }
  }

  // ---------------------------------------------------------------------------
  // The reader object

  class CadReader {
    /** Whether a drawing file is open. */
    var fileOpen: bool
    /** The open drawing's model space. */
    var modelspace: Option<ModelSpace>

    constructor ()
      ensures !fileOpen && modelspace == None
    {
      fileOpen := false;
      modelspace := None;
    }

    /**
     * `open_file`, with the file's contents as read (`None` when reading
     * fails): a failed read leaves the reader as it was.
     */
    method OpenFile(read: Option<ModelSpace>) returns (ok: bool)
      modifies this
      ensures ok <==> read.Some?
      ensures ok ==> fileOpen && modelspace == read
      ensures !ok ==> fileOpen == old(fileOpen) && modelspace == old(modelspace)
    {
      if read.None? {
        return false;
      }
      fileOpen := true;
      modelspace := read;
      return true;
    }

    /** `close_file`: forgets the drawing, if one is open. */
    method CloseFile()
      modifies this
      ensures old(fileOpen) ==> !fileOpen && modelspace == None
      ensures !old(fileOpen) ==> fileOpen == old(fileOpen) && modelspace == old(modelspace)
    {
      if fileOpen {
        fileOpen := false;
        modelspace := None;
      }
    }

    /** `extract_rebar_texts`. */
    method ExtractRebarTexts(L: Legacy.Literals, t: Tables) returns (r: seq<Located>)
      ensures !Present(modelspace) ==> r == []
      ensures Present(modelspace) ==> r == Extract(LegacyParser(L, t), Texts(modelspace.value))
    {
      if !Present(modelspace) {
        return [];
      }
      var ms := modelspace.value;
      r := ExtractFrom(LegacyParser(L, t), ms);
    }

    /** `get_rebar_tables`. */
    method GetRebarTables() returns (tables: seq<Table>)
      ensures !Present(modelspace) ==> tables == []
      ensures Present(modelspace) ==> tables == TablesOf(modelspace.value.polylines)
    {
      if !Present(modelspace) {
        return [];
      }
      var ps := modelspace.value.polylines;
      tables := [];
      var i := 0;
      while i < |ps|
        invariant 0 <= i <= |ps|
        invariant TablesOf(ps) == tables + TablesOf(ps[i..])
      {
        TablesStep(ps, i);
        if StartsWith(ps[i].layer, "$P-") {
          var name := if |ps[i].layer| > 3 then ps[i].layer[3..] else ps[i].layer;
          Assoc(tables, [Table(name, ps[i].points)], TablesOf(ps[i + 1..]));
          tables := tables + [Table(name, ps[i].points)];
        }
        i := i + 1;
      }
    }

    /** `process_drawing`: the groups by zone, or `None` without a drawing or when a zone test raised. */
    method ProcessDrawing(L: Legacy.Literals, t: Tables) returns (r: Option<Entries<string, seq<Entry>>>)
      ensures !Present(modelspace) ==> r == None
      ensures Present(modelspace) ==>
                var recs := Extract(LegacyParser(L, t), Texts(modelspace.value));
                var zones := Zones(TablesOf(modelspace.value.polylines));
                && (r.None? <==> !AllZoned(ZoneLocator(zones), recs))
                && (r.Some? ==> Keys(r.value) == Keys(InitGroups(zones)) && DistinctKeys(r.value))
                && (r.Some? ==> forall z :: HasKey(r.value, z) ==> Get(r.value, z) == Some(InZone(L, t, ZoneLocator(zones), recs, z)))
    {
      if !Present(modelspace) {
        return None;
      }
      var recs := ExtractRebarTexts(L, t);
      var tables := GetRebarTables();
      r := Group(L, t, tables, recs);
    }
  }

  /** The two scanning loops of `extract_rebar_texts`; a raising parse ends both. */
  method ExtractFrom(parse: Parser, ms: ModelSpace) returns (acc: seq<Located>)
    ensures acc == Extract(parse, Texts(ms))
  {
    var stopped;
    acc, stopped := ScanTexts(parse, ms.texts, MtextLines(ms.mtexts));
    if !stopped {
      var found := ScanMtexts(parse, ms.mtexts);
      acc := acc + found;
    }
  }

  /** The loop over the MTEXT entities, which come last: a raising parse ends it. */
  method ScanMtexts(parse: Parser, mts: seq<TextEntity>) returns (found: seq<Located>)
    ensures found == Extract(parse, MtextLines(mts))
  {
    found := [];
    var k := 0;
    while k < |mts|
      invariant 0 <= k <= |mts|
      invariant Extract(parse, MtextLines(mts)) == found + Extract(parse, MtextLines(mts[k..]))
    {
      MtextLinesAt(mts, k);
      var more, stopped := ScanLines(parse, mts[k], MtextLines(mts[k + 1..]));
      Assoc(found, more, Extract(parse, MtextLines(mts[k + 1..])));
      found := found + more;
      if stopped {
        return;
      }
      k := k + 1;
    }
    assert mts[k..] == [];
  }

  lemma SliceCons<T>(xs: seq<T>, l: nat, rest: seq<T>)
    requires l < |xs|
    ensures xs[l..] + rest == [xs[l]] + (xs[l + 1..] + rest)
  {
  }

  lemma MtextLinesAt(mts: seq<TextEntity>, k: nat)
    requires k < |mts|
    ensures MtextLines(mts[k..]) == LinesOf(mts[k]) + MtextLines(mts[k + 1..])
  {
    assert mts[k..][0] == mts[k] && mts[k..][1..] == mts[k + 1..];
  }

  /**
   * The loop over the TEXT entities `items`, which `rest` follows: the
   * records found, and whether a parse raised, which ends the whole scan.
   */
  method ScanTexts(parse: Parser, items: seq<TextEntity>, rest: seq<TextEntity>) returns (found: seq<Located>, stopped: bool)
    ensures stopped ==> Extract(parse, items + rest) == found
    ensures !stopped ==> Extract(parse, items + rest) == found + Extract(parse, rest)
  {
    found := [];
    var i := 0;
    while i < |items|
      invariant 0 <= i <= |items|
      invariant Extract(parse, items + rest) == found + Extract(parse, items[i..] + rest)
    {
      var e := items[i];
      SliceCons(items, i, rest);
      ExtractCons(parse, e, items[i + 1..] + rest);
      var parsed := parse(e.text);
      if parsed.Raises? {
        return found, true;
      }
      if parsed.value.Some? {
        Assoc(found, [Locate(parsed.value.value, e)], Extract(parse, items[i + 1..] + rest));
        found := found + [Locate(parsed.value.value, e)];
      }
      i := i + 1;
    }
    assert items[i..] + rest == rest;
    stopped := false;
  }

  /**
   * The loop over the lines of one MTEXT entity `m`, which `rest` follows;
   * every line carries the entity's insertion point and rotation.
   */
  method ScanLines(parse: Parser, m: TextEntity, rest: seq<TextEntity>) returns (found: seq<Located>, stopped: bool)
    ensures stopped ==> Extract(parse, LinesOf(m) + rest) == found
    ensures !stopped ==> Extract(parse, LinesOf(m) + rest) == found + Extract(parse, rest)
  {
    found := [];
    var lines := SplitLines(m.text);
    var all := LinesOf(m);
    assert |all| == |lines|;
    var l := 0;
    while l < |lines|
      invariant 0 <= l <= |lines|
      invariant Extract(parse, all + rest) == found + Extract(parse, all[l..] + rest)
    {
      var e := TextEntity(lines[l], m.insert, m.rotation);
      var tail := all[l + 1..] + rest;
      assert all[l] == e;
      SliceCons(all, l, rest);
      ExtractCons(parse, e, tail);
      var parsed := parse(lines[l]);
      if parsed.Raises? {
        return found, true;
      }
      if parsed.value.Some? {
        Assoc(found, [Locate(parsed.value.value, e)], Extract(parse, tail));
        found := found + [Locate(parsed.value.value, e)];
      }
      l := l + 1;
    }
    assert all[l..] + rest == rest;
    stopped := false;
  }
}
