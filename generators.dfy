// utils/graphics/generators/__init__.py: the module-level registry of image
// generators, and what calling a generator's `generate_image` gives.

module Generators {
  import opened Common
  import opened ShapeCommon
  import opened Dict
  import opened BaseGenerator
  import Type18Generator
  import Type19Generator

  /** The generator classes, and any other object registered later. */
  datatype Generator = Type10 | Type11 | Type12 | Type18 | Type19 | Custom(name: string)

  /** A positional argument of `generate_image`. */
  datatype Arg = Num(x: real) | Nums(xs: seq<real>) | Str(s: string)

  /** `GENERATORS` as the module initialises it. */
  const DefaultEntries: Entries<string, Generator> :=
    [("type10", Type10), ("type11", Type11), ("type12", Type12), ("type18", Type18), ("type19", Type19)]

  lemma DefaultKeys()
    ensures Keys(DefaultEntries) == ["type10", "type11", "type12", "type18", "type19"]
    ensures DistinctKeys(DefaultEntries)
  {
  }

  /** The module-level dictionary: every caller of `get_all_generators` holds this one object. */
  class Registry {
    var entries: Entries<string, Generator>

    constructor()
      ensures entries == DefaultEntries
    {
      entries := DefaultEntries;
    }
  }

  /** `get_generator`: `GENERATORS.get(rebar_type)`. */
  function GetGenerator(registry: Registry, key: string): (r: Option<Generator>)
    reads registry
    ensures r.None? <==> !HasKey(registry.entries, key)
    ensures r.Some? ==> (key, r.value) in registry.entries
  {
    Get(registry.entries, key)
  }

  /** On the initial registry, the five types are found, each with its own generator, and nothing else is. */
  lemma GetGeneratorDefault(key: string)
    ensures Get(DefaultEntries, key)
            == if key == "type10" then Some(Type10)
               else if key == "type11" then Some(Type11)
               else if key == "type12" then Some(Type12)
               else if key == "type18" then Some(Type18)
               else if key == "type19" then Some(Type19)
               else None
  {
    var e := DefaultEntries;
    assert e[1..] == [("type11", Type11), ("type12", Type12), ("type18", Type18), ("type19", Type19)];
    assert e[1..][1..] == [("type12", Type12), ("type18", Type18), ("type19", Type19)];
    assert e[1..][1..][1..] == [("type18", Type18), ("type19", Type19)];
    assert e[1..][1..][1..][1..] == [("type19", Type19)];
  }

  /**
   * `generator.generate_image(*args, available_materials=materials)`, with
   * its own exception handler. The arc generators need exactly their
   * arguments (length, radius, designation; straight length, arc length,
   * radius, designation), and a call that does not fit raises and gives
   * None; the designation is accepted whatever it is and never read. The straight, hooked and bent generators and other registered
   * objects are rendered by `others`; `str(radius)` is `pyStr`.
   */
  function Run(g: Generator, args: seq<Arg>, materials: seq<string>, t: Trig, files: string -> SvgFile,
               pyStr: real -> string, others: (Generator, seq<Arg>, seq<string>) -> Option<Picture>): (r: Option<Picture>)
    requires t.pi > 0.0
    ensures g == Type18 && r.Some? ==> |args| == 3 && LocateSvg(Type18Generator.Prefix, materials, files).Some?
    ensures g == Type19 && r.Some? ==> |args| == 4 && LocateSvg(Type19Generator.Prefix, materials, files).Some?
  {
    match g
    case Type18 =>
      if |args| == 3 && args[0].Num? && args[1].Num? then
        Type18Generator.GenerateImage(t, args[0].x, args[1].x, pyStr(args[1].x), materials, files)
      else None
    case Type19 =>
      if |args| == 4 && args[0].Num? && args[1].Num? && args[2].Num? then
        Type19Generator.GenerateImage(t, args[0].x, args[1].x, args[2].x, pyStr(args[2].x), materials, files)
      else None
    case _ => others(g, args, materials)
  }

  /** The arc generators' pictures do not depend on the designation passed last. */
  lemma DesignationIgnored(g: Generator, args: seq<Arg>, designation: Arg, materials: seq<string>, t: Trig,
                           files: string -> SvgFile, pyStr: real -> string,
                           others: (Generator, seq<Arg>, seq<string>) -> Option<Picture>)
    requires t.pi > 0.0
    requires g == Type18 || g == Type19
    requires args != []
    ensures Run(g, args[..|args| - 1] + [designation], materials, t, files, pyStr, others)
            == Run(g, args, materials, t, files, pyStr, others)
  {
    var changed := args[..|args| - 1] + [designation];
    assert |changed| == |args|;
    assert forall i :: 0 <= i < |args| - 1 ==> changed[i] == args[i];
  }
}
