// utils/graphics/manager_new.py: the graphics manager that hands every
// picture to a registered generator. It holds the module-level registry
// itself, not a copy, so adding or removing a generator through any manager
// changes what every other holder sees. Scanning the materials directory is
// file I/O: its result is the constructor's argument.

module ImageManager {
  import opened Common
  import opened ShapeCommon
  import opened Dict
  import opened BaseGenerator
  import opened Generators

  /**
   * What `generate_rebar_image` gives for a type: None for a type without a
   * generator, otherwise the generator's result with the manager's
   * materials passed in.
   */
  function ImageFor(entries: Entries<string, Generator>, key: string, args: seq<Arg>, materials: seq<string>,
                    t: Trig, files: string -> SvgFile, pyStr: real -> string,
                    others: (Generator, seq<Arg>, seq<string>) -> Option<Picture>): (r: Option<Picture>)
    requires t.pi > 0.0
    ensures !HasKey(entries, key) ==> r.None?
    ensures HasKey(entries, key) ==> r == Run(Get(entries, key).value, args, materials, t, files, pyStr, others)
  {
    match Get(entries, key)
    case None => None
    case Some(g) => Run(g, args, materials, t, files, pyStr, others)
  }

  /**
   * On the initial registry an arc picture needs a material named `18-...`:
   * with none among the manager's materials the result is None.
   */
  lemma ArcNeedsMaterial(args: seq<Arg>, materials: seq<string>, t: Trig, files: string -> SvgFile, pyStr: real -> string,
                         others: (Generator, seq<Arg>, seq<string>) -> Option<Picture>)
    requires t.pi > 0.0
    requires forall i :: 0 <= i < |materials| ==> !StartsWith(materials[i], "18-")
    ensures ImageFor(DefaultEntries, "type18", args, materials, t, files, pyStr, others).None?
  {
    GetGeneratorDefault("type18");
    assert HasKey(DefaultEntries, "type18") by {
      assert DefaultEntries[3].0 == "type18";
    }
  }

  class GraphicsManager {
    /** The module-level registry, shared with `get_all_generators`. */
    const generators: Registry
    var availableMaterials: seq<string>

    constructor(shared: Registry, scanned: seq<string>)
      ensures generators == shared && availableMaterials == scanned
    {
      generators := shared;
      availableMaterials := scanned;
    }

    /** `generate_rebar_image`. */
    method GenerateRebarImage(key: string, args: seq<Arg>, t: Trig, files: string -> SvgFile, pyStr: real -> string,
                              others: (Generator, seq<Arg>, seq<string>) -> Option<Picture>) returns (r: Option<Picture>)
      requires t.pi > 0.0
      ensures r == ImageFor(generators.entries, key, args, availableMaterials, t, files, pyStr, others)
    {
      var g := GetGenerator(generators, key);
      if g.None? {
        return None;
      }
      r := Run(g.value, args, availableMaterials, t, files, pyStr, others);
    }

    /** `generate_type10_rebar_image`: a type10 call with the length and designation. */
    method GenerateType10Image(length: real, number: string, t: Trig, files: string -> SvgFile, pyStr: real -> string,
                               others: (Generator, seq<Arg>, seq<string>) -> Option<Picture>) returns (r: Option<Picture>)
      requires t.pi > 0.0
      ensures r == ImageFor(generators.entries, "type10", [Num(length), Str(number)], availableMaterials, t, files, pyStr, others)
    {
      r := GenerateRebarImage("type10", [Num(length), Str(number)], t, files, pyStr, others);
    }

    /** `generate_type11_rebar_image`: a type11 call with the length and designation. */
    method GenerateType11Image(length: real, number: string, t: Trig, files: string -> SvgFile, pyStr: real -> string,
                               others: (Generator, seq<Arg>, seq<string>) -> Option<Picture>) returns (r: Option<Picture>)
      requires t.pi > 0.0
      ensures r == ImageFor(generators.entries, "type11", [Num(length), Str(number)], availableMaterials, t, files, pyStr, others)
    {
      r := GenerateRebarImage("type11", [Num(length), Str(number)], t, files, pyStr, others);
    }

    /** `generate_type12_rebar_image`: a type12 call with the segments, angles and designation. */
    method GenerateType12Image(segments: seq<real>, angles: seq<real>, number: string, t: Trig, files: string -> SvgFile,
                               pyStr: real -> string, others: (Generator, seq<Arg>, seq<string>) -> Option<Picture>)
      returns (r: Option<Picture>)
      requires t.pi > 0.0
      ensures r == ImageFor(generators.entries, "type12", [Nums(segments), Nums(angles), Str(number)],
                            availableMaterials, t, files, pyStr, others)
    {
      r := GenerateRebarImage("type12", [Nums(segments), Nums(angles), Str(number)], t, files, pyStr, others);
    }

    /** `add_generator`: set one key of the shared registry; the key then finds the generator. */
    method AddGenerator(key: string, g: Generator)
      modifies generators
      ensures generators.entries == Put(old(generators.entries), key, g)
      ensures GetGenerator(generators, key) == Some(g)
      ensures forall k :: k != key ==> GetGenerator(generators, k) == Get(old(generators.entries), k)
    {
      PutGet(generators.entries, key, g, key);
      forall k | k != key ensures Get(Put(generators.entries, key, g), k) == Get(generators.entries, k) {
        PutGet(generators.entries, key, g, k);
      }
      generators.entries := Put(generators.entries, key, g);
    }

    /** `remove_generator`: delete a key of the shared registry if it is there. */
    method RemoveGenerator(key: string)
      modifies generators
      ensures generators.entries
              == if HasKey(old(generators.entries), key) then Delete(old(generators.entries), key)
                 else old(generators.entries)
      ensures GetGenerator(generators, key).None?
      ensures forall k :: k != key ==> GetGenerator(generators, k) == Get(old(generators.entries), k)
    {
      if HasKey(generators.entries, key) {
        DeleteGet(generators.entries, key, key);
        forall k | k != key ensures Get(Delete(generators.entries, key), k) == Get(generators.entries, k) {
          DeleteGet(generators.entries, key, k);
        }
        generators.entries := Delete(generators.entries, key);
      }
    }

    /** `get_supported_types`: the registry's keys, in order. */
    function GetSupportedTypes(): (ks: seq<string>)
      reads generators
      ensures |ks| == |generators.entries|
      ensures forall i :: 0 <= i < |ks| ==> ks[i] == generators.entries[i].0
    {
      Keys(generators.entries)
    }

    /** `list_available_materials`: a copy, which the caller may change without touching the manager. */
    method ListAvailableMaterials() returns (r: seq<string>)
      ensures r == availableMaterials
    {
      r := availableMaterials;
    }
  }

  /**
   * A generator added through one manager is used by another manager built
   * on the same registry, and a removed one is no longer found by either.
   */
  method SharedRegistry(registry: Registry, key: string, g: Generator, materials: seq<string>)
    returns (seenAfterAdd: Option<Generator>, seenAfterRemove: Option<Generator>)
    modifies registry
    ensures seenAfterAdd == Some(g)
    ensures seenAfterRemove.None?
    ensures registry.entries == Delete(Put(old(registry.entries), key, g), key)
  {
    var a := new GraphicsManager(registry, materials);
    var b := new GraphicsManager(registry, []);
    a.AddGenerator(key, g);
    seenAfterAdd := GetGenerator(b.generators, key);
    PutGet(old(registry.entries), key, g, key);
    b.RemoveGenerator(key);
    seenAfterRemove := GetGenerator(a.generators, key);
  }
}
