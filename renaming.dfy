/** Renaming policy and name cache (src/index.js, generateMangledName and
    mangleName), as functions over values; the class `Plugin.Mangler`
    implements them imperatively.

    A name that is reserved or a global alias is kept. Otherwise the cached
    substitute is returned, or a new one is made (the next generated
    identifier, or the debug form `_$name$suffix_`) and stored. The cache only
    ever grows, and a name, once cached, keeps its substitute.
 */
module Renaming {
  import opened Generator

  /** Names recognised as aliases of the global scope object (`window.foo`
      renames only `foo`). */
  const GlobalAliases: set<string> := {"window", "self", "global", "exports"}

  /** The shared name cache `{ nameMap, seed }`. */
  datatype Cache = Cache(nameMap: map<string, string>, seed: nat)

  /** The per-run options that the Program visitor reads. */
  datatype Options = Options(reservedNames: set<string>, isDebugMode: bool, debugSuffix: string)

  /** A substitute name together with the cache after producing it. */
  datatype Mangled = Mangled(name: string, cache: Cache)

  /** The debug form of a substitute: `_$name$suffix_`. */
  function DebugName(name: string, suffix: string): string {
    "_$" + name + "$" + suffix + "_"
  }

  /** Under one suffix, the debug form tells names apart. */
  lemma DebugNameInjective(a: string, b: string, suffix: string)
    ensures DebugName(a, suffix) == DebugName(b, suffix) ==> a == b
  {
    if DebugName(a, suffix) == DebugName(b, suffix) {
      var w := DebugName(a, suffix);
      assert |a| == |b|;
      assert w[2..2 + |a|] == a;
      assert DebugName(b, suffix)[2..2 + |b|] == b;
    }
  }

  /** A debug substitute never has the shape of a generated one (it starts with `_`). */
  lemma DebugNameNotGenerated(name: string, suffix: string)
    ensures DebugName(name, suffix) != ""
    ensures SeedOfIdentifier(DebugName(name, suffix)) == None
  {
    assert DebugName(name, suffix)[0] == '_';
  }

  /** generateMangledName: the debug form, which consumes no seed, or the
      identifier generated from the current seed, which is then incremented. */
  function NewName(opts: Options, cache: Cache, name: string): (r: Mangled)
    ensures r.cache.nameMap == cache.nameMap
  {
    if opts.isDebugMode then Mangled(DebugName(name, opts.debugSuffix), cache)
    else Mangled(IdentifierFromSeed(cache.seed), cache.(seed := cache.seed + 1))
  }

  /** `nameMap.get(name)` is truthy: present and not the empty string. */
  predicate Cached(cache: Cache, name: string) {
    name in cache.nameMap && cache.nameMap[name] != ""
  }

  /** mangleName. */
  function Rename(opts: Options, cache: Cache, name: string): (r: Mangled)
    ensures r.cache.nameMap.Keys <= cache.nameMap.Keys + {name}
  {
    if name in opts.reservedNames || name in GlobalAliases then Mangled(name, cache)
    else if Cached(cache, name) then Mangled(cache.nameMap[name], cache)
    else
      var g := NewName(opts, cache, name);
      Mangled(g.name, g.cache.(nameMap := g.cache.nameMap[name := g.name]))
  }

  /** Whether a substitute is one the generator produced. */
  predicate IsGenerated(w: string) {
    SeedOfIdentifier(w).Some?
  }

  /** The invariant every cache built by Rename keeps: no substitute is
      empty, every generated substitute came from a seed already consumed,
      and no generated substitute is shared by two names. */
  predicate Consistent(cache: Cache) {
    && (forall n :: n in cache.nameMap ==> cache.nameMap[n] != "")
    && (forall n :: n in cache.nameMap && IsGenerated(cache.nameMap[n]) ==>
          SeedOfIdentifier(cache.nameMap[n]).value < cache.seed)
    && (forall a, b :: a in cache.nameMap && b in cache.nameMap && a != b && IsGenerated(cache.nameMap[a]) ==>
          cache.nameMap[a] != cache.nameMap[b])
  }

  /** `later` keeps every entry of `earlier` and has not gone back in seeds. */
  predicate Extends(earlier: Cache, later: Cache) {
    && earlier.seed <= later.seed
    && (forall n :: n in earlier.nameMap ==> n in later.nameMap && later.nameMap[n] == earlier.nameMap[n])
  }

  lemma ExtendsTransitive(a: Cache, b: Cache, c: Cache)
    requires Extends(a, b) && Extends(b, c)
    ensures Extends(a, c)
  {
  }

  /** The empty cache the source starts from is consistent. */
  lemma EmptyCacheConsistent()
    ensures Consistent(Cache(map[], 0))
  {
  }

  /** The three outcomes of mangleName on a consistent cache. A reserved name or
      a global alias is returned as it is and nothing changes; a cached name
      gets its stored substitute and nothing changes; any other name gets
      exactly one new entry, the debug form with the seed unchanged in debug
      mode and the identifier of the current seed with the seed advanced by
      one otherwise. */
  lemma RenameOutcomes(opts: Options, cache: Cache, name: string)
    requires Consistent(cache)
    ensures var r := Rename(opts, cache, name);
      if name in opts.reservedNames || name in GlobalAliases then
        r.name == name && r.cache == cache
      else if name in cache.nameMap then
        r.name == cache.nameMap[name] && r.cache == cache
      else
        && r.cache.nameMap == cache.nameMap[name := r.name]
        && (opts.isDebugMode ==>
              r.name == DebugName(name, opts.debugSuffix) && r.cache.seed == cache.seed)
        && (!opts.isDebugMode ==>
              r.name == IdentifierFromSeed(cache.seed) && r.cache.seed == cache.seed + 1)
  {
  }

  /** Asking again for the same name gives the same answer and changes nothing. */
  lemma RenameIdempotent(opts: Options, cache: Cache, name: string)
    ensures var r := Rename(opts, cache, name);
      Rename(opts, r.cache, name) == r
  {
    var r := Rename(opts, cache, name);
    if !(name in opts.reservedNames || name in GlobalAliases) && !Cached(cache, name) {
      if opts.isDebugMode {
        DebugNameNotGenerated(name, opts.debugSuffix);
      }
      assert r.cache.nameMap[name] == r.name != "";
    }
  }

  /** mangleName keeps the cache consistent, never changes or drops an entry,
      and in normal mode consumes exactly one seed per new entry (none in
      debug mode). */
  lemma RenameKeepsConsistent(opts: Options, cache: Cache, name: string)
    requires Consistent(cache)
    ensures var r := Rename(opts, cache, name);
      && Consistent(r.cache)
      && Extends(cache, r.cache)
      && (opts.isDebugMode ==> r.cache.seed == cache.seed)
      && (!opts.isDebugMode ==> r.cache.seed - cache.seed == |r.cache.nameMap| - |cache.nameMap|)
  {
    var r := Rename(opts, cache, name);
    if !(name in opts.reservedNames || name in GlobalAliases) && !Cached(cache, name) {
      assert name !in cache.nameMap;
      var m := r.cache.nameMap;
      assert m == cache.nameMap[name := r.name];
      assert |m| == |cache.nameMap| + 1 by {
        assert m.Keys == cache.nameMap.Keys + {name};
      }
      NewEntryKeepsConsistent(opts, cache, name, r.name);
    }
  }

  /** Adding the fresh substitute of a name the cache does not hold keeps the
      cache consistent: a debug form is never generated-shaped, and the
      identifier of the current seed has not been handed out before. */
  lemma NewEntryKeepsConsistent(opts: Options, cache: Cache, name: string, w: string)
    requires Consistent(cache) && name !in cache.nameMap
    requires w == NewName(opts, cache, name).name
    ensures Consistent(NewName(opts, cache, name).cache.(nameMap := cache.nameMap[name := w]))
  {
    var m := cache.nameMap[name := w];
    if opts.isDebugMode {
      DebugNameNotGenerated(name, opts.debugSuffix);
      assert !IsGenerated(m[name]);
    } else {
      DecodeGenerated(cache.seed);
      assert SeedOfIdentifier(m[name]).value == cache.seed;
      forall a | a in cache.nameMap && IsGenerated(cache.nameMap[a])
        ensures cache.nameMap[a] != m[name]
      {
        assert SeedOfIdentifier(cache.nameMap[a]).value < cache.seed;
      }
    }
  }
}
