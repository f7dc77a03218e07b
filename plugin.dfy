/** The plugin's mutable state and its methods (src/index.js): the shared
    name cache, the mangler (the plugin object `this`, holding the per-run
    options and the set of nodes already mangled) and the fields of the
    program tree that the visitors overwrite. Every method is proved to do
    what the function of the same role in Renaming or Visitors specifies, so
    the lemmas proved there hold of these methods.
 */
module Plugin {
  import opened Generator
  import opened Renaming
  import opened Visitors

  /** The name cache `{ nameMap, seed }` that runs share. */
  class NameCache {
    var nameMap: map<string, string>
    var seed: nat

    constructor ()
      ensures nameMap == map[] && seed == 0
    {
      nameMap := map[];
      seed := 0;
    }

    function Value(): Cache
      reads this
    {
      Cache(nameMap, seed)
    }
  }

  /** The fields of the program tree's nodes that the plugin writes, by node
      id: the `name` of each Identifier node and the `shorthand` flag of each
      object property. */
  class Tree {
    var names: map<NodeId, string>
    var shorthand: map<NodeId, bool>

    constructor (names: map<NodeId, string>, shorthand: map<NodeId, bool>)
      ensures this.names == names && this.shorthand == shorthand
    {
      this.names := names;
      this.shorthand := shorthand;
    }
  }

  /** The plugin object. */
  class Mangler {
    var reservedNames: set<string>
    const globalAliases: set<string> := GlobalAliases
    var isDebugMode: bool
    var debugSuffix: string
    var nameCache: NameCache
    var alreadyMangledNodes: set<NodeId>

    /** `pre`: no reserved names, debug mode off, no node mangled. The cache,
        which the source assigns in the Program visitor before any other
        visitor runs, is given here. */
    constructor (cache: NameCache)
      ensures reservedNames == {} && !isDebugMode && debugSuffix == ""
      ensures nameCache == cache && alreadyMangledNodes == {}
    {
      reservedNames := {};
      isDebugMode := false;
      debugSuffix := "";
      nameCache := cache;
      alreadyMangledNodes := {};
    }

    function CurrentOptions(): Options
      reads this
    {
      Options(reservedNames, isDebugMode, debugSuffix)
    }

    function StateOf(tree: Tree): State
      reads this, nameCache, tree
    {
      State(nameCache.Value(), tree.names, tree.shorthand, alreadyMangledNodes)
    }

    /** The Program visitor: forget the nodes mangled by the previous run, read
        the options (the suffix only in debug mode; otherwise the old one
        stays) and attach the shared cache. The options arrive already
        defaulted: no reserved names, debug off, empty suffix. */
    method Program(cache: NameCache, reservedNames: set<string>, debug: bool, debugSuffix: string)
      modifies this
      ensures alreadyMangledNodes == {}
      ensures this.reservedNames == reservedNames && isDebugMode == debug
      ensures this.debugSuffix == if debug then debugSuffix else old(this.debugSuffix)
      ensures nameCache == cache
    {
      alreadyMangledNodes := {};
      this.reservedNames := reservedNames;
      isDebugMode := debug;
      if isDebugMode {
        this.debugSuffix := debugSuffix;
      }
      nameCache := cache;
    }

    /** generateMangledName. */
    method GenerateMangledName(name: string) returns (r: string)
      modifies nameCache
      ensures Mangled(r, nameCache.Value()) == NewName(CurrentOptions(), old(nameCache.Value()), name)
    {
      if isDebugMode {
        r := "_$" + name + "$" + debugSuffix + "_";
      } else {
        r := GenerateIdentifierFromSeed(nameCache.seed);
        nameCache.seed := nameCache.seed + 1;
      }
    }

    /** mangleName. A stored substitute counts only when it is truthy, that is
        not the empty string. */
    method MangleName(name: string) returns (r: string)
      modifies nameCache
      ensures Mangled(r, nameCache.Value()) == Rename(CurrentOptions(), old(nameCache.Value()), name)
    {
      if name in reservedNames || name in globalAliases {
        return name;
      }
      var nameMap := nameCache.nameMap;
      var mangledName := if name in nameMap then nameMap[name] else "";
      if mangledName != "" {
        return mangledName;
      }
      mangledName := GenerateMangledName(name);
      nameCache.nameMap := nameCache.nameMap[name := mangledName];
      return mangledName;
    }

    /** mangleNode. */
    method MangleNode(tree: Tree, id: NodeId)
      requires id in tree.names
      modifies this`alreadyMangledNodes, nameCache, tree`names
      ensures StateOf(tree) == RenameNode(CurrentOptions(), old(StateOf(tree)), id)
    {
      if id in alreadyMangledNodes {
        return;
      }
      var newName := MangleName(tree.names[id]);
      tree.names := tree.names[id := newName];
      alreadyMangledNodes := alreadyMangledNodes + {id};
    }

    /** The ObjectProperty visitor. */
    method ObjectProperty(tree: Tree, propertyNode: NodeId, key: Child, computed: bool)
      requires ChildIds(key) <= tree.names.Keys
      modifies this`alreadyMangledNodes, nameCache, tree
      ensures StateOf(tree) == Step(CurrentOptions(), old(StateOf(tree)), AtObjectProperty(propertyNode, key, computed))
    {
      if !key.Identifier? {
        return;
      }
      tree.shorthand := tree.shorthand[propertyNode := false];
      MangleNode(tree, key.id);
    }

    /** The MemberExpression visitor. */
    method MemberExpression(tree: Tree, obj: Child, property: Child, computed: bool, bound: set<string>)
      requires ChildIds(obj) + ChildIds(property) <= tree.names.Keys
      modifies this`alreadyMangledNodes, nameCache, tree
      ensures StateOf(tree) == Step(CurrentOptions(), old(StateOf(tree)), AtMemberExpression(obj, property, computed, bound))
    {
      if !property.Identifier? {
        return;
      }
      if computed {
        return;
      }
      if obj.Identifier? {
        if tree.names[obj.id] in bound || tree.names[obj.id] in globalAliases {
          MangleNode(tree, property.id);
        } else {
          MangleNode(tree, property.id);
          MangleNode(tree, obj.id);
        }
      } else {
        MangleNode(tree, property.id);
      }
    }

    /** The ClassMethod visitor. */
    method ClassMethod(tree: Tree, key: NodeId, computed: bool)
      requires key in tree.names
      modifies this`alreadyMangledNodes, nameCache, tree
      ensures StateOf(tree) == Step(CurrentOptions(), old(StateOf(tree)), AtClassMethod(key, computed))
    {
      MangleNode(tree, key);
    }

    /** The ObjectMethod visitor. */
    method ObjectMethod(tree: Tree, key: NodeId, computed: bool)
      requires key in tree.names
      modifies this`alreadyMangledNodes, nameCache, tree
      ensures StateOf(tree) == Step(CurrentOptions(), old(StateOf(tree)), AtObjectMethod(key, computed))
    {
      MangleNode(tree, key);
    }

    /** The Identifier visitor. */
    method IdentifierVisitor(tree: Tree, id: NodeId, parentIsMetaProperty: bool, bound: set<string>)
      requires id in tree.names
      modifies this`alreadyMangledNodes, nameCache, tree
      ensures StateOf(tree) == Step(CurrentOptions(), old(StateOf(tree)), AtIdentifier(id, parentIsMetaProperty, bound))
    {
      if parentIsMetaProperty {
        return;
      }
      if tree.names[id] in bound {
        return;
      }
      MangleNode(tree, id);
    }

    /** Dispatch of one visit event to its visitor. */
    method Dispatch(tree: Tree, v: Visit)
      requires Nodes(v) <= tree.names.Keys
      modifies this`alreadyMangledNodes, nameCache, tree
      ensures StateOf(tree) == Step(CurrentOptions(), old(StateOf(tree)), v)
    {
      match v
      case AtObjectProperty(propertyNode, key, computed) =>
        ObjectProperty(tree, propertyNode, key, computed);
      case AtMemberExpression(obj, property, computed, bound) =>
        MemberExpression(tree, obj, property, computed, bound);
      case AtClassMethod(key, computed) =>
        ClassMethod(tree, key, computed);
      case AtObjectMethod(key, computed) =>
        ObjectMethod(tree, key, computed);
      case AtIdentifier(id, parentIsMetaProperty, bound) =>
        IdentifierVisitor(tree, id, parentIsMetaProperty, bound);
    }

    /** The visitors applied to a sequence of visit events, in order. */
    method Traverse(tree: Tree, visits: seq<Visit>)
      requires Covers(tree.names, visits)
      modifies this`alreadyMangledNodes, nameCache, tree
      ensures StateOf(tree) == Run(CurrentOptions(), old(StateOf(tree)), visits)
    {
      var i := 0;
      while i < |visits|
        invariant 0 <= i <= |visits|
        invariant Covers(tree.names, visits[i..])
        invariant Run(CurrentOptions(), StateOf(tree), visits[i..]) == Run(CurrentOptions(), old(StateOf(tree)), visits)
      {
        assert visits[i..][0] == visits[i] && visits[i..][1..] == visits[i + 1..];
        Dispatch(tree, visits[i]);
        i := i + 1;
      }
    }
  }
}
