/** Node mutation and the classification rules (src/index.js, mangleNode and
    the visitor bodies), as functions over values; `Plugin.Mangler`
    implements them imperatively.

    The program tree is an arena: node ids stand for node identity, and the
    state holds the fields the plugin writes (the `name` of Identifier nodes,
    the `shorthand` flag of object properties) beside the name cache and the
    set of nodes already mangled in this run. The traversal is a sequence of
    visit events in the order the host would dispatch them, and Babel's
    `path.scope.hasBinding` is the set of names bound at the visited position.
 */
module Visitors {
  import opened Generator
  import opened Renaming

  type NodeId = nat

  datatype State = State(
    cache: Cache,
    names: map<NodeId, string>,
    shorthand: map<NodeId, bool>,
    mangled: set<NodeId>)

  /** A child node as the rules look at it: `child.type === "Identifier"`, or not. */
  datatype Child = Identifier(id: NodeId) | NotIdentifier

  /** One call of a visitor. `computed` is the node's `computed` flag and
      `bound` the names `path.scope.hasBinding` reports at that position. */
  datatype Visit =
    | AtObjectProperty(propertyNode: NodeId, key: Child, computed: bool)
    | AtMemberExpression(obj: Child, property: Child, computed: bool, bound: set<string>)
    | AtClassMethod(methodKey: NodeId, computed: bool)
    | AtObjectMethod(methodKey: NodeId, computed: bool)
    | AtIdentifier(id: NodeId, parentIsMetaProperty: bool, bound: set<string>)

  function ChildIds(c: Child): set<NodeId> {
    if c.Identifier? then {c.id} else {}
  }

  /** The Identifier nodes a visit can reach. */
  function Nodes(v: Visit): set<NodeId> {
    match v
    case AtObjectProperty(_, key, _) => ChildIds(key)
    case AtMemberExpression(obj, property, _, _) => ChildIds(obj) + ChildIds(property)
    case AtClassMethod(key, _) => {key}
    case AtObjectMethod(key, _) => {key}
    case AtIdentifier(id, _, _) => {id}
  }

  /** Every node the visits reach is a node of the tree. */
  predicate Covers(names: map<NodeId, string>, vs: seq<Visit>) {
    forall i :: 0 <= i < |vs| ==> Nodes(vs[i]) <= names.Keys
  }

  /** mangleNode: a node already mangled in this run is left alone; otherwise
      its name becomes mangleName of its name and the node is recorded. */
  function RenameNode(opts: Options, st: State, id: NodeId): (r: State)
    requires id in st.names
    ensures r.names.Keys == st.names.Keys
  {
    if id in st.mangled then st
    else
      var m := Rename(opts, st.cache, st.names[id]);
      st.(cache := m.cache, names := st.names[id := m.name], mangled := st.mangled + {id})
  }

  /** The visitor bodies. */
  function Step(opts: Options, st: State, v: Visit): (r: State)
    requires Nodes(v) <= st.names.Keys
    ensures r.names.Keys == st.names.Keys
  {
    match v
    case AtObjectProperty(propertyNode, key, _) =>
      (match key
       case Identifier(k) => RenameNode(opts, st.(shorthand := st.shorthand[propertyNode := false]), k)
       case NotIdentifier => st)
    case AtMemberExpression(obj, property, computed, bound) =>
      (match property
       case NotIdentifier => st
       case Identifier(p) =>
         if computed then st
         else
           match obj
           case Identifier(o) =>
             if st.names[o] in bound || st.names[o] in GlobalAliases then RenameNode(opts, st, p)
             else RenameNode(opts, RenameNode(opts, st, p), o)
           case NotIdentifier => RenameNode(opts, st, p))
    case AtClassMethod(key, _) => RenameNode(opts, st, key)
    case AtObjectMethod(key, _) => RenameNode(opts, st, key)
    case AtIdentifier(id, parentIsMetaProperty, bound) =>
      if parentIsMetaProperty then st
      else if st.names[id] in bound then st
      else RenameNode(opts, st, id)
  }

  /** A run over a sequence of visits. */
  function Run(opts: Options, st: State, vs: seq<Visit>): (r: State)
    requires Covers(st.names, vs)
    ensures r.names.Keys == st.names.Keys
    decreases |vs|
  {
    if vs == [] then st
    else Run(opts, Step(opts, st, vs[0]), vs[1..])
  }

  /** A traversal can be split anywhere: running `a + b` is running `a` and
      then `b` from where `a` ended. */
  lemma {:induction false} RunAppend(opts: Options, st: State, a: seq<Visit>, b: seq<Visit>)
    requires Covers(st.names, a + b)
    ensures Covers(st.names, a) && Covers(Run(opts, st, a).names, b)
    ensures Run(opts, st, a + b) == Run(opts, Run(opts, st, a), b)
    decreases |a|
  {
    assert forall i :: 0 <= i < |a| ==> a[i] == (a + b)[i];
    assert forall i :: 0 <= i < |b| ==> b[i] == (a + b)[|a| + i];
    if a != [] {
      var mid := Step(opts, st, a[0]);
      assert (a + b)[0] == a[0] && (a + b)[1..] == a[1..] + b;
      assert Covers(mid.names, a[1..] + b) by {
        forall i | 0 <= i < |a[1..] + b|
          ensures Nodes((a[1..] + b)[i]) <= mid.names.Keys
        {
          assert (a[1..] + b)[i] == (a + b)[i + 1];
        }
      }
      RunAppend(opts, mid, a[1..], b);
      assert Run(opts, st, a) == Run(opts, mid, a[1..]);
      assert Run(opts, st, a + b) == Run(opts, mid, a[1..] + b);
    } else {
      assert a + b == b;
    }
  }

  /** The classification table, stated on its own: the nodes a visit submits
      for renaming. Object property keys and method keys when they are
      Identifiers (whether computed or not); for a non-computed `object.property`
      with an Identifier property, the property, and the object too when it is
      an Identifier that is neither bound nor a global alias; any other
      Identifier unless it sits in a meta-property or its name is bound. */
  function Submitted(v: Visit, names: map<NodeId, string>): set<NodeId>
    requires Nodes(v) <= names.Keys
  {
    match v
    case AtObjectProperty(_, key, _) => ChildIds(key)
    case AtMemberExpression(obj, property, computed, bound) =>
      if computed || !property.Identifier? then {}
      else if obj.Identifier? && names[obj.id] !in bound && names[obj.id] !in GlobalAliases
      then {property.id, obj.id}
      else {property.id}
    case AtClassMethod(key, _) => {key}
    case AtObjectMethod(key, _) => {key}
    case AtIdentifier(id, parentIsMetaProperty, bound) =>
      if parentIsMetaProperty || names[id] in bound then {} else {id}
  }

  /** A visit marks exactly the submitted nodes as mangled, changes the name of
      no other node, changes no name of a node already mangled, and clears the
      shorthand flag of an object property exactly when its key is an Identifier. */
  lemma StepFollowsClassification(opts: Options, st: State, v: Visit)
    requires Nodes(v) <= st.names.Keys
    ensures var r := Step(opts, st, v);
      && r.mangled == st.mangled + Submitted(v, st.names)
      && (forall id :: id in st.names && (id !in Submitted(v, st.names) || id in st.mangled) ==>
            r.names[id] == st.names[id])
      && r.shorthand == (if v.AtObjectProperty? && v.key.Identifier?
                         then st.shorthand[v.propertyNode := false] else st.shorthand)
  {
    match v
    case AtMemberExpression(obj, property, computed, bound) =>
      if !computed && property.Identifier? && obj.Identifier? {
        var p, o := property.id, obj.id;
        if st.names[o] !in bound && st.names[o] !in GlobalAliases {
          var mid := RenameNode(opts, st, p);
          assert mid.mangled == st.mangled + {p};
          assert o != p ==> mid.names[o] == st.names[o];
        }
      }
    case _ =>
  }

  /** mangleNode is idempotent: a second call on the same node changes nothing. */
  lemma RenameNodeIdempotent(opts: Options, st: State, id: NodeId)
    requires id in st.names
    ensures var r := RenameNode(opts, st, id);
      && RenameNode(opts, r, id) == r
      && (forall j :: j in st.names && j != id ==> r.names[j] == st.names[j])
      && r.shorthand == st.shorthand
      && id in r.mangled
  {
  }

  /** In normal mode, mangling a node whose name is new gives it the
      identifier of the current seed, records it, and consumes that seed. */
  lemma RenameNodeFresh(opts: Options, st: State, id: NodeId)
    requires Consistent(st.cache) && !opts.isDebugMode
    requires id in st.names && id !in st.mangled
    requires st.names[id] !in opts.reservedNames + GlobalAliases + st.cache.nameMap.Keys
    ensures var r := RenameNode(opts, st, id);
      && r.names == st.names[id := IdentifierFromSeed(st.cache.seed)]
      && r.cache == Cache(st.cache.nameMap[st.names[id] := IdentifierFromSeed(st.cache.seed)], st.cache.seed + 1)
      && r.mangled == st.mangled + {id}
      && r.shorthand == st.shorthand
      && Consistent(r.cache)
  {
    RenameOutcomes(opts, st.cache, st.names[id]);
    RenameKeepsConsistent(opts, st.cache, st.names[id]);
  }

  /** For `foo.bar` with both names new and neither bound, reserved nor an
      alias, the property is renamed first: it takes the current seed and the
      object the next one. */
  lemma MemberPropertyBeforeObject(opts: Options, st: State, o: NodeId, p: NodeId, bound: set<string>)
    requires Consistent(st.cache) && !opts.isDebugMode
    requires o in st.names && p in st.names && o != p
    requires o !in st.mangled && p !in st.mangled
    requires st.names[o] != st.names[p]
    requires st.names[o] !in bound
    requires st.names[o] !in opts.reservedNames + GlobalAliases + st.cache.nameMap.Keys
    requires st.names[p] !in opts.reservedNames + GlobalAliases + st.cache.nameMap.Keys
    ensures var r := Step(opts, st, AtMemberExpression(Identifier(o), Identifier(p), false, bound));
      && r.names[p] == IdentifierFromSeed(st.cache.seed)
      && r.names[o] == IdentifierFromSeed(st.cache.seed + 1)
      && r.cache.seed == st.cache.seed + 2
  {
    var v := AtMemberExpression(Identifier(o), Identifier(p), false, bound);
    RenameNodeFresh(opts, st, p);
    var mid := RenameNode(opts, st, p);
    assert mid.names[o] == st.names[o] && o !in mid.mangled;
    assert mid.cache.nameMap.Keys == st.cache.nameMap.Keys + {st.names[p]};
    RenameNodeFresh(opts, mid, o);
    assert Step(opts, st, v) == RenameNode(opts, mid, o);
  }

  /** Object property keys and method keys are submitted whether or not they
      are computed: only MemberExpression looks at `computed`. */
  lemma ComputedFlagIgnored(opts: Options, st: State, prop: NodeId, k: NodeId)
    requires k in st.names
    ensures Step(opts, st, AtObjectProperty(prop, Identifier(k), true))
         == Step(opts, st, AtObjectProperty(prop, Identifier(k), false))
    ensures Step(opts, st, AtClassMethod(k, true)) == Step(opts, st, AtClassMethod(k, false))
    ensures Step(opts, st, AtObjectMethod(k, true)) == Step(opts, st, AtObjectMethod(k, false))
    ensures k in Step(opts, st, AtObjectProperty(prop, Identifier(k), true)).mangled
  {
  }

  /** `current` is what mangleName gives `original` against `cache`: the name
      itself when reserved or an alias, otherwise its cached substitute. */
  predicate SubstituteOf(opts: Options, cache: Cache, original: string, current: string) {
    if original in opts.reservedNames || original in GlobalAliases then current == original
    else original in cache.nameMap && cache.nameMap[original] == current
  }

  /** In normal mode every new cache entry consumed one seed; in debug mode no seed was consumed. */
  predicate SeedsAccounted(opts: Options, before: Cache, after: Cache) {
    if opts.isDebugMode then after.seed == before.seed
    else after.seed - before.seed == |after.nameMap| - |before.nameMap|
  }

  /** From `before` to `after`: the cache only grew, seeds were consumed one per
      new entry, and every node either kept its name or was mangled in between
      and now carries the substitute of its original name. */
  predicate RenamedConsistently(opts: Options, before: State, after: State) {
    && before.names.Keys == after.names.Keys
    && before.mangled <= after.mangled
    && Extends(before.cache, after.cache)
    && SeedsAccounted(opts, before.cache, after.cache)
    && forall id :: id in before.names ==>
         if id in after.mangled && id !in before.mangled
         then SubstituteOf(opts, after.cache, before.names[id], after.names[id])
         else after.names[id] == before.names[id]
  }

  lemma RenamedConsistentlyTransitive(opts: Options, a: State, b: State, c: State)
    requires RenamedConsistently(opts, a, b) && RenamedConsistently(opts, b, c)
    ensures RenamedConsistently(opts, a, c)
  {
    forall id | id in a.names && id in c.mangled && id !in a.mangled
      ensures SubstituteOf(opts, c.cache, a.names[id], c.names[id])
    {
      if id in b.mangled {
        assert c.names[id] == b.names[id];
      } else {
        assert b.names[id] == a.names[id];
      }
    }
  }

  lemma RenameNodeConsistently(opts: Options, st: State, id: NodeId)
    requires Consistent(st.cache) && id in st.names
    ensures var r := RenameNode(opts, st, id);
      Consistent(r.cache) && RenamedConsistently(opts, st, r)
  {
    if id !in st.mangled {
      RenameOutcomes(opts, st.cache, st.names[id]);
      RenameKeepsConsistent(opts, st.cache, st.names[id]);
    }
  }

  lemma StepConsistently(opts: Options, st: State, v: Visit)
    requires Consistent(st.cache) && Nodes(v) <= st.names.Keys
    ensures var r := Step(opts, st, v);
      Consistent(r.cache) && RenamedConsistently(opts, st, r)
  {
    match v
    case AtObjectProperty(prop, key, _) =>
      if key.Identifier? {
        RenameNodeConsistently(opts, st.(shorthand := st.shorthand[prop := false]), key.id);
      }
    case AtMemberExpression(obj, property, computed, bound) =>
      if property.Identifier? && !computed {
        var p := property.id;
        RenameNodeConsistently(opts, st, p);
        if obj.Identifier? && st.names[obj.id] !in bound && st.names[obj.id] !in GlobalAliases {
          var mid := RenameNode(opts, st, p);
          RenameNodeConsistently(opts, mid, obj.id);
          RenamedConsistentlyTransitive(opts, st, mid, RenameNode(opts, mid, obj.id));
        }
      }
    case AtClassMethod(key, _) =>
      RenameNodeConsistently(opts, st, key);
    case AtObjectMethod(key, _) =>
      RenameNodeConsistently(opts, st, key);
    case AtIdentifier(id, parentIsMetaProperty, bound) =>
      if !parentIsMetaProperty && st.names[id] !in bound {
        RenameNodeConsistently(opts, st, id);
      }
  }

  /** Over a whole run from a consistent cache: the cache stays consistent and
      only grows, every new entry consumed exactly one seed in normal mode and
      none in debug mode, and every node mangled during the run carries the
      substitute of its original name while every other node keeps its name. */
  lemma {:induction false} RunConsistently(opts: Options, st: State, vs: seq<Visit>)
    requires Consistent(st.cache) && Covers(st.names, vs)
    ensures var r := Run(opts, st, vs);
      Consistent(r.cache) && RenamedConsistently(opts, st, r)
    decreases |vs|
  {
    if vs != [] {
      var mid := Step(opts, st, vs[0]);
      StepConsistently(opts, st, vs[0]);
      assert Covers(mid.names, vs[1..]) by {
        forall i | 0 <= i < |vs[1..]|
          ensures Nodes(vs[1..][i]) <= mid.names.Keys
        {
          assert vs[1..][i] == vs[i + 1];
        }
      }
      RunConsistently(opts, mid, vs[1..]);
      RenamedConsistentlyTransitive(opts, st, mid, Run(opts, mid, vs[1..]));
    }
  }

  /** Two nodes renamed in one run from the same original name end up with the
      same name (`foo` in `foo.bar` and in `log(foo)`). */
  lemma SameNameSameSubstitute(opts: Options, st: State, vs: seq<Visit>, a: NodeId, b: NodeId)
    requires Consistent(st.cache) && Covers(st.names, vs)
    requires a in st.names && b in st.names && st.names[a] == st.names[b]
    requires a in Run(opts, st, vs).mangled - st.mangled
    requires b in Run(opts, st, vs).mangled - st.mangled
    ensures Run(opts, st, vs).names[a] == Run(opts, st, vs).names[b]
  {
    RunConsistently(opts, st, vs);
  }

  /** Two nodes renamed in one run from different names, neither reserved nor
      an alias, do not end up with the same generated name. */
  lemma DistinctNamesDistinctSubstitutes(opts: Options, st: State, vs: seq<Visit>, a: NodeId, b: NodeId)
    requires Consistent(st.cache) && Covers(st.names, vs)
    requires a in st.names && b in st.names && st.names[a] != st.names[b]
    requires st.names[a] !in opts.reservedNames + GlobalAliases
    requires st.names[b] !in opts.reservedNames + GlobalAliases
    requires a in Run(opts, st, vs).mangled - st.mangled
    requires b in Run(opts, st, vs).mangled - st.mangled
    requires IsGenerated(Run(opts, st, vs).names[a])
    ensures Run(opts, st, vs).names[a] != Run(opts, st, vs).names[b]
  {
    RunConsistently(opts, st, vs);
  }
}
