/** The expectations of __tests__/mangle-properties-test.js as consequences of
    the model. Each program is given as the Identifier nodes it contains (by
    id, with their names), the object property nodes whose shorthand flag
    matters, and the visits a traversal makes, in order, with the names bound
    at each position. Every run starts from a fresh cache. Each visit that
    renames something has a lemma of its own; the runs are put together from
    those steps. */
module Examples {
  import opened Generator
  import opened Renaming
  import opened Visitors
  import opened Plugin

  const Defaults: Options := Options({}, false, "")

  /** The state at the start of a program: an empty cache, no node mangled. */
  function Fresh(names: map<NodeId, string>): State {
    State(Cache(map[], 0), names, map[], {})
  }

  /** Like Fresh, with the shorthand flags of the program's object properties. */
  function FreshWith(names: map<NodeId, string>, shorthand: map<NodeId, bool>): State {
    State(Cache(map[], 0), names, shorthand, {})
  }

  /** A run of two visits is its two steps. */
  lemma RunOfTwo(opts: Options, st: State, v0: Visit, v1: Visit, s1: State, s2: State)
    requires Nodes(v0) <= st.names.Keys && Nodes(v1) <= st.names.Keys
    requires Step(opts, st, v0) == s1 && Step(opts, s1, v1) == s2
    ensures Covers(st.names, [v0, v1]) && Run(opts, st, [v0, v1]) == s2
  {
    assert [v0, v1][1..] == [v1];
    assert [v1][1..] == [];
    assert Run(opts, s1, [v1]) == s2;
  }

  /** A run of three visits is its three steps. */
  lemma RunOfThree(opts: Options, st: State, v0: Visit, v1: Visit, v2: Visit, s1: State, s2: State, s3: State)
    requires Nodes(v0) <= st.names.Keys && Nodes(v1) <= st.names.Keys && Nodes(v2) <= st.names.Keys
    requires Step(opts, st, v0) == s1 && Step(opts, s1, v1) == s2 && Step(opts, s2, v2) == s3
    ensures Covers(st.names, [v0, v1, v2]) && Run(opts, st, [v0, v1, v2]) == s3
  {
    RunOfTwo(opts, s1, v1, v2, s2, s3);
    assert [v0, v1, v2][1..] == [v1, v2];
  }

  /** A run of four visits is its four steps. */
  lemma RunOfFour(opts: Options, st: State, v0: Visit, v1: Visit, v2: Visit, v3: Visit,
                  s1: State, s2: State, s3: State, s4: State)
    requires Nodes(v0) <= st.names.Keys && Nodes(v1) <= st.names.Keys
    requires Nodes(v2) <= st.names.Keys && Nodes(v3) <= st.names.Keys
    requires Step(opts, st, v0) == s1 && Step(opts, s1, v1) == s2
    requires Step(opts, s2, v2) == s3 && Step(opts, s3, v3) == s4
    ensures Covers(st.names, [v0, v1, v2, v3]) && Run(opts, st, [v0, v1, v2, v3]) == s4
  {
    RunOfThree(opts, s1, v1, v2, v3, s2, s3, s4);
    assert [v0, v1, v2, v3][1..] == [v1, v2, v3];
  }

  /** Running `a + b` through a state reached after `a`. */
  lemma RunInTwo(opts: Options, st: State, a: seq<Visit>, b: seq<Visit>, mid: State, end: State)
    requires Covers(st.names, a) && Covers(st.names, b)
    requires Run(opts, st, a) == mid && Run(opts, mid, b) == end
    ensures Covers(st.names, a + b) && Run(opts, st, a + b) == end
  {
    assert Covers(st.names, a + b) by {
      forall i | 0 <= i < |a + b|
        ensures Nodes((a + b)[i]) <= st.names.Keys
      {
        if i < |a| {
          assert (a + b)[i] == a[i];
        } else {
          assert (a + b)[i] == b[i - |a|];
        }
      }
    }
    RunAppend(opts, st, a, b);
  }

  // ---------------------------------------------------------------------
  // `foo.bar = 1; log(foo);` becomes `B.A = 1; C(B);`

  /** Ids 0 `foo`, 1 `bar`, 2 `log`, 3 `foo`; nothing is bound at the top level. */
  const GlobalNames: map<NodeId, string> := map[0 := "foo", 1 := "bar", 2 := "log", 3 := "foo"]
  const GlobalAssignment: seq<Visit> :=
    [AtMemberExpression(Identifier(0), Identifier(1), false, {}), AtIdentifier(0, false, {}), AtIdentifier(1, false, {})]
  const GlobalCall: seq<Visit> := [AtIdentifier(2, false, {}), AtIdentifier(3, false, {})]

  /** After `foo.bar`: the property took the first seed, the object the second. */
  const GlobalAssignmentDone: State :=
    State(Cache(map["bar" := "A", "foo" := "B"], 2), GlobalNames[1 := "A"][0 := "B"], map[], {1, 0})

  lemma GlobalMemberStep()
    ensures Step(Defaults, Fresh(GlobalNames), GlobalAssignment[0]) == GlobalAssignmentDone
  {
    FirstGeneratedNames();
  }

  const GlobalLogDone: State :=
    State(Cache(map["bar" := "A", "foo" := "B", "log" := "C"], 3),
          GlobalNames[1 := "A"][0 := "B"][2 := "C"], map[], {1, 0, 2})

  lemma GlobalLogStep()
    ensures Step(Defaults, GlobalAssignmentDone, GlobalCall[0]) == GlobalLogDone
  {
    FirstGeneratedNames();
  }

  /** The second `foo` reuses its substitute. */
  const GlobalCallDone: State :=
    State(Cache(map["bar" := "A", "foo" := "B", "log" := "C"], 3),
          GlobalNames[1 := "A"][0 := "B"][2 := "C"][3 := "B"], map[], {1, 0, 2, 3})

  lemma GlobalFooStep()
    ensures Step(Defaults, GlobalLogDone, GlobalCall[1]) == GlobalCallDone
  {
    var st := GlobalLogDone;
    assert st.names[3] == "foo" && 3 !in st.mangled;
    assert "foo" !in GlobalAliases && Cached(st.cache, "foo");
    assert Rename(Defaults, st.cache, "foo") == Mangled("B", st.cache);
  }

  lemma GlobalReferencesMangled()
    ensures Covers(GlobalNames, GlobalAssignment + GlobalCall)
    ensures Run(Defaults, Fresh(GlobalNames), GlobalAssignment + GlobalCall).names
         == GlobalNames[1 := "A"][0 := "B"][2 := "C"][3 := "B"]
  {
    var s0, a, b := Fresh(GlobalNames), GlobalAssignment, GlobalCall;
    GlobalMemberStep();
    assert Nodes(a[0]) == {0, 1};
    RunOfThree(Defaults, s0, a[0], a[1], a[2], GlobalAssignmentDone, GlobalAssignmentDone, GlobalAssignmentDone);
    GlobalLogStep();
    GlobalFooStep();
    RunOfTwo(Defaults, GlobalAssignmentDone, b[0], b[1], GlobalLogDone, GlobalCallDone);
    RunInTwo(Defaults, s0, a, b, GlobalAssignmentDone, GlobalCallDone);
  }

  /** The plugin objects put together: a fresh shared cache, the Program
      visitor with default options, then the traversal of `foo.bar = 1;
      log(foo);`, which leaves `B.A = 1; C(B);` in the tree. */
  method MangleGlobalReferences() returns (names: map<NodeId, string>)
    ensures names == GlobalNames[1 := "A"][0 := "B"][2 := "C"][3 := "B"]
  {
    var cache := new NameCache();
    var mangler := new Mangler(cache);
    mangler.Program(cache, {}, false, "");
    var tree := new Tree(GlobalNames, map[]);
    assert mangler.CurrentOptions() == Defaults;
    assert mangler.StateOf(tree) == Fresh(GlobalNames);
    GlobalReferencesMangled();
    mangler.Traverse(tree, GlobalAssignment + GlobalCall);
    names := tree.names;
  }

  // ---------------------------------------------------------------------
  // `function test() { var o = { foo: 1, bar() {} }; o.baz = 2; }`

  /** Ids 0 `test`, 1 `o`, 2 `foo`, 3 `bar`, 4 `o`, 5 `baz`; 10 is the
      property `foo: 1`. Inside the function `test` and `o` are bound. The
      visits are those of the two declarations, of the object literal and
      of the assignment. */
  const BasicNames: map<NodeId, string> := map[0 := "test", 1 := "o", 2 := "foo", 3 := "bar", 4 := "o", 5 := "baz"]
  const BasicBound: set<string> := {"test", "o"}
  const BasicDeclarations: seq<Visit> := [AtIdentifier(0, false, BasicBound), AtIdentifier(1, false, BasicBound)]
  const BasicObject: seq<Visit> := [
    AtObjectProperty(10, Identifier(2), false),
    AtIdentifier(2, false, BasicBound),
    AtObjectMethod(3, false),
    AtIdentifier(3, false, BasicBound)
  ]
  const BasicAssignment: seq<Visit> := [
    AtMemberExpression(Identifier(4), Identifier(5), false, BasicBound),
    AtIdentifier(4, false, BasicBound),
    AtIdentifier(5, false, BasicBound)
  ]
  const BasicVisits: seq<Visit> := BasicDeclarations + BasicObject + BasicAssignment

  /** The declarations of `test` and `o` are bound names: nothing changes. */
  lemma BoundDeclarationsKept(opts: Options, st: State)
    requires 0 in st.names && 1 in st.names && st.names[0] in BasicBound && st.names[1] in BasicBound
    ensures Covers(st.names, BasicDeclarations)
    ensures Run(opts, st, BasicDeclarations) == st
  {
    var vs := BasicDeclarations;
    RunOfTwo(opts, st, vs[0], vs[1], st, st);
  }

  /** The three parts of the basic program, run one after the other. */
  lemma BasicInParts(opts: Options, mid: State, end: State)
    requires Covers(BasicNames, BasicObject) && Covers(BasicNames, BasicAssignment)
    requires Run(opts, Fresh(BasicNames), BasicObject) == mid
    requires Run(opts, mid, BasicAssignment) == end
    ensures Covers(BasicNames, BasicVisits)
    ensures Run(opts, Fresh(BasicNames), BasicVisits) == end
  {
    var s := Fresh(BasicNames);
    BoundDeclarationsKept(opts, s);
    RunInTwo(opts, s, BasicDeclarations, BasicObject, s, mid);
    RunInTwo(opts, s, BasicDeclarations + BasicObject, BasicAssignment, mid, end);
  }

  const BasicFooDone: State :=
    State(Cache(map["foo" := "A"], 1), BasicNames[2 := "A"], map[10 := false], {2})

  lemma BasicFooStep()
    ensures Step(Defaults, Fresh(BasicNames), BasicObject[0]) == BasicFooDone
  {
    FirstGeneratedNames();
  }

  const BasicObjectDone: State :=
    State(Cache(map["foo" := "A", "bar" := "B"], 2), BasicNames[2 := "A"][3 := "B"], map[10 := false], {2, 3})

  lemma BasicBarStep()
    ensures Step(Defaults, BasicFooDone, BasicObject[2]) == BasicObjectDone
  {
    FirstGeneratedNames();
  }

  const BasicAssignmentDone: State :=
    State(Cache(map["foo" := "A", "bar" := "B", "baz" := "C"], 3),
          BasicNames[2 := "A"][3 := "B"][5 := "C"], map[10 := false], {2, 3, 5})

  lemma BasicBazStep()
    ensures Step(Defaults, BasicObjectDone, BasicAssignment[0]) == BasicAssignmentDone
  {
    FirstGeneratedNames();
  }

  lemma BasicObjectRun()
    ensures Covers(BasicNames, BasicObject) && Run(Defaults, Fresh(BasicNames), BasicObject) == BasicObjectDone
  {
    var o := BasicObject;
    BasicFooStep();
    BasicBarStep();
    RunOfFour(Defaults, Fresh(BasicNames), o[0], o[1], o[2], o[3], BasicFooDone, BasicFooDone, BasicObjectDone, BasicObjectDone);
  }

  lemma BasicAssignmentRun()
    ensures Covers(BasicNames, BasicAssignment) && Run(Defaults, BasicObjectDone, BasicAssignment) == BasicAssignmentDone
  {
    var a := BasicAssignment;
    BasicBazStep();
    assert Nodes(a[0]) == {4, 5};
    RunOfThree(Defaults, BasicObjectDone, a[0], a[1], a[2], BasicAssignmentDone, BasicAssignmentDone, BasicAssignmentDone);
  }

  /** Becomes `var o = { A: 1, B() {} }; o.C = 2;`. */
  lemma BasicPropertyAccessesMangled()
    ensures Covers(BasicNames, BasicVisits)
    ensures Run(Defaults, Fresh(BasicNames), BasicVisits).names == BasicNames[2 := "A"][3 := "B"][5 := "C"]
  {
    BasicObjectRun();
    BasicAssignmentRun();
    BasicInParts(Defaults, BasicObjectDone, BasicAssignmentDone);
  }

  function DebugOptions(suffix: string): Options {
    Options({}, true, suffix)
  }

  function BasicFooDebugDone(suffix: string): State {
    var f := DebugName("foo", suffix);
    State(Cache(map["foo" := f], 0), BasicNames[2 := f], map[10 := false], {2})
  }

  lemma BasicFooDebugStep(suffix: string)
    ensures Step(DebugOptions(suffix), Fresh(BasicNames), BasicObject[0]) == BasicFooDebugDone(suffix)
  {
  }

  function BasicObjectDebugDone(suffix: string): State {
    var f, b := DebugName("foo", suffix), DebugName("bar", suffix);
    State(Cache(map["foo" := f, "bar" := b], 0), BasicNames[2 := f][3 := b], map[10 := false], {2, 3})
  }

  lemma BasicBarDebugStep(suffix: string)
    ensures Step(DebugOptions(suffix), BasicFooDebugDone(suffix), BasicObject[2]) == BasicObjectDebugDone(suffix)
  {
  }

  function BasicAssignmentDebugDone(suffix: string): State {
    var f, b, z := DebugName("foo", suffix), DebugName("bar", suffix), DebugName("baz", suffix);
    State(Cache(map["foo" := f, "bar" := b, "baz" := z], 0), BasicNames[2 := f][3 := b][5 := z], map[10 := false], {2, 3, 5})
  }

  lemma BasicBazDebugStep(suffix: string)
    ensures Step(DebugOptions(suffix), BasicObjectDebugDone(suffix), BasicAssignment[0]) == BasicAssignmentDebugDone(suffix)
  {
  }

  /** In debug mode with any suffix (the tests use none and `xyz`) the keys
      become `_$foo$suffix_`, `_$bar$suffix_` and `_$baz$suffix_`. */
  lemma BasicPropertyAccessesDebugMangled(suffix: string)
    ensures Covers(BasicNames, BasicVisits)
    ensures Run(DebugOptions(suffix), Fresh(BasicNames), BasicVisits).names
         == BasicNames[2 := DebugName("foo", suffix)][3 := DebugName("bar", suffix)][5 := DebugName("baz", suffix)]
  {
    var opts, o, a := DebugOptions(suffix), BasicObject, BasicAssignment;
    var s1, s2, s3 := BasicFooDebugDone(suffix), BasicObjectDebugDone(suffix), BasicAssignmentDebugDone(suffix);
    BasicFooDebugStep(suffix);
    BasicBarDebugStep(suffix);
    RunOfFour(opts, Fresh(BasicNames), o[0], o[1], o[2], o[3], s1, s1, s2, s2);
    BasicBazDebugStep(suffix);
    assert Nodes(a[0]) == {4, 5};
    RunOfThree(opts, s2, a[0], a[1], a[2], s3, s3, s3);
    BasicInParts(opts, s2, s3);
  }

  /** The suffix `xyz` of the second debug test. */
  lemma BasicPropertyAccessesDebugSuffixMangled()
    ensures Run(DebugOptions("xyz"), Fresh(BasicNames), BasicVisits).names[2] == "_$foo$xyz_"
    ensures Run(DebugOptions("xyz"), Fresh(BasicNames), BasicVisits).names[3] == "_$bar$xyz_"
    ensures Run(DebugOptions("xyz"), Fresh(BasicNames), BasicVisits).names[5] == "_$baz$xyz_"
  {
    BasicPropertyAccessesDebugMangled("xyz");
  }

  // ---------------------------------------------------------------------
  // `function test() { var o = { foo: 1, bar: 2 }; }` with `bar` reserved

  /** Ids 0 `test`, 1 `o`, 2 `foo`, 3 `bar`; 10 and 11 are the properties. */
  const ReservedNames: map<NodeId, string> := map[0 := "test", 1 := "o", 2 := "foo", 3 := "bar"]
  const ReservedObject: seq<Visit> := [
    AtObjectProperty(10, Identifier(2), false),
    AtIdentifier(2, false, BasicBound),
    AtObjectProperty(11, Identifier(3), false),
    AtIdentifier(3, false, BasicBound)
  ]
  const ReservedOptions: Options := Options({"bar"}, false, "")

  const ReservedFooDone: State :=
    State(Cache(map["foo" := "A"], 1), ReservedNames[2 := "A"], map[10 := false], {2})

  lemma ReservedFooStep()
    ensures Step(ReservedOptions, Fresh(ReservedNames), ReservedObject[0]) == ReservedFooDone
  {
    FirstGeneratedNames();
  }

  /** `bar` went through mangleName, which kept it and stored nothing. */
  const ReservedDone: State :=
    State(Cache(map["foo" := "A"], 1), ReservedNames[2 := "A"], map[10 := false, 11 := false], {2, 3})

  lemma ReservedBarStep()
    ensures Step(ReservedOptions, ReservedFooDone, ReservedObject[2]) == ReservedDone
  {
  }

  /** Becomes `var o = { A: 1, bar: 2 };`: the reserved name stays, and it
      takes no seed. */
  lemma ReservedNameKept()
    ensures Covers(ReservedNames, BasicDeclarations + ReservedObject)
    ensures var r := Run(ReservedOptions, Fresh(ReservedNames), BasicDeclarations + ReservedObject);
      r.names == ReservedNames[2 := "A"] && r.cache.seed == 1
  {
    var s0, o := Fresh(ReservedNames), ReservedObject;
    BoundDeclarationsKept(ReservedOptions, s0);
    ReservedFooStep();
    ReservedBarStep();
    RunOfFour(ReservedOptions, s0, o[0], o[1], o[2], o[3], ReservedFooDone, ReservedFooDone, ReservedDone, ReservedDone);
    RunInTwo(ReservedOptions, s0, BasicDeclarations, ReservedObject, s0, ReservedDone);
  }

  // ---------------------------------------------------------------------
  // `window.foo = {}; foo.bar = 1;` becomes `window.A = {}; A.B = 1;`

  /** Ids 0 `window`, 1 `foo`, 2 `foo`, 3 `bar`; nothing is bound at the top level. */
  const AliasNames: map<NodeId, string> := map[0 := "window", 1 := "foo", 2 := "foo", 3 := "bar"]
  const AliasFirst: seq<Visit> := [
    AtMemberExpression(Identifier(0), Identifier(1), false, {}),
    AtIdentifier(0, false, {}),
    AtIdentifier(1, false, {})
  ]
  const AliasSecond: seq<Visit> := [
    AtMemberExpression(Identifier(2), Identifier(3), false, {}),
    AtIdentifier(2, false, {}),
    AtIdentifier(3, false, {})
  ]

  /** `window.foo`: only the property is renamed. */
  const AliasPropertyDone: State :=
    State(Cache(map["foo" := "A"], 1), AliasNames[1 := "A"], map[], {1})

  lemma AliasPropertyStep()
    ensures Step(Defaults, Fresh(AliasNames), AliasFirst[0]) == AliasPropertyDone
  {
    FirstGeneratedNames();
  }

  /** The Identifier visitor then passes `window` to mangleName, which keeps it. */
  const AliasFirstDone: State :=
    State(Cache(map["foo" := "A"], 1), AliasNames[1 := "A"], map[], {1, 0})

  lemma AliasWindowStep()
    ensures Step(Defaults, AliasPropertyDone, AliasFirst[1]) == AliasFirstDone
  {
  }

  /** `foo.bar`: the property takes the next seed, the object reuses `A`. */
  const AliasSecondDone: State :=
    State(Cache(map["foo" := "A", "bar" := "B"], 2), AliasNames[1 := "A"][3 := "B"][2 := "A"], map[], {1, 0, 3, 2})

  lemma AliasMemberStep()
    ensures Step(Defaults, AliasFirstDone, AliasSecond[0]) == AliasSecondDone
  {
    var st := AliasFirstDone;
    var mid := State(Cache(map["foo" := "A", "bar" := "B"], 2), AliasNames[1 := "A"][3 := "B"], map[], {1, 0, 3});
    FirstGeneratedNames();
    assert RenameNode(Defaults, st, 3) == mid;
    assert mid.names[2] == "foo" && Cached(mid.cache, "foo");
    assert RenameNode(Defaults, mid, 2) == AliasSecondDone;
  }

  lemma GlobalAliasesKept()
    ensures Covers(AliasNames, AliasFirst + AliasSecond)
    ensures Run(Defaults, Fresh(AliasNames), AliasFirst + AliasSecond).names
         == AliasNames[1 := "A"][3 := "B"][2 := "A"]
  {
    var a, b := AliasFirst, AliasSecond;
    AliasPropertyStep();
    AliasWindowStep();
    assert Nodes(a[0]) == {0, 1};
    RunOfThree(Defaults, Fresh(AliasNames), a[0], a[1], a[2], AliasPropertyDone, AliasFirstDone, AliasFirstDone);
    AliasMemberStep();
    assert Nodes(b[0]) == {2, 3};
    RunOfThree(Defaults, AliasFirstDone, b[0], b[1], b[2], AliasSecondDone, AliasSecondDone, AliasSecondDone);
    RunInTwo(Defaults, Fresh(AliasNames), a, b, AliasFirstDone, AliasSecondDone);
  }

  // ---------------------------------------------------------------------
  // `new.target;` stays as it is

  /** Ids 0 `new`, 1 `target`, both children of a MetaProperty. */
  const MetaNames: map<NodeId, string> := map[0 := "new", 1 := "target"]
  const MetaVisits: seq<Visit> := [AtIdentifier(0, true, {}), AtIdentifier(1, true, {})]

  /** No name, cache entry or seed changes. */
  lemma MetaPropertyKept()
    ensures Covers(MetaNames, MetaVisits)
    ensures Run(Defaults, Fresh(MetaNames), MetaVisits) == Fresh(MetaNames)
  {
    var s0, vs := Fresh(MetaNames), MetaVisits;
    RunOfTwo(Defaults, s0, vs[0], vs[1], s0, s0);
  }

  // ---------------------------------------------------------------------
  // `class C { foo() {} };` becomes `class C { A() {} };`

  /** Ids 0 `C`, 1 `foo`; `C` is bound. */
  const ClassNames: map<NodeId, string> := map[0 := "C", 1 := "foo"]
  const ClassVisits: seq<Visit> := [AtIdentifier(0, false, {"C"}), AtClassMethod(1, false), AtIdentifier(1, false, {"C"})]

  const ClassDone: State := State(Cache(map["foo" := "A"], 1), ClassNames[1 := "A"], map[], {1})

  lemma ClassMethodStep()
    ensures Step(Defaults, Fresh(ClassNames), ClassVisits[1]) == ClassDone
  {
    FirstGeneratedNames();
  }

  lemma ClassMethodMangled()
    ensures Covers(ClassNames, ClassVisits)
    ensures Run(Defaults, Fresh(ClassNames), ClassVisits).names == ClassNames[1 := "A"]
  {
    var s0, vs := Fresh(ClassNames), ClassVisits;
    ClassMethodStep();
    RunOfThree(Defaults, s0, vs[0], vs[1], vs[2], s0, ClassDone, ClassDone);
  }

  // ---------------------------------------------------------------------
  // `function test() { var x = 1; var o = { x }; }` becomes `{ A: x }`

  /** Ids 0 `test`, 1 `x`, 2 `o`, 3 the key `x`, 4 the value `x`; 10 is the
      shorthand property. */
  const ShorthandNames: map<NodeId, string> := map[0 := "test", 1 := "x", 2 := "o", 3 := "x", 4 := "x"]
  const ShorthandBound: set<string> := {"test", "x", "o"}
  const ShorthandDeclarations: seq<Visit> :=
    [AtIdentifier(0, false, ShorthandBound), AtIdentifier(1, false, ShorthandBound), AtIdentifier(2, false, ShorthandBound)]
  const ShorthandObject: seq<Visit> :=
    [AtObjectProperty(10, Identifier(3), false), AtIdentifier(3, false, ShorthandBound), AtIdentifier(4, false, ShorthandBound)]

  function ShorthandStart(): State {
    FreshWith(ShorthandNames, map[10 := true])
  }

  const ShorthandDone: State :=
    State(Cache(map["x" := "A"], 1), ShorthandNames[3 := "A"], map[10 := false], {3})

  lemma ShorthandKeyStep()
    ensures Step(Defaults, ShorthandStart(), ShorthandObject[0]) == ShorthandDone
  {
    FirstGeneratedNames();
  }

  /** The key is renamed, the value (a bound variable) is not, and the
      property is no longer shorthand. */
  lemma ShorthandExpanded()
    ensures Covers(ShorthandNames, ShorthandDeclarations + ShorthandObject)
    ensures var r := Run(Defaults, ShorthandStart(), ShorthandDeclarations + ShorthandObject);
      r.names == ShorthandNames[3 := "A"] && r.shorthand == map[10 := false]
  {
    var s0, d, o := ShorthandStart(), ShorthandDeclarations, ShorthandObject;
    RunOfThree(Defaults, s0, d[0], d[1], d[2], s0, s0, s0);
    ShorthandKeyStep();
    RunOfThree(Defaults, s0, o[0], o[1], o[2], ShorthandDone, ShorthandDone, ShorthandDone);
    RunInTwo(Defaults, s0, d, o, s0, ShorthandDone);
  }

  // ---------------------------------------------------------------------
  // `function test() { var o = { foo: 1 }; func().foo = 2; }` becomes
  // `var o = { A: 1 }; B().A = 2;`

  /** Ids 0 `test`, 1 `o`, 2 the key `foo`, 3 `func`, 4 the property `foo`;
      the object of the member expression is a call. */
  const CallNames: map<NodeId, string> := map[0 := "test", 1 := "o", 2 := "foo", 3 := "func", 4 := "foo"]
  const CallObject: seq<Visit> := [AtObjectProperty(10, Identifier(2), false), AtIdentifier(2, false, BasicBound)]
  const CallAssignment: seq<Visit> := [
    AtMemberExpression(NotIdentifier, Identifier(4), false, BasicBound),
    AtIdentifier(3, false, BasicBound),
    AtIdentifier(4, false, BasicBound)
  ]

  const CallObjectDone: State :=
    State(Cache(map["foo" := "A"], 1), CallNames[2 := "A"], map[10 := false], {2})

  lemma CallKeyStep()
    ensures Step(Defaults, Fresh(CallNames), CallObject[0]) == CallObjectDone
  {
    FirstGeneratedNames();
  }

  /** The property of the call's result reuses the key's substitute. */
  const CallPropertyDone: State :=
    State(Cache(map["foo" := "A"], 1), CallNames[2 := "A"][4 := "A"], map[10 := false], {2, 4})

  lemma CallPropertyStep()
    ensures Step(Defaults, CallObjectDone, CallAssignment[0]) == CallPropertyDone
  {
  }

  /** The unbound callee is renamed as a global reference. */
  const CallAssignmentDone: State :=
    State(Cache(map["foo" := "A", "func" := "B"], 2), CallNames[2 := "A"][4 := "A"][3 := "B"], map[10 := false], {2, 4, 3})

  lemma CallCalleeStep()
    ensures Step(Defaults, CallPropertyDone, CallAssignment[1]) == CallAssignmentDone
  {
    FirstGeneratedNames();
  }

  lemma ArbitraryMemberMangled()
    ensures Covers(CallNames, BasicDeclarations + (CallObject + CallAssignment))
    ensures Run(Defaults, Fresh(CallNames), BasicDeclarations + (CallObject + CallAssignment)).names
         == CallNames[2 := "A"][4 := "A"][3 := "B"]
  {
    var s0, o, a := Fresh(CallNames), CallObject, CallAssignment;
    BoundDeclarationsKept(Defaults, s0);
    CallKeyStep();
    RunOfTwo(Defaults, s0, o[0], o[1], CallObjectDone, CallObjectDone);
    CallPropertyStep();
    CallCalleeStep();
    RunOfThree(Defaults, CallObjectDone, a[0], a[1], a[2], CallPropertyDone, CallAssignmentDone, CallAssignmentDone);
    RunInTwo(Defaults, s0, o, a, CallObjectDone, CallAssignmentDone);
    RunInTwo(Defaults, s0, BasicDeclarations, o + a, s0, CallAssignmentDone);
  }

  // ---------------------------------------------------------------------
  // `function test() { var o = { "foo": 1, ["bar"]: 2, baz: 3 }; o["foo"] = 4; }`
  // becomes `var o = { "foo": 1, ["bar"]: 2, A: 3 }; o["foo"] = 4;`

  /** Ids 0 `test`, 1 `o`, 2 `baz`, 3 `o`; 10, 11 and 12 are the
      properties, the first two with string-literal keys. */
  const LiteralNames: map<NodeId, string> := map[0 := "test", 1 := "o", 2 := "baz", 3 := "o"]
  const LiteralObject: seq<Visit> := [
    AtObjectProperty(10, NotIdentifier, false),
    AtObjectProperty(11, NotIdentifier, true),
    AtObjectProperty(12, Identifier(2), false),
    AtIdentifier(2, false, BasicBound)
  ]
  const LiteralAssignment: seq<Visit> :=
    [AtMemberExpression(Identifier(3), NotIdentifier, true, BasicBound), AtIdentifier(3, false, BasicBound)]

  const LiteralDone: State :=
    State(Cache(map["baz" := "A"], 1), LiteralNames[2 := "A"], map[12 := false], {2})

  lemma LiteralKeyStep()
    ensures Step(Defaults, Fresh(LiteralNames), LiteralObject[2]) == LiteralDone
  {
    FirstGeneratedNames();
  }

  /** Only the Identifier key is renamed. */
  lemma StringKeysKept()
    ensures Covers(LiteralNames, BasicDeclarations + (LiteralObject + LiteralAssignment))
    ensures Run(Defaults, Fresh(LiteralNames), BasicDeclarations + (LiteralObject + LiteralAssignment)).names
         == LiteralNames[2 := "A"]
  {
    var s0, o, a := Fresh(LiteralNames), LiteralObject, LiteralAssignment;
    BoundDeclarationsKept(Defaults, s0);
    LiteralKeyStep();
    RunOfFour(Defaults, s0, o[0], o[1], o[2], o[3], s0, s0, LiteralDone, LiteralDone);
    assert Nodes(a[0]) == {3};
    RunOfTwo(Defaults, LiteralDone, a[0], a[1], LiteralDone, LiteralDone);
    RunInTwo(Defaults, s0, o, a, LiteralDone, LiteralDone);
    RunInTwo(Defaults, s0, BasicDeclarations, o + a, s0, LiteralDone);
  }

  // ---------------------------------------------------------------------
  // `var k = 1; var o = { [k]: 1 };` becomes `var k = 1; var o = { [A]: 1 };`

  /** Ids 0 the declaration of `k`, 1 the computed key `k`; `k` and `o` are
      bound. The key is an Identifier and the ObjectProperty rule does not
      look at `computed`, so the reference to the variable is renamed while
      its declaration keeps its name. */
  const ComputedNames: map<NodeId, string> := map[0 := "k", 1 := "k"]
  const ComputedVisits: seq<Visit> :=
    [AtIdentifier(0, false, {"k", "o"}), AtObjectProperty(10, Identifier(1), true), AtIdentifier(1, false, {"k", "o"})]

  const ComputedDone: State := State(Cache(map["k" := "A"], 1), ComputedNames[1 := "A"], map[10 := false], {1})

  lemma ComputedKeyStep()
    ensures Step(Defaults, Fresh(ComputedNames), ComputedVisits[1]) == ComputedDone
  {
    FirstGeneratedNames();
  }

  lemma ComputedIdentifierKeyRenamed()
    ensures Covers(ComputedNames, ComputedVisits)
    ensures Run(Defaults, Fresh(ComputedNames), ComputedVisits).names == ComputedNames[1 := "A"]
  {
    var s0, vs := Fresh(ComputedNames), ComputedVisits;
    ComputedKeyStep();
    RunOfThree(Defaults, s0, vs[0], vs[1], vs[2], s0, ComputedDone, ComputedDone);
  }
}
