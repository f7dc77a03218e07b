# Property-name mangling for Babel, modelled in Dafny

This project models babel-plugin-minify-mangle-properties. The plugin renames
object property names, method names and global references to short
identifiers. Every file of a process shares one name cache, so the same name
gets the same substitute everywhere.

The model has four parts.

- `Generator` (generator.dfy) models `generateIdentifierFromSeed`.
  - The seed's least-significant digit is `seed % 26`, drawn from the upper-case alphabet.
  - The rest of the seed is written in bijective base 62 over `A-Z a-z 0-9`, least-significant digit first.
  - `IdentifierFromSeed` is the specification. `GenerateIdentifierFromSeed` is the source's `while` loop, proved equal to it.
  - `SeedOfIdentifier` decodes a name back to its seed. It proves that the generator is a bijection onto the names of that shape.
- `Renaming` (renaming.dfy) models `generateMangledName` and `mangleName` as functions over a cache value `{ nameMap, seed }`.
  - It proves the three outcomes of `mangleName`.
  - It proves that asking twice gives the same answer.
  - It proves the cache invariant: no two names share a generated substitute, and one seed is consumed per new entry.
- `Visitors` (visitors.dfy) models `mangleNode` and the six visitor bodies as functions over a state.
  - The state holds the cache, the name of every Identifier node, the `shorthand` flag of every object property, and the nodes already mangled in this run.
  - A traversal is a sequence of visit events.
  - It proves the classification rules, the property-before-object order, and properties of whole runs.
- `Plugin` (plugin.dfy) is the imperative form.
  - `NameCache` is the shared cache object.
  - `Tree` holds the node fields the plugin writes.
  - `Mangler` is the plugin object `this`, with one method per source function and visitor.
  - Each method is proved to leave exactly the state that the matching `Renaming` or `Visitors` function describes.
- `Examples` (examples.dfy) derives the expected outputs of the plugin's test file from the model.

## Model

| member | source | states |
|---|---|---|
| `Generator.FirstCharsAsWritten` | src/index.js:14 | The first alphabet has 26 characters, and its d-th character is `'A' + d`. |
| `Generator.NextCharsAsWritten` | src/index.js:15 | The second alphabet has 62 characters: the upper-case letters at 0-25, the lower-case letters at 26-51 and the digits at 52-61. |
| `Generator.FirstCharsMembership` | src/index.js:14 | A character is in the first alphabet exactly when it is an upper-case letter. |
| `Generator.NextCharsMembership` | src/index.js:15 | A character is in the second alphabet exactly when it is a letter or a digit. |
| `Generator.Continuation` | src/index.js:25-30 | The characters the loop appends for a remainder `t` are empty exactly when `t` is 0, and every one is a letter or a digit. |
| `Generator.IdentifierFromSeed` | src/index.js:18-33 | A generated name is never empty, starts with an upper-case letter, and has only letters and digits after it. |
| `Generator.ContinuationStep` | src/index.js:27-29 | One loop iteration moves the next digit's character from the pending remainder to the output, and the remainder strictly decreases. |
| `Generator.GenerateIdentifierFromSeed` | src/index.js:18-33 | The loop returns exactly `IdentifierFromSeed(seed)`. |
| `Generator.SeedOfIdentifier` | src/index.js:21-29 | The decoder returns a seed exactly for strings of the generated shape. |
| `Generator.ContinuationRoundTrip` | src/index.js:25-30 | Reading back the appended characters as a bijective base-62 numeral gives the remainder. |
| `Generator.ContinuationOfValue` | src/index.js:25-30 | Every string of letters and digits is what the loop appends for its numeral value. |
| `Generator.DecodeGenerated` | src/index.js:18-33 | Decoding the name of a seed gives back that seed. |
| `Generator.GeneratedFromDecoded` | src/index.js:18-33 | Every string of the generated shape is the name of the seed it decodes to, so the generator is onto these strings. |
| `Generator.IdentifierFromSeedInjective` | src/index.js:18-33 | Distinct seeds give distinct names. |
| `Generator.FirstGeneratedNames` | src/index.js:21-29 | Seeds 0, 1, 2, 25, 26 and 27 give `A`, `B`, `C`, `Z`, `AA` and `BA`. |
| `Generator.LastTwoLetterName` | src/index.js:21-29 | Seed 1637 gives `Z9`, the last two-character name. |
| `Generator.FirstThreeLetterName` | src/index.js:21-29 | Seed 1638 gives `AAA`, the first three-character name. |
| `Renaming.DebugNameInjective` | src/index.js:41 | For one suffix, distinct names have distinct debug forms. |
| `Renaming.DebugNameNotGenerated` | src/index.js:41 | A debug form is never empty and never has the shape of a generated name, because it starts with `_`. |
| `Renaming.NewName` | src/index.js:37-47 | generateMangledName never touches the name map. The seed change is stated in `Renaming.RenameOutcomes`. |
| `Renaming.Rename` | src/index.js:50-68 | mangleName adds no key to the map other than `name`. |
| `Renaming.ExtendsTransitive` | src/index.js:56-67 | A cache growing from a to b and from b to c grew from a to c, with the same entries and no smaller seed. |
| `Renaming.EmptyCacheConsistent` | src/index.js:6-9 | The initial cache (empty map, seed 0) satisfies the cache invariant. |
| `Renaming.RenameOutcomes` | src/index.js:50-68 | On a consistent cache, mangleName has three outcomes. A reserved name or a global alias comes back unchanged with the cache untouched. A cached name gets its stored substitute with the cache untouched. Any other name gets one new entry `name -> result`: in debug mode the result is `_$name$suffix_` with the seed unchanged; otherwise it is the identifier of the current seed and the seed goes up by one. |
| `Renaming.RenameIdempotent` | src/index.js:56-67 | Calling mangleName again for the same name, on the cache it left, gives the same name and changes nothing. |
| `Renaming.RenameKeepsConsistent` | src/index.js:50-68 | mangleName keeps the cache invariant: no empty substitute, every generated substitute from an already consumed seed, and no generated substitute shared by two names. It never changes or drops an entry. In normal mode the seed grows by the number of new entries; in debug mode it does not move. |
| `Renaming.NewEntryKeepsConsistent` | src/index.js:65-66 | Storing the fresh substitute of a name the map does not hold keeps the cache invariant. |
| `Visitors.RenameNode` | src/index.js:71-79 | mangleNode leaves the set of nodes unchanged. |
| `Visitors.Step` | src/index.js:120-197 | No visitor adds or removes nodes. |
| `Visitors.Run` | src/index.js:104-198 | A sequence of visits leaves the set of nodes unchanged. |
| `Visitors.RunAppend` | src/index.js:104-198 | A traversal can be split anywhere: running `a + b` is running `b` from where `a` ended. |
| `Visitors.StepFollowsClassification` | src/index.js:120-197 | Each visit marks exactly the classified nodes as mangled, and changes the name of no other node and of no node mangled earlier. Object property keys and method keys are classified when they are Identifiers. For a non-computed `object.property` with an Identifier property, the property is classified, and so is an Identifier object that is neither bound nor a global alias. Any other Identifier is classified unless its parent is a meta-property or its name is bound. The shorthand flag is cleared exactly when an ObjectProperty has an Identifier key. |
| `Visitors.RenameNodeIdempotent` | src/index.js:71-79 | A second mangleNode on the same node changes nothing. The first one changes no other node's name and no shorthand flag, and records the node. |
| `Visitors.RenameNodeFresh` | src/index.js:71-79 | In normal mode, mangling an unmangled node whose name is new gives it the identifier of the current seed, stores that entry, consumes the seed and records the node. |
| `Visitors.MemberPropertyBeforeObject` | src/index.js:157-161 | For `foo.bar` with both names new, the property takes the current seed and the object takes the next one. |
| `Visitors.ComputedFlagIgnored` | src/index.js:120-133 | ObjectProperty, ClassMethod and ObjectMethod act the same whether or not the node is computed, so an Identifier key inside `[k]` is mangled. |
| `Visitors.RenamedConsistentlyTransitive` | src/index.js:71-79 | The relation "every node kept its name or now carries the substitute of its original name" composes across successive states. |
| `Visitors.RenameNodeConsistently` | src/index.js:71-79 | mangleNode keeps the cache invariant and that relation. |
| `Visitors.StepConsistently` | src/index.js:120-197 | Every visitor keeps the cache invariant and that relation. |
| `Visitors.RunConsistently` | src/index.js:104-198 | After a whole traversal the cache is still consistent and has only grown. Seeds are consumed one per new entry (none in debug mode). Every node mangled in the run carries the substitute of its original name, and every other node keeps its name. |
| `Visitors.SameNameSameSubstitute` | src/index.js:56-61 | Two nodes with the same original name that are both mangled in one run end with the same name. |
| `Visitors.DistinctNamesDistinctSubstitutes` | src/index.js:65-67 | Two nodes with different original names, neither reserved nor an alias, do not both end with the same generated name. |
| `Plugin.NameCache.constructor` | src/index.js:6-9 | The cache starts with an empty map and seed 0. |
| `Plugin.Tree.constructor` | src/index.js:120-197 | The tree holds the given names and shorthand flags. |
| `Plugin.Mangler.constructor` | src/index.js:87-103 | `pre`: no reserved names, debug off, empty suffix, and no node mangled. |
| `Plugin.Mangler.Program` | src/index.js:106-118 | Clears the mangled nodes, sets the reserved names and the debug flag, sets the suffix only in debug mode (otherwise the old one stays), and attaches the cache. |
| `Plugin.Mangler.GenerateMangledName` | src/index.js:37-47 | Returns the name and leaves the cache exactly as `Renaming.NewName` specifies. |
| `Plugin.Mangler.MangleName` | src/index.js:50-68 | Returns the name and leaves the cache exactly as `Renaming.Rename` specifies. |
| `Plugin.Mangler.MangleNode` | src/index.js:71-79 | Leaves the cache, the tree and the mangled set exactly as `Visitors.RenameNode` specifies. |
| `Plugin.Mangler.ObjectProperty` | src/index.js:120-133 | Leaves the state exactly as `Visitors.Step` specifies for an ObjectProperty visit. |
| `Plugin.Mangler.MemberExpression` | src/index.js:135-168 | Leaves the state exactly as `Visitors.Step` specifies for a MemberExpression visit. |
| `Plugin.Mangler.ClassMethod` | src/index.js:170-175 | Leaves the state exactly as `Visitors.Step` specifies for a ClassMethod visit. |
| `Plugin.Mangler.ObjectMethod` | src/index.js:177-182 | Leaves the state exactly as `Visitors.Step` specifies for an ObjectMethod visit. |
| `Plugin.Mangler.IdentifierVisitor` | src/index.js:184-197 | Leaves the state exactly as `Visitors.Step` specifies for an Identifier visit. |
| `Plugin.Mangler.Dispatch` | src/index.js:104-198 | Dispatching one visit event leaves the state exactly as `Visitors.Step` specifies. |
| `Plugin.Mangler.Traverse` | src/index.js:104-198 | Running the visitors over a sequence of events leaves the state exactly as `Visitors.Run` specifies, so `Visitors.RunConsistently` holds of it. |
| `Examples.BasicPropertyAccessesMangled` | __tests__/mangle-properties-test.js:17-38 | `foo`, `bar` and `baz` become `A`, `B` and `C`, and the bound `test` and `o` keep their names. |
| `Examples.BasicPropertyAccessesDebugMangled` | __tests__/mangle-properties-test.js:40-61 | In debug mode with any suffix the three keys become `_$foo$suffix_`, `_$bar$suffix_` and `_$baz$suffix_`. |
| `Examples.BasicPropertyAccessesDebugSuffixMangled` | __tests__/mangle-properties-test.js:63-84 | With suffix `xyz` the keys become `_$foo$xyz_`, `_$bar$xyz_` and `_$baz$xyz_`. |
| `Examples.ReservedNameKept` | __tests__/mangle-properties-test.js:86-105 | With `bar` reserved, `foo` becomes `A`, `bar` stays, and only one seed is used. |
| `Examples.GlobalAliasesKept` | __tests__/mangle-properties-test.js:107-118 | `window.foo = {}; foo.bar = 1;` becomes `window.A = {}; A.B = 1;`. |
| `Examples.GlobalReferencesMangled` | __tests__/mangle-properties-test.js:120-131 | `foo.bar = 1; log(foo);` becomes `B.A = 1; C(B);`. |
| `Examples.MangleGlobalReferences` | __tests__/mangle-properties-test.js:120-131 | The same program run through the `Plugin` objects, from a fresh cache and the Program visitor, leaves `B.A = 1; C(B);` in the tree. |
| `Examples.MetaPropertyKept` | __tests__/mangle-properties-test.js:133-142 | `new.target` changes nothing: no name, no cache entry and no seed. |
| `Examples.ClassMethodMangled` | __tests__/mangle-properties-test.js:144-157 | The method `foo` of class `C` becomes `A`, and `C` keeps its name. |
| `Examples.ShorthandExpanded` | __tests__/mangle-properties-test.js:159-178 | `{ x }` becomes `{ A: x }`: the key is renamed, the bound value is not, and the property is no longer shorthand. |
| `Examples.ArbitraryMemberMangled` | __tests__/mangle-properties-test.js:180-197 | The key `foo` and the property in `func().foo` both become `A`, and the unbound callee `func` becomes `B`. |
| `Examples.StringKeysKept` | __tests__/mangle-properties-test.js:199-222 | String-literal keys, computed string keys and `o["foo"]` are left alone, and only `baz` becomes `A`. |
| `Examples.ComputedIdentifierKeyRenamed` | src/index.js:120-133 | In `var k = 1; var o = { [k]: 1 };` the computed key `k` becomes `A` while its declaration keeps the name `k`. |

## Left out

- The Babel plugin shell is not modelled: `module.exports`, the `path` and `state` objects, and the host calling the visitors.
  - The mangler's constructor stands for `pre`. It takes the cache, which the source only attaches in the Program visitor, before any other visitor runs.
- `Plugin.Mangler.Program` takes the options already normalised. The source defaults `state.opts.reservedNames` to an empty list, turns `state.opts.debug` into a boolean, and defaults `state.opts.debugSuffix` to `""`.
- Babel's scope analysis (`path.scope.hasBinding`) is not modelled. Each visit event carries the set of names bound at its position instead.
- Babel's traversal order is not modelled. The model takes the sequence of visit events in the order the host dispatches them.
- The process-wide `globalNameCache` is not modelled as a global. One `NameCache` object is passed to the Program visitor, and sharing it across runs is up to the caller.
  - The test file expects each test to start from an empty cache. With one process-wide cache, later tests would see names cached by earlier ones.
  - The `Examples` lemmas therefore each start from a fresh cache.
- JavaScript number semantics are not modelled. The seed and the loop's remainder are `nat`, and `Math.floor` always divides an exact multiple.
- `Plugin.Mangler.GenerateMangledName` and `Generator.GenerateIdentifierFromSeed` look characters up with `FirstChar(d)` and `NextChar(d)` instead of indexing the literal alphabets. `Generator.FirstCharsAsWritten` and `Generator.NextCharsAsWritten` prove the two agree at every index.
- Method keys that are not Identifiers are not modelled. For a string or numeric method key the source calls `mangleName(undefined)`, and the model only has Identifier keys for ClassMethod and ObjectMethod.
- `Renaming.DebugNameInjective` holds for one suffix only. With different suffixes, two names can share a debug form.
- The test at `__tests__/mangle-properties-test.js:180-197` has no `expect` call. `Examples.ArbitraryMemberMangled` proves the output its `expected` string describes.
- The test harness is not modelled (jest, babel-core, `unpad`). The tests are used only as a source of expected outputs.
- The computed-key behaviour shown by `Visitors.ComputedFlagIgnored` and `Examples.ComputedIdentifierKeyRenamed` is the code as written. ObjectProperty, ClassMethod and ObjectMethod look only at the key's type and never at `computed`. The model keeps that behaviour.
