# OTC: Vue Options API to Composition API, modelled in Dafny

OTC rewrites a Vue single-file component written against the Options API
(`export default { data() {…}, computed: {…}, watch: {…}, methods: {…}, … }`)
into a Composition API component
(`export default defineComponent({ components, props, setup(props, ctx) {…} })`).
It works on an already-parsed JavaScript syntax tree in four stages:

1. An analysis pass finds the prop names and the inject map.
2. A rewrite pass descends through the tree and rewrites only the outermost
   call or member expression on each path. It never visits the arguments of
   a call or the object of a member expression, so in `this.items.push(v)`
   the inner `this.items` is left as it is. At that outermost node:
   - a callee `this.m` becomes `m`, so `this.m(…)` becomes `m(…)`;
   - `this.p` becomes `props.p` for a declared prop;
   - any other `this.x` becomes `x.value`.
3. An extractor fills an Options record from the members of the default export.
4. A lowering builds the Composition record, and a writer assembles the new
   default export from it. Each section becomes statements:
   - refs for `data`;
   - `computed(() => …)`;
   - `watch(name, handler, { deep, immediate })`;
   - `onMounted(…)`;
   - function declarations for `methods`;
   - `inject("…")`.

   The `setup` body ends in `return { … }` of every declared name.

The project models this pipeline over an abstract JavaScript syntax tree:
identifiers, `this`, member, call, arrow, function, object, array and literal
expressions; return, `const`, function, class and expression statements;
key-value, assignment (`a = v`), method, shorthand, getter, setter and spread
members. Getter and setter bodies are walked by the rewrite; the extractors
skip these members (`Extract.ExtractSkipsInert`). Spans, atoms and boxes are
dropped. Every `expect`/`unwrap` that can fail in the source is an
explicit error value (`Outcomes.Panic`), so the model states exactly when the
program panics.

The project also models two earlier code paths in the repository:

- the data-only transform in `src/visitor.rs`, which renames `data()` to
  `setup()`;
- the member-keeping extractor in `src/ast.rs`.

It also models the script-block slicer of the command-line front end.

Files, one module per source file:

| file | models |
|---|---|
| `outcomes.dfy` | `Option`, `Result`, the panic kinds |
| `js_ast.dfy` | the syntax tree |
| `vue.dfy` | `src/visitor/vue.rs`: the Options and Composition records |
| `utils.dfy` | `src/visitor/utils.rs`: the prop-name set |
| `walk.dfy` | the `VisitMut` traversal as a walk with replacement hooks (a hook replaces a node and does not descend into it) |
| `rewriter.dfy` | the `this` rewrite of `src/visitor/mod.rs` |
| `extract.dfy` | what the analyzer and the extractor of `src/visitor/process.rs` and `src/visitor/mod.rs` compute |
| `transform.dfy` | `src/visitor/transform.rs` |
| `write.dfy` | `src/visitor/write.rs` |
| `visitor.dfy` | the `Visitor` class, its methods and the module driver |
| `setup_rename.dfy` | `src/visitor.rs` |
| `vue_ast.dfy` | `src/ast.rs` |
| `script.dfy` | `get_script_contents` of `src/main.rs` |

Several parts of the source update state step by step: the `Visitor` struct,
the extractor loops, `transform_inject`, `transform_data`, `write_setup`,
`create_vue_component`, and the in-place rewrite of the module body. These are
modelled as:

- a `class` with `modifies` frames;
- `method`s with loop invariants;
- an `array` rewritten in place.

Each of these is proved equal to a specification function, and the properties
are proved about that function.

## Model

| member | source | states |
|---|---|---|
| Vue.DefaultOptions | src/visitor/vue.rs:47-61 | every Options section starts absent |
| Vue.DefaultComposition | src/visitor/vue.rs:92-106 | every Composition group starts absent |
| Utils.SetOf | src/visitor/utils.rs:33-35 | the set collected from a list holds exactly its items, and is empty only for an empty list |
| Utils.PropSetFromObjectLit | src/visitor/utils.rs:5-69 | a present prop set is never empty; any expression other than an array or object literal declares no props |
| Utils.StringElementsMembers | src/visitor/utils.rs:10-30 | a name is collected from an array iff some element is that string literal |
| Utils.KeyNamesMembers | src/visitor/utils.rs:40-60 | a name is collected from an object iff some member is a key-value member with that identifier or string key |
| Utils.ArrayPropSet | src/visitor/utils.rs:9-36 | an array literal declares exactly its string-literal elements |
| Utils.ArrayWithoutStringsIsAbsent | src/visitor/utils.rs:33-35 | an array without string literals yields no set at all (absent, not empty) |
| Utils.ObjectPropSet | src/visitor/utils.rs:39-66 | an object literal declares exactly the identifier- or string-keyed key-value names; methods, shorthands, spreads, numeric and computed keys are ignored |
| Utils.ObjectWithoutKeysIsAbsent | src/visitor/utils.rs:62-65 | an object with no qualifying member yields no set at all |
| Rewriter.RewriteCall | src/visitor/mod.rs:197-208 | a `this.m(…)` callee becomes the bare identifier `m`; every other callee and all arguments are unchanged; no `this.m` callee remains |
| Rewriter.RewriteMember | src/visitor/mod.rs:211-237 | `this.p` becomes `props.p` when `p` is in the prop set, otherwise `p.value`; non-`this` members are unchanged; no `this.x` remains |
| Rewriter.ReceiverHooks | src/visitor/mod.rs:195-237 | the rewrite hooks never panic |
| Rewriter.RewriteItem | src/visitor/mod.rs:239-241 | the rewrite of one module item always succeeds, so it is the result of the traversal |
| Rewriter.RewriteItems | src/visitor/mod.rs:239-241 | the module body keeps its length, and each item is rewritten independently |
| Rewriter.RewriteItemKeepsShape | src/visitor/mod.rs:239-260 | rewriting keeps each item's kind, and an `export default {…}` stays one |
| RewriterIdempotence.Expr | src/visitor/mod.rs:197-237 | rewriting a rewritten expression changes nothing |
| RewriterIdempotence.Stmts | src/visitor/mod.rs:239-241 | rewriting rewritten statements changes nothing |
| RewriterIdempotence.RewriteItemIdempotent | src/visitor/mod.rs:239-241 | the rewrite pass is idempotent on every module item |
| WalkTotal.ItemOk | src/visitor/mod.rs:239-241 | a traversal whose hooks never panic never panics |
| WalkTotal.ExprOk | src/visitor/mod.rs:239-241 | the same for expressions, by mutual induction over the tree |
| Extract.LastKeyValueIsLast | src/visitor/process.rs:167-178 | the slot filled from `name: v` holds `v` iff an identifier-keyed member `name: v` exists and no later member has that name |
| Extract.LastKeyValueAbsent | src/visitor/process.rs:167-178 | the slot stays empty iff no member has that name |
| Extract.MethodDeclsAppend | src/visitor/process.rs:145-165 | collecting `computed`/`methods` entries preserves source order: the entries of `a + b` are those of `a` then those of `b` |
| Extract.MethodDeclsMembers | src/visitor/process.rs:46-60 | an entry is collected iff it is an identifier-keyed method member of the section object |
| Extract.ScanWatchConfigTakesLast | src/visitor/process.rs:93-122 | a watch configuration takes the last `handler` method and the last `deep` and `immediate` values |
| Extract.WatchDeclsAppend | src/visitor/process.rs:68-137 | collecting watchers preserves source order |
| Extract.ExtractKeepsListsNonEmpty | src/visitor/process.rs:62-65 | extraction never stores an empty `computed`, `watch` or `methods` list |
| Extract.ExtractTakesLast | src/visitor/process.rs:29-44 | `data`, `created` and `mounted` hold the last method of that name; `components`, `inject` and `props` hold the value of the last key-value member of that name |
| Extract.ExtractSkipsInert | src/visitor/process.rs:199-215 | spreads, shorthands, getters and setters never affect the extracted record |
| Extract.OlderExtractorIgnoresWatch | src/visitor/mod.rs:92-180 | the older extractor computes the same record as the newer one except that `watch` is never touched |
| Transform.ArrowBodyOf | src/visitor/transform.rs:79-89 | a body of exactly one `return e;` becomes the expression `e`; any other body stays a block that unfolds to the same statements; a lone `return;` panics |
| Transform.LowerAllAppend | src/visitor/transform.rs:72-122 | lowering a list of entries lowers each part in order |
| Transform.LowerAllOk | src/visitor/transform.rs:72-122 | lowering a list succeeds iff every entry lowers |
| Transform.LowerComputed | src/visitor/transform.rs:74-121 | a body-less entry yields nothing; otherwise `const name = computed(() => body)` with a parameterless, non-async arrow whose body is the single-return simplification of the original (`ArrowBodyOf`); it panics only on a lone `return;` |
| Transform.WatchArgs | src/visitor/transform.rs:152-205 | a watch call has three arguments iff `deep` or `immediate` is present, two otherwise; the first two are the name and the handler arrow with the handler's parameters |
| Transform.LowerWatch | src/visitor/transform.rs:135-216 | a body-less watcher yields nothing; otherwise one `watch(name, arrow[, options])` statement whose arrow body is the single-return simplification of the handler (`ArrowBodyOf`); it panics only on a lone `return;` |
| Transform.WatchOptionsKeys | src/visitor/transform.rs:174-195 | the options object holds exactly the present options, `deep` before `immediate` |
| Transform.TransformMounted | src/visitor/transform.rs:220-251 | nothing for a body-less function, otherwise one `onMounted` arrow keeping the body and the async and generator flags |
| Transform.RefStmtsStep | src/visitor/transform.rs:323-326 | one more property after a successful prefix appends its ref, or its panic is the panic of the whole list |
| Transform.TransformInject | src/visitor/transform.rs:253-297 | the keys are taken in some order that lists each key of the map exactly once, and the i-th statement is `const s = inject("s")` for the string value `s` of the i-th key, so each entry yields exactly one statement and nothing else is produced |
| Transform.FirstReturnArgIsFirst | src/visitor/transform.rs:300-308 | the returned object is the argument of the first `return` that has one, and there is none iff no `return` has an argument |
| Transform.RefStmts | src/visitor/transform.rs:320-353 | succeeds iff every returned property is an identifier-keyed key-value member; then one `const k = ref(v)` per property, in order; otherwise the error names the failing check |
| Transform.RefStmtsPrefixErr | src/visitor/transform.rs:323-326 | the first failing property decides the panic |
| Transform.TransformData | src/visitor/transform.rs:299-356 | the loop computes exactly the refs of the specification |
| Transform.DataRefsMeaning | src/visitor/transform.rs:299-313 | data lowering succeeds iff some `return` has an object-literal argument whose properties all lower; "return not found" iff no `return` has an argument |
| Transform.MethodStmts | src/visitor/transform.rs:47-55 | methods become function declarations, one-to-one and in order |
| Transform.PassThrough | src/visitor/transform.rs:10-23 | components, props and inject statements are copied when present; no other group changes |
| Transform.WithData | src/visitor/transform.rs:25-28 | `data` becomes its refs; it panics iff `data` has no body or does not lower; no other group changes |
| Transform.WithCreated | src/visitor/transform.rs:30-35 | the statements of `created` are copied only when it has a body; no other group changes |
| Transform.WithComputed | src/visitor/transform.rs:37-40 | computed entries are lowered; it panics iff one of them does; no other group changes |
| Transform.WithWatch | src/visitor/transform.rs:42-45 | watchers are lowered; it panics iff one of them does; no other group changes |
| Transform.WithMethods | src/visitor/transform.rs:47-55 | one function declaration per method, in order; no other group changes |
| Transform.WithMounted | src/visitor/transform.rs:57-60 | mounted is lowered; no other group changes |
| Transform.LowerSectionsFails | src/visitor/transform.rs:9-61 | lowering a component panics iff `data` has no body or does not lower, or some computed or watch entry is a lone `return;` |
| Write.SetupMethod | src/ast.rs:91-137 | `setup(props, ctx)`, neither async nor generator, whose body is exactly the given statements, with no return added |
| Write.WriteSetup | src/visitor/write.rs:6-83 | the setup method has the given statements followed by one `return { … }` of every name they declare |
| Write.WriteCompositionComponent | src/visitor/write.rs:85-175 | the export is `defineComponent({ components?, props?, setup })`, with the setup groups in the order inject, refs, computed, watch, created, methods, mounted |
| Write.DeclaredNamesAppend | src/visitor/write.rs:9-25 | the declared names of `a + b` are those of `a` then those of `b` |
| Write.DeclaredNamesSound | src/visitor/write.rs:9-36 | every returned name is declared by some statement |
| Write.DeclaredNamesComplete | src/visitor/write.rs:9-36 | every name a class, function or `const`/`let`/`var` identifier declaration binds is returned |
| Write.ReturnedNamesByGroup | src/visitor/write.rs:113-153 | the returned names are those of each setup group in turn |
| Write.ConstDeclNames | src/visitor/transform.rs:339-352 | a ref declaration `const k = …` declares exactly `k` |
| Write.RefNames | src/visitor/transform.rs:320-353 | the refs declare exactly the data keys, in order, so each is returned |
| Write.WatchNamesEmpty | src/visitor/transform.rs:207-215 | watch calls declare nothing, so watchers are never returned |
| Write.ComputedNames | src/visitor/transform.rs:72-122 | each computed entry with a body is returned under its own name, in order |
| Write.MethodNames | src/visitor/transform.rs:47-55 | every method is returned under its own name, in order |
| Write.MountedNamesEmpty | src/visitor/transform.rs:220-251 | `onMounted(…)` declares nothing |
| Write.ComponentExprShape | src/visitor/write.rs:155-174 | the export is `defineComponent` applied to one object literal whose last member is `setup` |
| Visitor.CollectMethodDecls | src/visitor/process.rs:46-60 | the collecting loop yields exactly the specified entries |
| Visitor.ScanWatchObject | src/visitor/process.rs:88-122 | the inner watch loop yields the specified handler, `deep` and `immediate` |
| Visitor.CollectWatchDecls | src/visitor/process.rs:68-137 | the outer watch loop yields exactly the specified watchers |
| Visitor.Visitor.constructor | src/visitor/mod.rs:21-30 | a fresh visitor has empty records and no prop set or inject map |
| Visitor.Visitor.PreprocessDefaultExport | src/visitor/process.rs:8-27 | the prop set and the inject map come from the last `props` and `inject` members; nothing else changes |
| Visitor.Visitor.PreprocessPropsOnly | src/visitor/mod.rs:77-90 | only the prop set changes, from the last `props` member |
| Visitor.Visitor.ProcessMethodProp | src/visitor/process.rs:29-44 | a `data`, `created` or `mounted` method fills its slot; only the Options record changes |
| Visitor.Visitor.ProcessComputed | src/visitor/process.rs:46-66 | `computed` is set iff at least one entry is collected |
| Visitor.Visitor.ProcessWatch | src/visitor/process.rs:68-143 | `watch` is set iff at least one watcher is collected |
| Visitor.Visitor.ProcessMethods | src/visitor/process.rs:145-165 | `methods` is set iff at least one entry is collected |
| Visitor.Visitor.ProcessKeyValue | src/visitor/process.rs:167-197 | one key-value member updates the Options record as specified |
| Visitor.Visitor.ProcessDefaultExport | src/visitor/process.rs:199-215 | the Options record after all members is the extraction of the old record |
| Visitor.Visitor.ProcessDefaultExportWithoutWatch | src/visitor/mod.rs:92-180 | the same, for the older extractor that ignores `watch` |
| Visitor.Visitor.PopulateComposition | src/visitor/mod.rs:32-75 | the older populate step: it panics iff `data` panics; otherwise the record passes components and props through and copies data refs, computed, created and methods |
| Visitor.Visitor.TransformComponent | src/visitor/transform.rs:9-61 | the Composition record is the lowering of every present section; its inject statements are one per map entry, in an enumeration of the keys that lists each key once; a panic is the first section's panic |
| Visitor.Visitor.VisitMutModule | src/visitor/mod.rs:239-278 | every item is rewritten in place; the first `export default {…}` after rewriting is replaced by the written component, and nothing else changes |
| Visitor.PopulateSteps | src/visitor/mod.rs:32-75 | the steps of `populate_composition`, one after the other, compute the specified result, panic included |
| Visitor.LowerComponent | src/visitor/transform.rs:9-61 | pass-through, inject and lowering steps compute the specified lowering; the inject statements are one per map entry, in an enumeration of the keys that lists each key once |
| Visitor.LowerGroupsInOrder | src/visitor/transform.rs:25-61 | the section steps, one after the other, compute the specified lowering |
| Visitor.FirstDefaultObject | src/visitor/mod.rs:244-265 | the index of the first `export default {…}` item, or none iff there is no such item |
| Visitor.VisitModule | src/visitor/mod.rs:281-288 | a fresh visitor analyses, rewrites and replaces as specified |
| Visitor.RewriteKeepsDefaultExport | src/visitor/mod.rs:239-260 | rewriting never moves the first default export |
| Visitor.TransformModuleKeepsOthers | src/visitor/mod.rs:239-278 | the module keeps its length and every item but the first `export default {…}` is only rewritten |
| Visitor.TransformModuleReplacesDefault | src/visitor/mod.rs:239-278 | the first `export default {…}` is replaced by a `defineComponent` call export |
| Visitor.TransformModuleWithoutDefault | src/visitor/mod.rs:262-265 | a module without `export default {…}` only has its items rewritten |
| Visitor.PopulatedLeavesUntouched | src/visitor/mod.rs:32-75 | the populate step leaves the inject, watch and mounted groups as they were |
| SetupRename.CollectRefs | src/visitor.rs:37-66 | the loop yields exactly the specified refs, panicking on the first property that is not `ident: value`, and collects the declared names in order |
| SetupRename.DataToRefs | src/visitor.rs:13-82 | the loop yields the refs followed by `return { … }` of the ref names |
| SetupRename.SetupFromDataShape | src/visitor.rs:37-80 | on success: one ref per returned property, in order, and a final return of exactly the keys |
| SetupRename.RenamedData | src/visitor.rs:114-123 | a `data` method with a body becomes `setup` with the lowered body; every other method member is unchanged |
| SetupRename.VisitMutMethodProp | src/visitor.rs:114-123 | the in-place rename computes exactly that |
| SetupRename.RenameModule | src/visitor.rs:87-112 | a module without `export default {…}` is left exactly as it is |
| VueAst.DefaultVueOptions | src/ast.rs:18-29 | every field starts absent |
| VueAst.DefaultVueComposition | src/ast.rs:37-44 | both fields start absent |
| VueAst.KeyString | src/ast.rs:66-73 | a member is named iff its key is an identifier or a string |
| VueAst.VueStep | src/ast.rs:55-84 | one member fails iff it has a recognised name in the wrong shape; unnamed members change nothing |
| VueAst.CreateVueComponent | src/ast.rs:46-88 | the loop computes the specified record |
| VueAst.VueComponentPrefixErr | src/ast.rs:77-82 | the first wrong-shape member decides the panic |
| VueAst.VueComponentFails | src/ast.rs:77-82 | extraction panics iff some member has a recognised name in the wrong shape, e.g. a key-value `data` or a method `props` |
| VueAst.VueComponentTakesLast | src/ast.rs:76-84 | each field holds the last member with that identifier or string name, and stays absent if none |
| VueAst.DataToRefs | src/ast.rs:139-199 | a body-less `data` panics; otherwise one ref per property, in order, with the same failure cases as `transform_data` |
| Script.IndexOf | src/main.rs:40-53 | the position returned is an occurrence with no earlier one; none means no occurrence at all |
| Script.GetScriptContents | src/main.rs:50-55 | the result never contains `</script>` |
| Script.ScriptContentsFails | src/main.rs:40-53 | the slicer fails iff there is no `<script>`, or no `</script>` follows the first one |
| Script.AttributedOpenTagRejected | src/main.rs:40-43 | example: the text `<script a>x</script>` contains no `<script>` at any position and the slicer fails on it, so an opening tag with attributes is not recognised |
| Script.ScriptContentsBetween | src/main.rs:46-55 | otherwise the result is exactly the text between the end of the first `<script>` (eight characters) and the first `</script>` after it |

## Left out

- Parsing, code generation, the CLI and the file read: `parse`, `emit`, `process`, `src/parser.rs`, `src/codegen.rs`, `main` and `fs::read_to_string` are I/O around the core. `Script.GetScriptContents` takes the file's text as a parameter.
- `inject_set_from_object_lit`: its source file is not part of this model. `Visitor.Visitor.PreprocessDefaultExport` takes it as a function parameter.
- The `ctx.$emit` and `ctx.$root` rewrites the tests expect: the modelled code does not contain them.
- Visitor.Visitor.TransformComponent: the order in which `transform_inject` walks its `HashMap` is unspecified. The contract states one statement per map entry, taken in some enumeration that lists each key exactly once, but not which enumeration.
- Transform.TransformInject: same reason. The enumeration of the keys is returned; which one the hash map yields is not stated.
- LowerComponent: same reason, for the inject statements it passes on.
- Visitor.Visitor.PopulateComposition: the `mounted` step of `populate_composition` (`src/visitor/mod.rs:68-70`) stores a `Function` where a statement list is expected and does not type-check, so the model leaves that group untouched. The same file's `computed` and `methods` steps store declaration lists in statement slots. They are modelled as function-declaration statements (`Transform.MethodStmts`).
- `transform::data_to_refs`, called by `src/visitor/mod.rs:52`, is not defined in `transform.rs`. It is modelled as `transform_data`.
- `process.rs` is not wired to any driver in the repository. Its methods are modelled on the same class, but only the `mod.rs` driver is modelled as `VisitModule`.
- The unused `ref_names` vector in `transform_data` has no effect and is not modelled.
- After a panic, the model says which panic happened (`Outcomes.Panic`) but not what state the visitor is left in.
- `src/vue_ast.rs`: duplicate datatypes with no behaviour that no module declares.
- Rewriter.RewriteItem and RewriterIdempotence: the syntax tree has no assignments, operators, conditionals, control-flow statements, class bodies, destructuring patterns or module declarations other than `export default` (they are the tagged `Other…` cases). The source's traversal descends into them and rewrites the `this.x` uses there, e.g. `this.x = 2;` becomes `x.value = 2;` and `export const y = this.x;` becomes `export const y = x.value;`. The model does not capture those rewrites; its statements about the rewrite hold for the node kinds it represents.
- The per-node lemmas of `RewriterIdempotence` and `WalkTotal` other than those listed are the mutual-induction steps of the listed ones.
