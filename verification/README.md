# babel-plugin-jsx-classnames-advanced, modelled in Dafny

The plugin is a Babel visitor for JSX attributes. It rewrites a qualifying
attribute such as `className={[a, {b: c}]}` into
`className={_babel_plugin_jsx_classnames_advanced([a, {b: c}])}`. The callee is a
default import of the `classnames` package, which the plugin inserts into the file.
An attribute qualifies when all of these hold:

- its name is one of the configured `attributeNames`;
- its value is a `{...}` expression container;
- the contained expression is not a string literal;
- it is not a member expression, unless `ignoreMemberExpression` is off;
- it is not a bare identifier, unless `ignoreIdentifier` is off.

With a `nameHint` (the default), the first rewrite in a file asks the import
provider for one binding, and every later rewrite in that file calls the same
binding. With `nameHint: false`, every rewrite asks the provider for an import of
its own.

The model has these modules:

- `Syntax`: the JSX fragment the rule reads and builds. This covers attribute names
  (plain or namespaced), attribute values (none, a quoted string, a container, an
  element) and expression shapes.
- `Options`: the five default attribute names, the default hint, and the merge of
  the caller's options over the defaults.
- `Rewriter`: the match predicate and the value rewrite. It also holds the import
  provider, modelled as a supply of fresh generated names, the per-file state
  (`isImported` / `importedIndentifier`) and one visit of the rule.
- `Traversal`: a file is a sequence of attributes visited left to right. A left fold
  threads the file's state and inserted imports through the visits.
- `ImportLaws`: the Sharing law, the Independence law, and a reference result for
  each mode that the fold is proved equal to.
- `Scenarios`: the repository's documented input/output cases, stated as lemmas.

The import provider is a parameter of the system, not part of it. The model gives it
only the property the rule relies on: it adds one import of the requested source and
returns a binding that collides with no binding already introduced. A binding is
written `Generated(hint, serial)`, and each call uses the next serial. The provider
spells such a binding as `_hint`, `_hint2`, …, and that spelling is not modelled.

The defaults are the five attribute names at src/index.js:5-11 (`className`,
`dropdownClassName`, `wrapperClassName`, `wrapClassName`, `overlayClassName`).

## Model

| member | source | states |
|---|---|---|
| Options.Resolve | src/index.js:28-30 | Each key the caller supplies wins; each key left out takes its default. The defaults are the five names, the package hint, and both ignore flags on. |
| Options.ResolveNoOptions | src/index.js:3-14 | With no options the rule uses exactly the defaults: five attribute names, hint `_babel_plugin_jsx_classnames_advanced`, member expressions and identifiers ignored. |
| Options.ResolveComplete | src/index.js:28-30 | Options that set every key replace every default, so merging them gives back the configuration they were written from. |
| Options.ResolveOneKey | src/index.js:28-30 | Setting one option key changes that key of the effective configuration and nothing else. |
| Rewriter.Qualifies | src/index.js:32-38 | The guard's definition: a listed plain name, a container value, and a contained expression that is not a string literal, nor a member or identifier whose ignore flag is on. Its two-way contract against a per-shape classification is `Rewriter.QualifiesByShape`. |
| Rewriter.QualifiesByShape | src/index.js:32-38 | The guard, in both directions: an attribute is rewritten iff its name is a listed plain identifier, its value is a container, and the contained shape is admitted. A string literal is never admitted; a member only when `ignoreMemberExpression` is off; an identifier only when `ignoreIdentifier` is off; every other shape always. |
| Rewriter.NameFilter | src/index.js:33 | An attribute whose name is not a configured plain name is never rewritten. This includes every namespaced name. |
| Rewriter.ContainerFilter | src/index.js:34-35 | A missing value, a quoted string, an element value, or a container holding a string literal is never rewritten, under any configuration. |
| Rewriter.MemberAndIdentifierGating | src/index.js:36-37 | For a listed name with a container value, a member expression is rewritten iff `ignoreMemberExpression` is off, and an identifier iff `ignoreIdentifier` is off. |
| Rewriter.FlagsIndependent | src/index.js:36-37 | Each ignore flag affects only its own shape. Flipping it leaves the outcome for every other value unchanged. |
| Rewriter.OtherShapesQualify | src/index.js:32-38 | For a listed name, any container expression that is not a string literal, member or identifier is rewritten, whatever the flags. That includes arrays, objects, binary expressions, template literals and optional members. |
| Rewriter.Rewrite | src/index.js:17-24 | The rewritten attribute keeps its name. Its value is a container holding a one-argument call of the given callee, and that argument is the original expression. |
| Rewriter.RewriteStillQualifies | src/index.js:17-24 | A rewritten attribute still qualifies and differs from the original. So the rule relies on each attribute being visited once. |
| Rewriter.AddDefault | src/index.js:41-46 | The provider appends one import of `classnames` under a binding that is new to the file, carries the requested hint, and is now bound. It leaves the rule's own state alone and keeps the bookkeeping sound. |
| Rewriter.Visit | src/index.js:27-54 | One visit: an attribute that does not qualify leaves the attribute and the file untouched. A qualifying one keeps its name and becomes a call of its original expression, and the callee is bound by one of the file's imports. The visit appends at most one import and keeps the earlier ones. |
| Traversal.MatchCountZero | src/index.js:32-38 | A file has zero rewrites iff no attribute in it qualifies. |
| Traversal.Run | src/index.js:26-55 | Visiting a file's attributes in order yields one attribute per input and leaves sound bookkeeping. |
| Traversal.Transform | src/index.js:26-55 | One file's whole pass, starting from a unit with no binding recorded and no import: one output attribute per input, and sound import bookkeeping at the end. What it returns in each mode is stated by `ImportLaws.SharedTransform` and `ImportLaws.IndependentTransform`. |
| Traversal.RunAppendsImports | src/index.js:40-53 | A run only appends imports, at most one per rewritten attribute. |
| Traversal.RunLeavesUnmatched | src/index.js:32-38 | An attribute that does not qualify leaves the run exactly as it entered. |
| Traversal.RunCallsImported | src/index.js:40-53 | A rewritten attribute keeps its name and calls its original expression. The callee is bound by an import present at the end of the run. |
| Traversal.CalleesAreImported | src/index.js:26-55 | In both modes, every rewritten attribute is `{b(e)}` where `e` is its expression and `b` is the binding of one of the file's imports. The others are unchanged, and there are no more imports than rewrites. |
| ImportLaws.VisitShared | src/index.js:45-53 | Proof step: `Visit` unfolded for a configured hint, with the provider call inlined. The first rewrite asks the provider once, with that hint, and records the binding; a later rewrite calls the recorded binding and changes nothing else. The file-level content is in `ImportLaws.SharingLaw`. |
| ImportLaws.SharedAfterImport | src/index.js:51-53 | Once the binding is recorded, the rest of the file adds no import and changes no state. |
| ImportLaws.SharedAfterImportAt | src/index.js:51-53 | Once the binding is recorded, every later rewrite calls it. |
| ImportLaws.SharedBeforeImport | src/index.js:45-50 | Starting with no binding: a file with no rewrite keeps its state. Otherwise the file ends with exactly one more import, under the hint, recorded as the shared binding. |
| ImportLaws.SharedBeforeImportAt | src/index.js:45-53 | Starting with no binding, every rewrite calls the binding the first rewrite asked for. |
| ImportLaws.SharingLaw | src/index.js:45-53 | Sharing law. With a hint, a file with N > 0 rewrites gets exactly one `classnames` import under that hint, and all N rewrites call it. A file with no rewrite gets no import and comes out unchanged. |
| ImportLaws.SharedTransform | src/index.js:26-55 | With a hint, a whole file equals the reference result: each qualifying attribute calls the provider's first binding, every other attribute is as it was, and there is one import iff anything was rewritten. |
| ImportLaws.VisitUnshared | src/index.js:40-43 | Proof step: `Visit` unfolded for `nameHint: false`, with the provider call inlined. A visit asks the provider, with the default hint, exactly when it rewrites, and never touches the shared-import state. The file-level content is in `ImportLaws.IndependenceLaw`. |
| ImportLaws.IndependentUnit | src/index.js:40-43 | With `nameHint: false`, a run adds one default-hint import per rewrite, in order, and leaves the shared-import state unchanged. |
| ImportLaws.IndependentCalleeAt | src/index.js:40-43 | With `nameHint: false`, the k-th rewrite of a file calls the binding of the provider's k-th call. |
| ImportLaws.IndependentImports | src/index.js:40-43 | With `nameHint: false`, a file's imports are exactly the fresh default-hint imports, one per rewrite, and their bindings are pairwise distinct. |
| ImportLaws.IndependentCalleesDiffer | src/index.js:40-43 | With `nameHint: false`, two different rewritten attributes call different bindings. |
| ImportLaws.IndependentTransform | src/index.js:26-55 | With `nameHint: false`, a whole file equals the reference result: the k-th qualifying attribute calls the k-th fresh binding, and there are exactly as many imports as rewrites. |
| ImportLaws.IndependenceLaw | src/index.js:40-43 | Independence law. With `nameHint: false`, N rewrites give exactly N `classnames` imports under the default hint, with pairwise distinct bindings. No two rewrites share a callee, and the shared-import state is never set. |
| Scenarios.IgnoreOtherName | test/index.test.js:23-31 | `<div otherAttributeName={[]} />` is left alone and gets no import. |
| Scenarios.IgnoreByDefault | test/index.test.js:33-71 | A quoted string, `{'a'}`, `{styles.wrap}` and `{a}` are all left alone by default. |
| Scenarios.TransformExpressions | test/index.test.js:75-103 | `{[]}`, `{{}}` and `{'a' + 'b'}` are wrapped in a call to one default-hint import. |
| Scenarios.DefaultAttributeNamesRewritten | test/index.test.js:107-145 | Each of the other four default names is rewritten. |
| Scenarios.OptionAttributeNames | test/index.test.js:149-158 | With `attributeNames: ['attributeName0']`, that name is rewritten. |
| Scenarios.OptionNameHint | test/index.test.js:160-169 | With `nameHint: 'nameHint'`, the single import is asked for under that hint. |
| Scenarios.OptionNameHintFalse | test/index.test.js:182-191 | With `nameHint: false`, two rewrites give two imports with two distinct bindings, one per attribute, in order. |
| Scenarios.OptionIgnoreMemberExpressionOff | test/index.test.js:193-213 | With `ignoreMemberExpression: false`, `{styles.wrap}` is rewritten, and `{[]}` still is. |
| Scenarios.OptionIgnoreIdentifierOff | test/index.test.js:215-235 | With `ignoreIdentifier: false`, `{a}` is rewritten, and `{[]}` still is. |
| Scenarios.AvoidDuplicateImports | test/index.test.js:239-247 | Two rewrites in one file share one import. |
| Scenarios.Misc0 | test/index.test.js:251-260 | With two configured names and a hint, the member expression is left alone and the other three share one `_nameHint` import. |
| Scenarios.Misc1 | test/index.test.js:262-271 | With `ignoreMemberExpression: false`, three `className` attributes share one import, and the unlisted `attributeName0` is left alone. |

## Left out

- Babel itself: parsing, path objects, traversal order beyond left to right over a file's attributes, nested elements, and printing the output code.
- The provider's naming scheme: the leading underscore, the numeric suffix, and how it avoids names already in scope. Bindings are abstract `Generated(hint, serial)` values, so `nameHint: 'nameHint'` and `nameHint: '_nameHint'` give different hints in the model, although the provider spells both as `_nameHint`. The second test case (test/index.test.js:171-180) is not stated for that reason.
- Where imports are placed: the provider puts each new import at the top of the file, so with `nameHint: false` the output lists them in reverse call order. The model keeps them in call order.
- Node identity: a later shared rewrite builds a new identifier node with the recorded name (src/index.js:52). The model uses the same name value.
- Options.Resolve: a key present with the value `undefined` overrides its default under object spread. So do values of the wrong type, such as a non-array `attributeNames` or a `nameHint` of `null`. Options that cannot be written in the `Options` datatype are not modelled.
- The options merge runs at every visit (src/index.js:28-30). Within one file the options do not change, so the model merges once per file.
- Any package other than `classnames` and other plugins in the same Babel pipeline.
