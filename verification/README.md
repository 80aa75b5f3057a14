# preact-context-provider, modelled in Dafny

This project models the context-composition logic of `preact-context-provider`:

- `Provider`, a component that exposes all of its props except `children` as context for its descendants;
- `MergingProvider`, which does the same but deep-merges each prop with the value already present in the inherited context, for every key or only for the keys listed in its `mergeProps` array;
- `deepAssign`, the recursive merge `MergingProvider` uses, in which the parent wins: a defined non-object parent value (including `null`, `0`, `false`, `""`) blocks the child's value;
- `assign`, the shallow own-key copy `deepAssign` starts from;
- `provide` and `mergingProvide`, the higher-order components, with their `getWrappedComponent` accessor.

Files:

- `values.dfy` (module `Values`): JavaScript values as a datatype. `Undefined`, `Null`, booleans, numbers, strings, functions (scalars for `typeof`), and `Obj(fields, isArray)` for objects and arrays. An array is an object whose own keys are its indices.
- `merge.dfy` (module `Merge`): `DeepMerge`, the specification of `deepAssign`. Also the methods `Assign` and `DeepAssign`, which follow the source's loops and are proved against it, and the merge laws.
- `providers.dfy` (module `Providers`): the two `getChildContext` hooks as methods over the props map and the inherited context map. `MergingContext` specifies the merging one; lemmas state its key set and its selector rules.
- `hoc.dfy` (module `Hoc`): components as `Base(id)` or `Wrapper(kind, ctx, inner)`, `provide`/`mergingProvide`, and `getWrappedComponent`.
- `scenarios.dfy` (module `Scenarios`): the documentation examples and the test-suite trees, evaluated on the model. These use Preact's context composition (`inherited + child`), which belongs to the host framework and is written out only there.

The test suite names the selector prop `mergeWithParent` and expects no merging by default (test/index.js:42-73). The source recognises only `mergeProps`, and it merges every key when `mergeProps` is absent (src/index.js:87-88, 121-125). The model follows the source. Under it, `mergeWithParent` is an ordinary prop that ends up in the context. `Scenarios.NoSelectorStillMerges` shows that the test at test/index.js:42-51 gets the parent's object, not `'overwrittenA'`. The two tests that agree with the source on `a` and `b` are `Scenarios.ParentTakesPrecedence` and `Scenarios.NullBlocksMerge`.

## Model

| member | source | states |
|---|---|---|
| `Merge.Assign` | src/index.js:50-57 | the result has the keys of both maps; every key of `props` holds `props`' value; every other key keeps `obj`'s value |
| `Merge.DeepAssign` | src/index.js:63-76 | the loop over the source's own keys, each merged by a recursive call onto a copy of the target, yields exactly `DeepMerge(target, source)` |
| `Merge.ScalarCase` | src/index.js:64-67 | when either side is not a non-null object, the result is the target if it is defined, otherwise the source |
| `Merge.FalsyParentBlocks` | src/index.js:60-66 | a parent `null`, `0`, `false` or `""` is kept whatever the child supplies |
| `Merge.UndefinedIdentity` | src/index.js:66 | `deepAssign(t, undefined) == t` and `deepAssign(undefined, s) == s` |
| `Merge.DefinedIfEither` | src/index.js:63-76 | the result is undefined exactly when both sides are undefined |
| `Merge.ObjectCase` | src/index.js:69-75 | two objects give a plain object whose keys are the union of both sides; target-only keys keep the target's value; each source key holds the recursive merge of the two sub-values |
| `Merge.DisjointUnion` | src/index.js:69-75 | objects with disjoint keys merge into their union |
| `Merge.ParentLeafWins` | src/index.js:60 | a defined non-object value at any path of the target appears unchanged at the same path of the result |
| `Merge.TargetKeysKept` | src/index.js:69-74 | wherever the target holds an object, the result holds an object with at least the target's keys |
| `Merge.SelfMerge` | src/index.js:63-76 | merging a value with itself returns it when it contains no array |
| `Merge.ArrayBecomesObject` | src/index.js:69 | merging an array with any object yields a value that is not an array and keeps all the array's index keys, since the copy starts from `{}` |
| `Providers.ProviderChildContext` | src/index.js:33-38 | the child context has exactly the props' keys minus `children`, each with its prop value unchanged |
| `Providers.MergingProviderChildContext` | src/index.js:118-128 | the loop over the props yields exactly `MergingContext(props, inherited)` |
| `Providers.MergingContextKeys` | src/index.js:124 | the child context's keys are exactly the props' keys minus `children` and `mergeProps`, whatever the inherited context holds |
| `Providers.SelectedKeysMerged` | src/index.js:121-125 | when `mergeProps` is an array, a listed key gets the merge of the inherited value and the prop; an unlisted key gets the prop as is |
| `Providers.AllKeysMerged` | src/index.js:87-88 | when `mergeProps` is absent or not an array, every exposed key gets the merge of the inherited value and the prop |
| `Providers.EmptySelectorIsProvider` | src/index.js:122-125 | with `mergeProps` an empty array, `MergingProvider` exposes its props verbatim, as `Provider` does |
| `Providers.FreshKeysPassThrough` | src/index.js:125 | when the inherited context shares no key with the props, the merging provider exposes its props verbatim |
| `Providers.InheritedScalarBlocks` | src/index.js:125 | an inherited defined non-object value under a merged key is kept, and the prop's value is dropped |
| `Hoc.Provide` | src/index.js:153-157 | `provide(ctx)(child)` is a `Provider` wrapper carrying `ctx`; its `getWrappedComponent()` returns the child's accessor answer when the child is a wrapper, otherwise the child |
| `Hoc.MergingProvide` | src/index.js:179-183 | `mergingProvide(ctx)(child)` is a `MergingProvider` wrapper carrying `ctx`; its `getWrappedComponent()` returns the child's accessor answer when the child is a wrapper, otherwise the child |
| `Hoc.GetWrappedComponent` | src/index.js:155 | the accessor delegates to the child's accessor when the child is a wrapper; the answer is never a wrapper |
| `Hoc.UnwrapNested` | src/index.js:181 | after any non-empty stack of layers applied with `provide`/`mergingProvide` around a non-wrapper, unwrapping gives back that component |
| `Hoc.WrapperIsLayers` | src/index.js:155 | every wrapper is a stack of layers around the component its accessor returns |
| `Scenarios.NestedProvidersOverride` | src/index.js:22-30 | nested `Provider`s, each exposing `ProviderContext(props)`: the nearer one replaces `a`, and `b` passes through |
| `Scenarios.MergeAllByDefault` | src/index.js:96-104 | without `mergeProps`, `{key1}` and `{key2}` merge into `{key1, key2}` |
| `Scenarios.MergeSelectedKeys` | src/index.js:106-115 | with `mergeProps={['a']}`, `a` is merged and `b` is replaced |
| `Scenarios.OuterMergingProvider` | test/index.js:55 | the outermost `MergingProvider`, under an empty context, exposes its props unchanged |
| `Scenarios.ParentNameKept` | test/index.js:56-61 | merging `{name:'notOverwrittenNameA', newProp:'c'}` under `{name:'a'}` keeps the parent's `name` and adds `newProp` |
| `Scenarios.ParentTakesPrecedence` | test/index.js:53-62 | the parent's `name` and `b` win; the child adds `newProp`; `mergeWithParent` becomes a context key |
| `Scenarios.NullBlocksMerge` | test/index.js:75-84 | an explicit `a: null` in the parent blocks the child's `a`, while `b` is merged |
| `Scenarios.NoSelectorStillMerges` | test/index.js:42-51 | without a selector the source merges, so the child's string `'overwrittenA'` does not replace the parent's object |
| `Scenarios.UnwrapDemo` | src/index.js:147-149 | `provide({a: "b"})(Demo).getWrappedComponent()` is `Demo`, also through a second wrapper |

## Left out

- Rendering is not modelled. This covers `render(props)` returning `children[0]`, the element descriptors built with `h` at src/index.js:154 and 180, and the forwarding of props to the wrapped child. They are calls into Preact.
- Preact's composition of the inherited context with a provider's child context is not part of the library. It appears only in `Scenarios.SeenBelow`, as a key-by-key override, to state the examples.
- Cyclic objects are not modelled. `deepAssign` recurses forever on them, and an inductive datatype has no cycles.
- Objects are their own enumerable string keys only. Prototypes, inherited keys seen by `for...in` (which `Provider` does not filter with `hasOwnProperty`), symbol keys and the `__proto__` setter are not modelled.
- The order of keys is not modelled. Maps are unordered, and each loop visits every key exactly once, so the order does not change any value.
- Numbers are mathematical integers. The model only compares values for identity, so floating point (including `NaN`) is not represented.
- `Merge.Assign` works on values: it returns the updated map instead of writing into `obj`. In the source, `obj` is always the fresh `{}` at src/index.js:69, so no alias can observe the difference.
- Arrays are assumed to hold only index keys. `Values.Includes` searches all of an array's own values, while `indexOf` searches only indices 0 to `length - 1`; the two agree because the model's arrays hold nothing else. An array with extra named properties is not modelled.
- An array's own non-enumerable `length` is not modelled. `target[i]` at src/index.js:72 reads it when the source has a `length` key, so `deepAssign([1,2], {length: 5})` keeps `length: 2` in the source, while the model gives `Num(5)`.
- `Hoc.GetWrappedComponent`: a base component with its own `getWrappedComponent` property is not modelled, nor is a falsy `Child` (src/index.js:155, `Child && ...`). The source would return that property, or the falsy value, respectively.
- The `mergeWithParent` selector expected by the tests is not modelled. The source does not implement it.
