# Fractal component helpers in Dafny

A verified model of the pure helpers around the Fractal reactive component
framework. The framework builds UIs from a tree of stateful components. Each
live component ("space") sits in a flat index under an id of the form
`parentId$childName`, and reducers called "actions" change its state.

The model covers four small cores:

- **Component helpers** (`src/component.ts`), in `component.dfy`, module `ComponentHelpers`:
  - the generic `action` input, which decodes a name, a `[name, value]` pair, or a pair plus a fetched value into an action call;
  - the definition rewriters `props` and `setGroup`;
  - the child-id construction used by `toChild`;
  - the lookups `stateOf` and `spaceOf` into the flat index, including the errors `stateOf` logs.
- **Functional combinators** (`src/utils/fun.ts`), in `fun.dfy`, module `Fun`: `assoc`, `evolve`, `evolveKey`, `pipe`, `mapToObj` and `merge`.
- **Style groups** (`src/utils/style.ts`), in `style.dfy`, module `Style`: `mergeStyles`, `hasBaseObject` and `c`.
- **The complex-list root** (`src/examples/complexList/Root.ts`), in `complex_list.dfy`, module `ComplexListRoot`:
  - the `SetText`, `New` and `Remove` actions over `{text, numItems, items}`;
  - the decision rule of `inputKeyup`;
  - the item invariant: every key of `items` is the decimal key of a number below `numItems` and maps to that number.

`values.dfy`, module `Values`, holds the shared JavaScript value model:

- `Value` is a JSON-like datatype, and objects are `map<string, Value>`.
- A missing property reads as `undefined` (`Get`).
- A value used as a property name is coerced to a string key (`ToPropertyKey`). Integers become their decimal spelling (`NatKey`), with a proved round trip (`ParseNatKey`).
- `OwnProps` gives the own enumerable properties that `Object.assign` copies, and `Assign` models `Object.assign` itself. `props` and `mergeStyles` both use it.

The JavaScript helpers mutate the object they are given and then return it.
The model returns the updated value instead, which is what every caller
observes. Because values are immutable here, the promise that `mergeStyles`
leaves both input groups untouched holds by construction.

Many helpers are `for ... in` or `Object.keys` loops. Each of these is
modelled twice:

- a reference function that states the result key by key;
- a method that visits the keys in an arbitrarily chosen order. Its contract proves that it computes the reference function, so the result does not depend on the key order.

A design caveat is recorded as a lemma. Ids in the flat index are unique
under one parent (`ChildIdInjective`), but not across the tree when a child
name contains `$` (`ChildIdAmbiguous`). The source does not rule such names
out.

## Model

| member | source | states |
|---|---|---|
| `Values.Get` | src/utils/fun.ts:15 | Reading a property of an object yields its value when present and `undefined` when absent. |
| `Values.NatKey` | src/examples/complexList/Root.ts:64 | The key a non-negative count becomes when used as a property name is a non-empty string of decimal digits. |
| `Values.ParseNatKey` | src/examples/complexList/Root.ts:64 | Parsing the decimal key of `n` gives back `n`, so the key determines the number. |
| `Values.NatKeyInjective` | src/examples/complexList/Root.ts:64 | Two numbers share a decimal key exactly when they are equal. |
| `Values.ToPropertyKey` | src/component.ts:28 | A string used as a property name is itself; a non-negative integer is its decimal key. Other values follow JavaScript's string coercion. |
| `Values.IndexedProps` | src/utils/style.ts:59 | The indexed own properties of an array or string hold element `i` under the decimal key of `i`, and have no other keys. |
| `Values.OwnProps` | src/utils/style.ts:59 | `Object.assign` copies all fields of an object and nothing from `null`, `undefined`, numbers or booleans. |
| `Values.Assign` | src/component.ts:58 | `Object.assign` yields an object holding both key sets: the source's properties win and the target's other properties are kept. |
| `Fun.Assoc` | src/utils/fun.ts:4-7 | `assoc(k)(v)(o)` has `o[k] == v`, adds at most `k` to the key set, and leaves every other key's value unchanged. |
| `Fun.AssocIdempotent` | src/utils/fun.ts:4-7 | Applying `assoc` twice with the same key and value equals applying it once. |
| `Fun.AssocLastWriteWins` | src/utils/fun.ts:4-7 | Of two `assoc`s on one key, only the later value remains. |
| `Fun.Evolve` | src/utils/fun.ts:13-18 | Each key `k` of the index maps to `index[k]` applied to `o[k]`, or to `undefined` when `o` lacks `k`. Other keys of `o` are unchanged. The key set is the union. |
| `Fun.EvolveLoop` | src/utils/fun.ts:13-18 | The `for (key in index)` loop computes `Evolve` whatever order it visits the keys in. |
| `Fun.EvolveKey` | src/utils/fun.ts:20-23 | `evolveKey(k)(f)(o)` sets `k` to `f` of its old value, or of `undefined`, and leaves every other key unchanged. |
| `Fun.EvolveKeyIsEvolve` | src/utils/fun.ts:13-23 | `evolveKey(k)(f)` is exactly `evolve` with the one-entry index `{k: f}`. |
| `Fun.AssocIsEvolveKey` | src/utils/fun.ts:4-23 | `assoc(k)(v)` is `evolveKey(k)` with the constant function `v`. |
| `Fun.Pipe` | src/utils/fun.ts:26-34 | `pipe` with no functions is the identity, and with one function `f` it is `f` itself. |
| `Fun.PipeAppend` | src/utils/fun.ts:26-34 | Piping `fs ++ gs` equals piping `fs` and then `gs`. |
| `Fun.PipeSnoc` | src/utils/fun.ts:26-34 | `pipe(fs ++ [g])(x) == g(pipe(fs)(x))`: the last function is applied last. |
| `Fun.PipeEmpty` | src/utils/fun.ts:26-34 | `pipe()` is the identity. |
| `Fun.PipeLoop` | src/utils/fun.ts:27-33 | The index loop of `pipe`'s returned function computes the left-to-right composition. |
| `Fun.MapToObj` | src/utils/fun.ts:41-48 | The keys of `mapToObj(arr, fn)` are exactly those that `fn(i, arr[i])` emits. Each key holds the value of the highest index emitting it. |
| `Fun.MapToObjLoop` | src/utils/fun.ts:41-48 | The index loop of `mapToObj` computes `MapToObj`. |
| `Fun.Merge` | src/utils/fun.ts:50-58 | The domain of `merge(src)(o)` is the union of both domains. Values from `src` win and the other keys of `o` are kept. |
| `Fun.MergeIdempotent` | src/utils/fun.ts:50-58 | Merging the same source twice equals merging it once. |
| `Fun.AssocIsMerge` | src/utils/fun.ts:4-58 | `assoc(k)(v)` is `merge({k: v})`. |
| `Fun.MergeLoop` | src/utils/fun.ts:50-58 | The `for (key in src)` loop computes `Merge` in any key order. |
| `Style.HasBaseObject` | src/utils/style.ts:34-41 | The scan returns true exactly when the object has key `base` mapped to a non-null object or array. |
| `Style.C` | src/utils/style.ts:45-49 | `c(name, cond)` is the one-entry object `{name: cond}`. |
| `Style.MergeEntry` | src/utils/style.ts:58-62 | An object-valued accumulated class is shallow-merged with `group2`'s class, whose properties win and the others are retained. Any other accumulated value is replaced by `group2`'s class. |
| `Style.MergeStyles` | src/utils/style.ts:52-64 | The result always has `base`, and its keys are those of both groups plus `base`. A class only in `group1` keeps `group1`'s value. A class in `group2` is merged with the accumulated value. `base` defaults to `{}`. |
| `Style.MergeStylesLoop` | src/utils/style.ts:52-64 | The two `Object.keys` loops compute `MergeStyles` whatever order they visit keys in. |
| `Style.MergeStylesBaseStaysObject` | src/utils/style.ts:53-61 | When `group1` has no `base` or an object `base`, the merged `base` is an object. |
| `Style.MergeStylesOntoEmpty` | src/utils/style.ts:52-64 | Merging a group of plain-object classes with a `base` onto `{}` gives back that group. |
| `Style.MergeStylesSelf` | src/utils/style.ts:52-64 | Merging a group of plain-object classes with a `base` with itself gives back that group. |
| `ComponentHelpers.DecodeAction` | src/component.ts:14-27 | A plain first slot names the action, which receives the second slot. A `[name, value]` pair passes `value`, or `[value, arg2]` when the second slot is not `undefined`. |
| `ComponentHelpers.Action` | src/component.ts:14-29 | The call succeeds exactly when the decoded name has an action, and then yields that action applied to the decoded value. Otherwise it fails with the TypeError "actions[name] is not a function". |
| `ComponentHelpers.ActionShapes` | src/utils/component.spec.ts:25-35 | On an identity action: `['a1', 'someValue']` gives `'someValue'`, `[['a1', 10]]` gives `10`, and `[['a1', 10], 7]` gives `[10, 7]`. |
| `ComponentHelpers.Props` | src/component.ts:54-64 | When both states are objects, the new state is a key-wise merge in which the given keys win and untouched old keys remain. Otherwise the given state replaces the old one. Name, groups and the rest never change. |
| `ComponentHelpers.PropsSameState` | src/component.ts:54-64 | Applying `props` with a component's own object state leaves the component unchanged. |
| `ComponentHelpers.PropsExamples` | src/utils/component.spec.ts:59-70 | `{count: 4}` over `{count: 0, data: 10}` keeps `data == 10` and sets `count == 4`. The number `5` replaces the state. |
| `ComponentHelpers.SetGroup` | src/component.ts:66-71 | `groups[name]` is replaced entirely by the new group, with no deep merge. Other groups and fields are unchanged. A component without `groups` makes it fail with "Cannot set properties of undefined (setting '<name>')". |
| `ComponentHelpers.SetGroupIsAssoc` | src/component.ts:66-71 | `setGroup` acts on the groups object as `assoc(name)(group)`. |
| `ComponentHelpers.ChildId` | src/component.ts:46-47 | A child id is the parent id, then `$`, then the child name. |
| `ComponentHelpers.ChildIdInjective` | src/component.ts:47 | Under one parent, two names give the same child id exactly when they are equal. |
| `ComponentHelpers.ChildIdAmbiguous` | src/component.ts:74 | Child `b$c` of `a` and child `c` of `a$b` share one id. |
| `ComponentHelpers.SpaceOf` | src/component.ts:87-89 | `spaceOf` returns the context's own space when its id is live, and nothing otherwise. |
| `ComponentHelpers.StateOf` | src/component.ts:73-85 | A non-empty name addresses `ctx.id + '$' + name`, and no name or `''` addresses `ctx.id`. A hit returns that space's state. A miss logs from `stateOf` either "there are no child '<name>' in space '<id>'" or "there are no space '<id>'". |
| `ComponentHelpers.StateOfOwnSpace` | src/utils/component.spec.ts:290-322 | `stateOf` with an empty name equals `stateOf` with none. It finds a state exactly when `spaceOf` finds the space, and the state is that space's. |
| `ComponentHelpers.StateOfChildIsChildsOwn` | src/component.ts:73-77 | The state a parent reads for child `name` is the state the child reads from its own context. |
| `ComplexListRoot.Apply` | src/examples/complexList/Root.ts:61-72 | No action lowers `numItems`, and only `New` changes it. Only `SetText` changes `text`. `SetText` leaves `items` alone. |
| `ComplexListRoot.ApplyAll` | src/examples/complexList/Root.ts:29-36 | Applying an input's actions in order never lowers `numItems`. A list without `New` keeps `numItems`, and a list without `SetText` keeps `text`. A one-element list acts as its action alone. |
| `ComplexListRoot.InitialValid` | src/examples/complexList/Root.ts:18-22 | The initial state satisfies the item invariant. |
| `ComplexListRoot.SetTextIsAssoc` | src/examples/complexList/Root.ts:62 | `SetText` is `assoc('text')` on the state object. |
| `ComplexListRoot.NewAddsOneItem` | src/examples/complexList/Root.ts:63-67 | On a valid state `New` adds key `numItems` with value `numItems` and never overwrites an existing item. It then raises `numItems` by exactly 1 and grows `items` by one. |
| `ComplexListRoot.RemoveDeletesOneKey` | src/examples/complexList/Root.ts:68-71 | `Remove(idx)` deletes exactly the key `idx` denotes and leaves `text`, `numItems` and the other items unchanged. Removing an absent key changes nothing. |
| `ComplexListRoot.RemoveByNumber` | src/examples/complexList/Root.ts:68-71 | Removing by item number deletes that item and shrinks `items` by one exactly when it was present. |
| `ComplexListRoot.ApplyKeepsValid` | src/examples/complexList/Root.ts:61-72 | `SetText`, `New` and `Remove` each preserve the item invariant. |
| `ComplexListRoot.ApplyAllKeepsValid` | src/examples/complexList/Root.ts:61-72 | Any sequence of actions preserves the invariant and never lowers `numItems`. |
| `ComplexListRoot.InputKeyup` | src/examples/complexList/Root.ts:28-38 | Key code 13 with a text other than `''` yields `[SetText(''), New()]` in that order. Every other case yields only `SetText(text)`. |
| `ComplexListRoot.InputKeyupEffect` | src/examples/complexList/Root.ts:28-38 | On a valid state, Enter with text empties the text, adds one item and raises `numItems` by one. Any other key-up only sets the text. The invariant holds afterwards. |
| `ComplexListRoot.ActionInputReachesActions` | src/examples/complexList/Root.ts:27 | Through the generic `action` input, the names `SetText`, `New` and `Remove` reach their actions and every other name fails. |

## Left out

- The runtime engine (`nest`, `unnest`, `toIt`, dispatch, propagation, task handlers, async dispatch, `reattach`, `interfaceOf`): its implementation is not part of this model.
- `toAct`, `sendMsg` and the dispatching half of `toChild` (src/component.ts:32-49): they hand off to the runtime's `toIt`. Only the child id `toChild` computes is modelled.
- `styleGroup` and the CSS constants in src/utils/style.ts: `styleGroup` wraps the external typestyle library, and the constants are plain data.
- Root.ts views and styles, the `nest` call inside `inputKeyup`, and the inputs `setCheckAll`, `removeChecked` and `$$Item_remove`: these act through the runtime (`nest`, `unnest`, `toChild`, `toIt`). The `Item` component they use is not part of this model.
- Values: JavaScript numbers are modelled as unbounded integers. Floating point, precision loss past 2^53, exponent spelling of large numbers as keys, and `-0` are not modelled.
- Values: functions are not values, and prototype-chain properties are not modelled, so a missing key always reads as `undefined`. Action tables and `evolve` indexes are maps of total functions.
- Values.Assign: when the target is an array, the result is a plain object with the array's indexed entries. JavaScript would keep the array and add properties to it.
- ComponentHelpers.Props: the in-place mutation of `comp.state` is not modelled. With a component definition that was not cloned first, the source also changes the shared definition.
- ComponentHelpers.Action: it takes the two destructured slots of the input's message, with a missing slot as `undefined`. Destructuring a message that is not iterable, which throws in JavaScript, is not modelled.
- ComponentHelpers.Action: the TypeError raised when the name has no action comes from the JavaScript engine, not the source. Its text follows V8's wording and is illustrative; other engines word it differently.
- ComponentHelpers.SetGroup: the TypeError for a component without `groups` likewise comes from the engine. Its text follows current V8 wording and is illustrative.
- Values.OwnProps: a string's indexed properties are taken per Unicode character. JavaScript indexes UTF-16 code units, so a character outside the Basic Multilingual Plane gives one key here and two in JavaScript. Lone surrogates cannot be represented as Dafny characters. This reaches `Style.MergeEntry` only when a class value is a string.
- ComplexListRoot.InputKeyup: in the non-Enter case the source returns the single action `SetText(text)`, not a list. The model returns the one-element list, which the runtime applies the same way (`ComplexListRoot.ApplyAll` of `[a]` is `Apply(a)`).
- ComplexListRoot.ActionInputReachesActions: names inherited from `Object.prototype`, such as `toString`, resolve to a function in JavaScript and do not throw. The model has no prototype chain and rejects them.
- ComponentHelpers.Space: a space holds only its state, because the lookups read nothing else.
- Fun.PipeLoop and Fun.Pipe: functions are modelled on one value type `T`, whereas JavaScript's `pipe` may chain functions of different types.
