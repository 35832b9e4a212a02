# Storybook sidebar expansion, argument coercion and generator package selection — a Dafny model

This project models three small, sequential pieces of Storybook:

- **The sidebar tree's expand/collapse controller** (`useExpanded`). A tree keeps a map from item id
  to "expanded". The map is seeded with the root ids and the ancestors of the highlighted item. It is
  updated by batches `{ ids, value }`, each reduced over a copy of the previous map. The ancestry of
  the selected story is forced open whenever the selection changes. A keydown handler turns Enter,
  Space, ArrowLeft and ArrowRight on the highlighted item into exactly one effect: select the item,
  collapse or expand it, move the highlight to its parent, or collapse or expand all of its descendants.
  In `tree_expansion.dfy` the map is the `expanded` field of the class `ExpandedController`. The
  reducer, the seeding and the tree helpers are pure functions. The key handler is a method whose
  guard clauses and branches follow the source one by one.
- **Argument coercion** (`mapArgsToTypes`), as its test file fixes it (`arg_coercion.dfy`). A record
  of raw values is coerced against a record of type descriptors. String fields go through `String()`
  and number fields through `Number()`. A boolean field is true only for the string `"true"`.
  Function fields are dropped. Object and array fields recurse through the nested descriptors.
  Keys missing from either record do not appear in the output.
- **The package list of the CLI's base generator** (`base_generator.dfy`). The options are merged
  with their defaults. Then the packages to install are chosen: the framework package, the addon
  packages, the extra packages and addons and, under yarn 2, two more. Empty entries and packages
  already in `dependencies` are dropped, and the order is kept.

`wrappers.dfy` holds the `Option` type that stands for `null`/`undefined`.

## Model

| member | source | states |
|---|---|---|
| `TreeExpansion.AncestorsFrom` | lib/ui/src/components/sidebar/useExpanded.ts:41 | The ancestor list is the chain of parents above the item, nearest first. Every element is in the hash and no id repeats. The chain stops only at an item whose parent is absent from the hash, or at a parent already visited. |
| `TreeExpansion.AncestorIds` | lib/ui/src/components/sidebar/useExpanded.ts:93 | An item is never its own ancestor, and an id missing from the hash has no ancestors. |
| `TreeExpansion.DescendantsIn` | lib/ui/src/components/sidebar/useExpanded.ts:144 | An id is a descendant exactly when it is listed in the hash, has the item among its ancestors, and is not a leaf that is being skipped. |
| `TreeExpansion.DescendantIds` | lib/ui/src/components/sidebar/useExpanded.ts:144 | `getDescendantIds`: an id is a descendant exactly when the hash lists it, has the item among its ancestors, and is not a leaf that is being skipped. The item itself is never among them. |
| `TreeExpansion.Reduce` | lib/ui/src/components/sidebar/useExpanded.ts:71-72 | After a batch, every listed id maps to `value`. Every other key keeps its previous value. The only keys are the old keys plus the listed ids. |
| `TreeExpansion.ReduceIdempotent` | lib/ui/src/components/sidebar/useExpanded.ts:71-72 | Dispatching the same batch twice gives the same state as dispatching it once. |
| `TreeExpansion.ReduceConcat` | lib/ui/src/components/sidebar/useExpanded.ts:43-45 | Folding two id lists in turn with one value equals folding their concatenation. |
| `TreeExpansion.InitializeExpanded` | lib/ui/src/components/sidebar/useExpanded.ts:28-47 | The initial keys are exactly the root ids plus, only when the highlight's ref id is this tree's, the highlighted item's ancestors. Every value is true. |
| `TreeExpansion.ExpandedController.constructor` | lib/ui/src/components/sidebar/useExpanded.ts:62-75 | The controller starts in the initial state. |
| `TreeExpansion.ExpandedController.SetExpanded` | lib/ui/src/components/sidebar/useExpanded.ts:62-75 | Dispatching a batch replaces the state with the reduction of the old state. |
| `TreeExpansion.ExpandedController.SyncSelection` | lib/ui/src/components/sidebar/useExpanded.ts:91-94 | The new state is the old one with the selected story's ancestors dispatched as true, so non-ancestor keys keep their values and no other key is added. Every ancestor maps to true, no key is lost, and no entry is set to false. With no selection nothing changes. |
| `TreeExpansion.ExpandedController.NavigateTree` | lib/ui/src/components/sidebar/useExpanded.ts:101-155 | The key is ignored when any guard fails: not browsing, no key, no container, no highlight of this tree, a repeat or modifier key, another key, a missing or foreign element, a target outside the menu, or Enter/Space on an action control. Enter/Space select only components, stories and documents. ArrowLeft collapses an expanded item. Otherwise it moves the highlight to a highlightable parent, or else collapses every descendant. ArrowRight expands a collapsed item, expands every descendant of an expanded one, and does nothing without the attribute. The state changes only by the dispatched batch. |
| `TreeExpansion.ExpandedController.UpdateExpanded` | lib/ui/src/components/sidebar/useExpanded.ts:169-175 | The batch is applied. A highlight of `ids[0]` is requested exactly when there is one id. |
| `ArgCoercion.ParseNumber` | lib/client-api/src/args.test.ts:16-19 | A string of digits parses to its value, a minus sign followed by digits to the negated value, and the empty string to zero. A string with any character other than a digit or a leading minus, and a lone minus, parse to not-a-number. |
| `ArgCoercion.NumberStringRoundTrip` | lib/client-api/src/args.test.ts:11-19 | Rendering an integer as a string and parsing it back gives the same integer. |
| `ArgCoercion.NumberThroughStringRoundTrip` | lib/client-api/src/args.test.ts:11-19 | A number coerced by a string field and then by a number field comes back unchanged. |
| `ArgCoercion.Coerce` | lib/client-api/src/args.test.ts:10-99 | A value is dropped exactly when its descriptor is a function. A string field passes strings through, renders numbers in decimal and booleans as `"true"`/`"false"`. A number field parses strings and keeps numbers. A boolean field is true exactly for the string `"true"`. An object is coerced to the record its field map gives, through the same record coercion. An array keeps its length and order, and each element is the coercion of the original element by the element descriptor. It becomes a hole when that descriptor is a function. |
| `ArgCoercion.MapArgsToTypes` | lib/client-api/src/args.test.ts:27-33 | The output keys are exactly the keys present in both the args and the schema whose type is not a function. Each output value is that field coerced by its own descriptor. |
| `ArgCoercion.CoercedConforms` | lib/client-api/src/args.test.ts:35-98 | Every coerced value conforms to its descriptor, recursively through objects and arrays. Array holes are the only exception. |
| `ArgCoercion.MapArgsToTypesConforms` | lib/client-api/src/args.test.ts:35-62 | Every field of the coerced record conforms to its schema entry. |
| `ArgCoercion.MapsStrings` | lib/client-api/src/args.test.ts:11-14 | `'str'` stays `'str'` and `42` becomes `'42'`. |
| `ArgCoercion.MapsNumbers` | lib/client-api/src/args.test.ts:16-19 | `'42'` becomes `42` and `'a'` becomes not-a-number. |
| `ArgCoercion.MapsBooleans` | lib/client-api/src/args.test.ts:21-25 | `'true'` becomes true; `'false'` and `'yes'` become false. |
| `ArgCoercion.OmitsFunctions` | lib/client-api/src/args.test.ts:27-29 | A function-typed field is omitted. |
| `ArgCoercion.OmitsUnknownKeys` | lib/client-api/src/args.test.ts:31-33 | A key the schema does not know is omitted, and so is a schema key without a value. |
| `ArgCoercion.DeeplyMapsObjects` | lib/client-api/src/args.test.ts:35-62 | The nested object example coerces to `{ key: { arr: [1, 2], obj: { bool: true } } }`. |
| `ArgCoercion.DeeplyMapsArrays` | lib/client-api/src/args.test.ts:64-98 | The array-of-objects example coerces element by element to `{ key: [{ arr: [1, 2], obj: { bool: true } }] }`. |
| `BaseGenerator.MergeOptions` | lib/cli/src/generators/baseGenerator.ts:28-56 | An option that is not supplied takes its default: empty extra lists, `addScripts`, `addComponents` and `addBabel` true, `addESLint` false. A supplied option overrides its default. Passing no options gives the defaults. |
| `BaseGenerator.MergeSuppliedRoundTrip` | lib/cli/src/generators/baseGenerator.ts:45-56 | Supplying every property gives back exactly what was supplied. |
| `BaseGenerator.Filter` | lib/cli/src/generators/baseGenerator.ts:77-80 | A filter keeps every element that passes, as often as it occurs, in its original order, and nothing else. |
| `BaseGenerator.SubsequenceTransitive` | lib/cli/src/generators/baseGenerator.ts:70-80 | An order-preserving subsequence of an order-preserving subsequence is one of the original. |
| `BaseGenerator.PackagesToInstall` | lib/cli/src/generators/baseGenerator.ts:67-80 | The candidates (`Candidates`, the array literal at lines 70-76) are the framework package, addon packages, extra packages, extra addons and yarn 2 dependencies. The packages are an order-preserving subsequence of them. A candidate is kept exactly when it is non-empty and its package name is not already a dependency, with every occurrence kept. |
| `BaseGenerator.Yarn2OnlyUnderYarn2` | lib/cli/src/generators/baseGenerator.ts:64-76 | `@storybook/addon-docs` and `@mdx-js/react` are candidates only under yarn 2, unless some other part of the list already names them. |
| `BaseGenerator.ConfiguredAddonsAreCandidates` | lib/cli/src/generators/baseGenerator.ts:58-84 | Every addon registered in main.js is also a candidate for installation. |

## Left out

- DOM access in `useExpanded`: `querySelector`, `getElementById`, `isAncestor`, `scrollIntoView`, `blur` and `preventDefault`. A rendered item is an `Element` value of its attributes. The container is a map from `data-item-id` to element. The two `isAncestor` checks are one boolean on the event. Blurring an action control before an arrow key is not modelled.
- The `lodash/throttle` window and the `keydown` listener lifecycle (useExpanded.ts:101, 157-158). These are timing and subscription concerns. One call of `NavigateTree` is one handled event.
- React hook mechanics (`useReducer`, `useEffect`, `useCallback` and their dependency arrays). Only the state transitions are modelled.
- The callbacks `onSelectStoryId` and `setHighlightedItemId` are not called. `NavigateTree` returns the request as a `KeyOutcome`, and `UpdateExpanded` returns the id to highlight. The highlight reference is owned elsewhere, so it is an input.
- Roots are not protected from collapse. The comment at useExpanded.ts:60-61 says they cannot be collapsed, but neither the reducer nor the handler enforces it. The model follows the code and claims nothing about it.
- lib/ui/src/components/sidebar/utils.ts is not part of this model. `AncestorIds` follows parent links through the hash, nearest first. The model cuts a parent cycle at the first repeated id. `DescendantIds` lists, in the hash's key order, the items that have the given item among their ancestors. Its third argument is read as "leave out leaves".
- lib/client-api/src/args.ts is not part of this model. Behaviour the test file does not fix is a modelling choice:
  - `String()` and `Number()` follow JavaScript on the modelled values.
  - An object descriptor applied to a non-object gives an empty object.
  - An array descriptor applied to a non-array gives an empty array.
  - An element that coerces to nothing leaves an `Undefined` hole.
  - Any other descriptor name passes the value through.
  - The `{ type: … }` wrapper around each top-level schema entry is flattened into the descriptor itself.
- ParseNumber: models numbers as integers plus not-a-number. Fractions, exponents, surrounding whitespace, a leading `+`, hexadecimal and `Infinity` parse to not-a-number in the model; JavaScript would give a number. IEEE floating point is not modelled.
- All of `baseGenerator`'s effectful calls: `retrievePackageJson`, `getVersionedPackages`, `configure`, `copyComponents`, `getBabelDependencies`, `addDependencies`, and the script and ESLint edits. These are asynchronous package-manager and file work. `getPackageDetails` is the parameter `nameOf`. The project's dependencies are a map passed in.
- MergeOptions: treats an option property explicitly set to `undefined` as absent. In the source, such a property overrides its default with `undefined`.
- app/web-components/src/server/options.ts holds a static configuration object with no logic.
