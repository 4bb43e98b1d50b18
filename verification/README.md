# use-store-selectors, modelled in Dafny

This project models the one lint rule of the `zustand-selectors` ESLint
plugin, `use-store-selectors`. The rule flags a zero-argument call of a
Zustand store hook (`useMyStore()`), because without a selector the component
re-renders on every change to the store. The report is withheld when the
call sits inside a call to an allow-listed testing helper. The default list
is `renderHook`, `act` and `waitFor`, and the rule's single option
`ignoreTestingFunctions` replaces it.

Files:

- `estree.dfy` (module `Estree`): the syntax-tree nodes the rule looks at.
  These are a `CallExpression` with its callee and argument count, an
  `ArrowFunctionExpression`, and every other node type.
- `js_strings.dfy` (module `JsStrings`): JavaScript's `startsWith`,
  `endsWith` and `includes` on strings as character sequences.
- `use_store_selectors.dfy` (module `UseStoreSelectors`): option
  resolution, the ancestor walk (recursive and as a `while` loop), the name
  test, the `CallExpression` visitor, and the properties of the rule.
- `scenarios.dfy` (module `Scenarios`): concrete calls with their parent
  chains.
- `wrappers.dfy` (module `Wrappers`): `Option`.

A node's parent chain is a `seq<Node>` running from the nearest parent to
the root. The end of the sequence is the point where `parent` is null, so the
walk always terminates. A report is the returned `Option<Finding>`, not a
call to `context.report`.

## Model

| member | source | states |
|---|---|---|
| UseStoreSelectors.ResolveIgnoreList | lib/rules/use-store-selectors.js:29-30 | With no options object, or one without the field, the list is `renderHook`, `act`, `waitFor`. A supplied list is used as given, including the empty list. |
| UseStoreSelectors.IsInsideTestingFunction | lib/rules/use-store-selectors.js:33-57 | The walk, with both of its clauses, is true exactly when some strict ancestor is a call whose callee is an identifier named in the list. |
| UseStoreSelectors.IsInsideTestingFunctionLoop | lib/rules/use-store-selectors.js:33-57 | The `while` loop over the parent chain gives the same answer as the recursive walk and as the direct condition. |
| UseStoreSelectors.HasTestingAncestorTail | lib/rules/use-store-selectors.js:36-53 | One step of the walk: a testing call is above a node exactly when its parent is one or it is above the parent. |
| UseStoreSelectors.ArrowClauseAddsNothing | lib/rules/use-store-selectors.js:44-51 | Removing the arrow-function clause leaves the walk's answer unchanged on every chain and list. |
| UseStoreSelectors.WalkMonotoneInList | lib/rules/use-store-selectors.js:38-49 | Enlarging the allow-list never turns a suppression off. |
| UseStoreSelectors.WalkMonotoneInAncestors | lib/rules/use-store-selectors.js:34-53 | Adding ancestors above the root of the chain never turns a suppression off. |
| UseStoreSelectors.IsStoreAccessorName | lib/rules/use-store-selectors.js:65-67 | The name test as written, `use` prefix and (`Store` contained or `Store` suffix), implies the `use` prefix and a contained `Store`. |
| UseStoreSelectors.StoreNameTestCollapses | lib/rules/use-store-selectors.js:65-67 | The test `startsWith('use')` and (`includes('Store')` or `endsWith('Store')`) is equivalent to `startsWith('use')` and `includes('Store')`. |
| UseStoreSelectors.StoreNameIsPrefixThenStore | lib/rules/use-store-selectors.js:65-67 | The name test holds exactly when the name starts with `use` and has an occurrence of `Store` starting at index 3 or later, the pattern `/^use.*Store/`. |
| JsStrings.EndsWithImpliesIncludes | lib/rules/use-store-selectors.js:67 | A string that ends with a suffix includes it. |
| UseStoreSelectors.CallExpressionVisitor | lib/rules/use-store-selectors.js:60-85 | A report is produced exactly when four things hold: the callee is an identifier, its name starts with `use` and contains `Store`, there are no arguments, and no ancestor is an allow-listed testing call. The report carries the call, message id `useSelector` and `storeName` equal to the callee's name. |
| UseStoreSelectors.Lint | lib/rules/use-store-selectors.js:28-87 | The rule as configured: `create` resolves the options and its visitor decides the call. A report is produced exactly when the callee is an identifier whose name starts with `use` and contains `Store`, there are no arguments, and no ancestor calls a helper on the resolved list. The report is message `useSelector` with `storeName` equal to the callee's name. |
| UseStoreSelectors.ArgumentsNeverReported | lib/rules/use-store-selectors.js:70 | A call with one or more arguments is never reported. |
| UseStoreSelectors.NonIdentifierCalleeNeverReported | lib/rules/use-store-selectors.js:62 | A call whose callee is not a plain identifier is never reported. |
| UseStoreSelectors.ReportsMonotoneInList | lib/rules/use-store-selectors.js:36-53 | Enlarging the allow-list can only remove reports. It never adds one or changes one. |
| UseStoreSelectors.ReportsMonotoneInAncestors | lib/rules/use-store-selectors.js:36-53 | Adding ancestors above the chain can only remove reports. It never adds one or changes one. |
| UseStoreSelectors.DefaultListSuppressesTestingHelpers | lib/rules/use-store-selectors.js:29-30 | Without a configured list, a call of `renderHook`, `act` or `waitFor` anywhere above the call suppresses the report. |
| UseStoreSelectors.EmptyListSuppressesNothing | lib/rules/use-store-selectors.js:30 | With `ignoreTestingFunctions: []`, every zero-argument call of a store-shaped identifier is reported, whatever its ancestors. |
| Scenarios.ComponentCallReported | test-plugin.js:16-23 | `useMyStore()` inside `function MyComponent()` is reported with `storeName = "useMyStore"`. |
| Scenarios.SelectorCallNotReported | lib/rules/use-store-selectors.js:70 | `useMyStore(state => state.count)` is not reported. |
| Scenarios.NonStoreNameNotReported | lib/rules/use-store-selectors.js:66-67 | `useCounter()` is not reported. |
| Scenarios.CreateCallNotReported | test-plugin.js:17 | `create(() => ({ count: 0 }))` in its declaration is not reported. With zero arguments it would still not be, because the name does not start with `use`. |
| Scenarios.MemberCallNotReported | lib/rules/use-store-selectors.js:62 | `store.useMyStore()` is not reported. |
| Scenarios.RenderHookSuppressedByDefault | lib/rules/use-store-selectors.js:44-51 | `renderHook(() => useMyStore())` is not reported with no options, or with an options object that lacks the field. |
| Scenarios.DeepActSuppressedByDefault | lib/rules/use-store-selectors.js:36-53 | `act(() => { useMyStore(); })` is suppressed. The arrow function is the third ancestor and the `act` call the fourth. |
| Scenarios.RenderHookReportedWithEmptyList | lib/rules/use-store-selectors.js:30 | With `ignoreTestingFunctions: []`, `renderHook(() => useMyStore())` is reported. |
| Scenarios.SuppliedListReplacesDefault | lib/rules/use-store-selectors.js:30 | With `ignoreTestingFunctions: ['waitFor']`, `renderHook(() => useMyStore())` is reported. The supplied list replaces the default; it does not extend it. |

## Left out

- Plugin registration and the `recommended` preset (`lib/index.js`) are static object literals with no logic.
- The smoke-test driver (`test-plugin.js`) runs the ESLint engine and prints results. Only its code snippet is used, as the scenarios `Scenarios.ComponentCallReported` and `Scenarios.CreateCallNotReported`.
- Parsing, traversal order and delivery of `context.report` belong to ESLint. A report is modelled as the returned `Option<Finding>`.
- Validation of the options against the rule's JSON schema (lib/rules/use-store-selectors.js:10-22) is done by ESLint. The model assumes the option, when present, is a list of strings.
- The message text (lib/rules/use-store-selectors.js:24) is not interpolated. Only the message id and the `storeName` datum are modelled.
- Names are sequences of characters. JavaScript's UTF-16 code units and surrogate pairs are not modelled.
- The source has no rule variant without options. A variant that never suppresses behaves like this rule with an empty list, as `UseStoreSelectors.EmptyListSuppressesNothing` states.
