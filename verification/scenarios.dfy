/** Concrete calls and parent chains, as ESLint would hand them to the rule. */
module Scenarios {
  import opened Wrappers
  import opened JsStrings
  import opened Estree
  import opened UseStoreSelectors

  /** `useMyStore()` with no arguments. */
  const BareStoreCall: Call := Call(Identifier("useMyStore"), 0)

  /** `renderHook(() => useMyStore())` as a parent of its arrow argument. */
  const RenderHookCall: Node := CallExpression(Call(Identifier("renderHook"), 1))

  /** `const store = useMyStore();` in the body of `function MyComponent()`. */
  const InComponent: seq<Node> := [
    OtherNode("VariableDeclarator"), OtherNode("VariableDeclaration"),
    OtherNode("BlockStatement"), OtherNode("FunctionDeclaration"), OtherNode("Program")
  ]

  /** `renderHook(() => useMyStore());` at the top level of a test file. */
  const InRenderHook: seq<Node> := [
    ArrowFunctionExpression, RenderHookCall, OtherNode("ExpressionStatement"), OtherNode("Program")
  ]

  /** `act(() => { useMyStore(); });`: the arrow function is the third
      ancestor and the `act` call the fourth. */
  const DeepInAct: seq<Node> := [
    OtherNode("ExpressionStatement"), OtherNode("BlockStatement"), ArrowFunctionExpression,
    CallExpression(Call(Identifier("act"), 1)), OtherNode("ExpressionStatement"), OtherNode("Program")
  ]

  /** The component in the plugin's smoke test is reported with
      `storeName = "useMyStore"`. */
  lemma ComponentCallReported()
    ensures Lint([], BareStoreCall, InComponent) == Some(Finding(BareStoreCall, "useSelector", "useMyStore"))
  {
  }

  /** Passing a selector silences the rule. */
  lemma SelectorCallNotReported()
    ensures Lint([], Call(Identifier("useMyStore"), 1), InComponent) == None
  {
  }

  /** `useCounter()` is not store-shaped: it has no `S` at all. */
  lemma NonStoreNameNotReported()
    ensures Lint([], Call(Identifier("useCounter"), 0), InComponent) == None
  {
    if Includes("useCounter", "Store") {
      IncludesFirstChar("useCounter", "Store");
      assert false;
    }
  }

  /** `const useMyStore = create(() => ({ count: 0 }));` at the top level. */
  const InStoreDeclaration: seq<Node> := [
    OtherNode("VariableDeclarator"), OtherNode("VariableDeclaration"), OtherNode("Program")
  ]

  /** The snippet's `create(...)` call is not reported; the name test alone
      rejects `create`, since it does not start with `use`, even with no
      arguments. */
  lemma CreateCallNotReported()
    ensures Lint([], Call(Identifier("create"), 1), InStoreDeclaration) == None
    ensures Lint([], Call(Identifier("create"), 0), InStoreDeclaration) == None
  {
    assert "create"[..3][0] != "use"[0];
  }

  /** `store.useMyStore()`: a member-access callee is never reported. */
  lemma MemberCallNotReported()
    ensures Lint([], Call(NonIdentifier, 0), InComponent) == None
  {
  }

  /** By default, a call inside `renderHook(() => ...)` is suppressed. */
  lemma RenderHookSuppressedByDefault()
    ensures Lint([], BareStoreCall, InRenderHook) == None
    ensures Lint([RuleOptions(None)], BareStoreCall, InRenderHook) == None
  {
  }

  /** A call nested in a block inside the arrow argument of `act` is
      suppressed; `DefaultListSuppressesTestingHelpers` states the general
      fact for a helper at any depth. */
  lemma DeepActSuppressedByDefault()
    ensures Lint([], BareStoreCall, DeepInAct) == None
  {
  }

  /** With `ignoreTestingFunctions: []` the same `renderHook` call is
      reported. */
  lemma RenderHookReportedWithEmptyList()
    ensures Lint([RuleOptions(Some([]))], BareStoreCall, InRenderHook)
              == Some(Finding(BareStoreCall, "useSelector", "useMyStore"))
  {
  }

  /** A supplied list replaces the default rather than extending it:
      `["waitFor"]` no longer covers `renderHook`. */
  lemma SuppliedListReplacesDefault()
    ensures Lint([RuleOptions(Some(["waitFor"]))], BareStoreCall, InRenderHook).Some?
  {
  }
}
