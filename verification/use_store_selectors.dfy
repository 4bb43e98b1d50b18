/** The `use-store-selectors` lint rule: a zero-argument call of a
    store-accessor hook (`useMyStore()`) is reported, because without a
    selector the component subscribes to the whole store; the report is
    withheld when the call sits inside a call to an allow-listed testing
    helper (`renderHook`, `act`, `waitFor` by default).

    The ancestors of a call are a sequence of nodes, nearest parent first and
    the tree's root last; running off the end of the sequence is reaching a
    node whose `parent` is null. */
module UseStoreSelectors {
  import opened Wrappers
  import opened JsStrings
  import opened Estree

  /** The id of the rule's one message. */
  const MessageId: string := "useSelector"

  /** The testing helpers that suppress a report when no list is configured. */
  const DefaultIgnoreTestingFunctions: seq<string> := ["renderHook", "act", "waitFor"]

  /** The rule's options object; `None` when the field is absent. */
  datatype RuleOptions = RuleOptions(ignoreTestingFunctions: Option<seq<string>>)

  /** What the rule hands to `context.report`: the offending call, the
      message id and the `storeName` datum the message template interpolates. */
  datatype Finding = Finding(node: Call, messageId: string, storeName: string)

  // ---------------------------------------------------------------------------
  // Option resolution (`create`)
  // ---------------------------------------------------------------------------

  /** The allow-list `create` settles on, from the rule's `context.options`
      array. A missing options object reads as `{}`; a missing field reads as
      the default list; a supplied list is kept as given, the empty list
      included, since an array is always truthy. */
  function ResolveIgnoreList(contextOptions: seq<RuleOptions>): (list: seq<string>)
    ensures |contextOptions| == 0 ==> list == DefaultIgnoreTestingFunctions
    ensures |contextOptions| > 0 && contextOptions[0].ignoreTestingFunctions.None? ==>
              list == DefaultIgnoreTestingFunctions
    ensures |contextOptions| > 0 && contextOptions[0].ignoreTestingFunctions.Some? ==>
              list == contextOptions[0].ignoreTestingFunctions.value
  {
    var options := if |contextOptions| > 0 then contextOptions[0] else RuleOptions(None);
    match options.ignoreTestingFunctions
    case Some(list) => list
    case None => DefaultIgnoreTestingFunctions
  }

  // ---------------------------------------------------------------------------
  // Ancestor walk (`isInsideTestingFunction`)
  // ---------------------------------------------------------------------------

  /** A node that is a call of an allow-listed testing helper by plain name. */
  predicate IsTestingCall(n: Node, list: seq<string>) {
    n.CallExpression? && n.call.callee.Identifier? && n.call.callee.name in list
  }

  /** The suppression condition stated directly: some strict ancestor is a
      call of an allow-listed testing helper. */
  ghost predicate HasTestingAncestor(ancestors: seq<Node>, list: seq<string>) {
    exists i :: 0 <= i < |ancestors| && IsTestingCall(ancestors[i], list)
  }

  /** Dropping the nearest ancestor keeps every other witness. */
  lemma HasTestingAncestorTail(ancestors: seq<Node>, list: seq<string>)
    requires |ancestors| > 0
    ensures HasTestingAncestor(ancestors, list) <==>
              IsTestingCall(ancestors[0], list) || HasTestingAncestor(ancestors[1..], list)
  {
  }

  /** The walk as written: at each ancestor, first test for a testing-helper
      call, then for an arrow function whose own parent is one, then step up.
      It answers exactly the suppression condition. */
  function IsInsideTestingFunction(ancestors: seq<Node>, list: seq<string>): (inside: bool)
    ensures inside <==> HasTestingAncestor(ancestors, list)
    decreases |ancestors|
  {
    if |ancestors| == 0 then false
    else
      var parent := ancestors[0];
      HasTestingAncestorTail(ancestors, list);
      if IsTestingCall(parent, list) then true
      else if parent.ArrowFunctionExpression? && |ancestors| > 1 && IsTestingCall(ancestors[1], list) then
        assert ancestors[1..][0] == ancestors[1];
        true
      else IsInsideTestingFunction(ancestors[1..], list)
  }

  /** The same walk as a `while` loop over the parent chain, returning as
      soon as either clause fires. */
  method IsInsideTestingFunctionLoop(ancestors: seq<Node>, list: seq<string>) returns (inside: bool)
    ensures inside <==> HasTestingAncestor(ancestors, list)
    ensures inside == IsInsideTestingFunction(ancestors, list)
  {
    var i := 0;
    while i < |ancestors|
      invariant 0 <= i <= |ancestors|
      invariant forall j :: 0 <= j < i ==> !IsTestingCall(ancestors[j], list)
    {
      var parent := ancestors[i];
      if IsTestingCall(parent, list) {
        return true;
      }
      if parent.ArrowFunctionExpression? && i + 1 < |ancestors| && IsTestingCall(ancestors[i + 1], list) {
        return true;
      }
      i := i + 1;
    }
    return false;
  }

  /** The walk with the arrow-function clause removed. */
  function WalkCallsOnly(ancestors: seq<Node>, list: seq<string>): (inside: bool)
    decreases |ancestors|
  {
    if |ancestors| == 0 then false
    else if IsTestingCall(ancestors[0], list) then true
    else WalkCallsOnly(ancestors[1..], list)
  }

  /** The arrow-function clause never changes the walk's answer: the node it
      inspects through `parent.parent` is the very next ancestor, where the
      first clause fires on the following step. */
  lemma {:induction false} ArrowClauseAddsNothing(ancestors: seq<Node>, list: seq<string>)
    ensures IsInsideTestingFunction(ancestors, list) == WalkCallsOnly(ancestors, list)
    decreases |ancestors|
  {
    if |ancestors| > 0 {
      var parent := ancestors[0];
      if IsTestingCall(parent, list) {
      } else if parent.ArrowFunctionExpression? && |ancestors| > 1 && IsTestingCall(ancestors[1], list) {
        assert ancestors[1..][0] == ancestors[1];
        assert WalkCallsOnly(ancestors[1..], list);
      } else {
        ArrowClauseAddsNothing(ancestors[1..], list);
      }
    }
  }

  /** Enlarging the allow-list can only turn a suppression on, never off. */
  lemma WalkMonotoneInList(ancestors: seq<Node>, list: seq<string>, larger: seq<string>)
    requires forall n :: n in list ==> n in larger
    ensures IsInsideTestingFunction(ancestors, list) ==> IsInsideTestingFunction(ancestors, larger)
  {
  }

  /** Adding ancestors above the root of the chain can only turn a
      suppression on, never off. */
  lemma {:induction false} WalkMonotoneInAncestors(ancestors: seq<Node>, above: seq<Node>, list: seq<string>)
    ensures IsInsideTestingFunction(ancestors, list) ==> IsInsideTestingFunction(ancestors + above, list)
    decreases |ancestors|
  {
    if |ancestors| > 0 && !IsTestingCall(ancestors[0], list) {
      assert (ancestors + above)[1..] == ancestors[1..] + above;
      WalkMonotoneInAncestors(ancestors[1..], above, list);
    }
  }

  // ---------------------------------------------------------------------------
  // Name heuristic and the `CallExpression` visitor
  // ---------------------------------------------------------------------------

  /** The store-accessor name test as written: starts with `use`, and
      contains or ends with `Store`. */
  function IsStoreAccessorName(name: string): (accessor: bool)
    ensures accessor ==> StartsWith(name, "use") && Includes(name, "Store")
  {
    var accessor := StartsWith(name, "use") && (Includes(name, "Store") || EndsWith(name, "Store"));
    if EndsWith(name, "Store") then
      EndsWithImpliesIncludes(name, "Store");
      accessor
    else accessor
  }

  /** The ends-with test adds nothing: it implies the contains test. */
  lemma StoreNameTestCollapses(name: string)
    ensures IsStoreAccessorName(name) <==> StartsWith(name, "use") && Includes(name, "Store")
  {
    if EndsWith(name, "Store") {
      EndsWithImpliesIncludes(name, "Store");
    }
  }

  /** The name test is the pattern `/^use.*Store/`: `use` at the front and an
      occurrence of `Store` that begins after it. No occurrence of `Store` can
      overlap the prefix, because `S` is none of `u`, `s`, `e`. */
  lemma StoreNameIsPrefixThenStore(name: string)
    ensures IsStoreAccessorName(name) <==>
              StartsWith(name, "use") && exists i | 3 <= i <= |name| - 5 :: OccursAt(name, "Store", i)
  {
    StoreNameTestCollapses(name);
    if IsStoreAccessorName(name) {
      var i :| 0 <= i <= |name| - 5 && OccursAt(name, "Store", i);
      assert name[i] == name[i..i + 5][0] == 'S';
      assert name[..3] == "use";
      assert 3 <= i <= |name| - 5 && OccursAt(name, "Store", i);
    }
  }

  /** The `CallExpression` visitor. A call is reported exactly when its callee
      is a plain identifier whose name starts with `use` and contains `Store`,
      it has no arguments, and no ancestor is a call of an allow-listed
      testing helper; the report names the callee as `storeName`. */
  function CallExpressionVisitor(node: Call, ancestors: seq<Node>, list: seq<string>): (report: Option<Finding>)
    ensures report.Some? <==>
              && node.callee.Identifier?
              && StartsWith(node.callee.name, "use")
              && Includes(node.callee.name, "Store")
              && node.argCount == 0
              && !HasTestingAncestor(ancestors, list)
    ensures report.Some? ==> report.value.node == node
    ensures report.Some? ==> report.value.messageId == "useSelector"
    ensures report.Some? ==> node.callee.Identifier? && report.value.storeName == node.callee.name
  {
    match node.callee
    case Identifier(functionName) =>
      StoreNameTestCollapses(functionName);
      if IsStoreAccessorName(functionName) && node.argCount == 0 then
        if IsInsideTestingFunction(ancestors, list) then None
        else Some(Finding(node, MessageId, functionName))
      else None
    case NonIdentifier => None
  }

  /** The rule as configured and run: `create` resolves the options, then its
      visitor decides one call. */
  function Lint(contextOptions: seq<RuleOptions>, node: Call, ancestors: seq<Node>): (report: Option<Finding>)
    ensures report.Some? <==>
              && node.callee.Identifier?
              && StartsWith(node.callee.name, "use")
              && Includes(node.callee.name, "Store")
              && node.argCount == 0
              && !HasTestingAncestor(ancestors, ResolveIgnoreList(contextOptions))
    ensures report.Some? ==>
              node.callee.Identifier? && report == Some(Finding(node, "useSelector", node.callee.name))
  {
    CallExpressionVisitor(node, ancestors, ResolveIgnoreList(contextOptions))
  }

  // ---------------------------------------------------------------------------
  // Properties of the rule
  // ---------------------------------------------------------------------------

  /** A call given any argument is never reported, whatever its name and
      ancestors. */
  lemma ArgumentsNeverReported(node: Call, ancestors: seq<Node>, list: seq<string>)
    requires node.argCount > 0
    ensures CallExpressionVisitor(node, ancestors, list) == None
  {
  }

  /** A call through member access, computed access or any other callee
      shape is never reported. */
  lemma NonIdentifierCalleeNeverReported(node: Call, ancestors: seq<Node>, list: seq<string>)
    requires node.callee.NonIdentifier?
    ensures CallExpressionVisitor(node, ancestors, list) == None
  {
  }

  /** Enlarging the allow-list can only remove reports. */
  lemma ReportsMonotoneInList(node: Call, ancestors: seq<Node>, list: seq<string>, larger: seq<string>)
    requires forall n :: n in list ==> n in larger
    ensures CallExpressionVisitor(node, ancestors, larger).Some? ==>
              CallExpressionVisitor(node, ancestors, list) == CallExpressionVisitor(node, ancestors, larger)
  {
  }

  /** Adding ancestors above the existing chain can only remove reports. */
  lemma ReportsMonotoneInAncestors(node: Call, ancestors: seq<Node>, above: seq<Node>, list: seq<string>)
    ensures CallExpressionVisitor(node, ancestors + above, list).Some? ==>
              CallExpressionVisitor(node, ancestors, list) == CallExpressionVisitor(node, ancestors + above, list)
  {
    WalkMonotoneInAncestors(ancestors, above, list);
  }

  /** With no options, or an options object without the field, a call of
      `renderHook`, `act` or `waitFor` anywhere above suppresses the report. */
  lemma DefaultListSuppressesTestingHelpers(contextOptions: seq<RuleOptions>, node: Call, ancestors: seq<Node>, i: nat)
    requires |contextOptions| == 0 || contextOptions[0].ignoreTestingFunctions.None?
    requires i < |ancestors| && ancestors[i].CallExpression? && ancestors[i].call.callee.Identifier?
    requires ancestors[i].call.callee.name in {"renderHook", "act", "waitFor"}
    ensures Lint(contextOptions, node, ancestors) == None
  {
  }

  /** With an empty list configured nothing is suppressed: every
      zero-argument call of a store-accessor name is reported. */
  lemma EmptyListSuppressesNothing(contextOptions: seq<RuleOptions>, node: Call, ancestors: seq<Node>)
    requires |contextOptions| > 0 && contextOptions[0].ignoreTestingFunctions == Some([])
    ensures Lint(contextOptions, node, ancestors).Some? <==>
              node.callee.Identifier? && IsStoreAccessorName(node.callee.name) && node.argCount == 0
  {
  }
}
