/** The part of the ESTree syntax tree the rule inspects. Only two node
    types matter to it, `CallExpression` and `ArrowFunctionExpression`;
    every other node type is `OtherNode`, named by its `type` string for
    readability only. */
module Estree {

  /** The callee of a call: a plain `Identifier` carries its name; member
      access (`store.useStore()`), computed access, nested calls and every
      other expression shape are `NonIdentifier`. */
  datatype Callee = Identifier(name: string) | NonIdentifier

  /** A `CallExpression`: its callee and the length of its `arguments`. */
  datatype Call = Call(callee: Callee, argCount: nat)

  datatype Node =
    | CallExpression(call: Call)
    | ArrowFunctionExpression
    | OtherNode(kind: string)
}
