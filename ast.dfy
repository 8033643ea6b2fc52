/** The syntax tree the parser builds and the interpreter walks. */
module Ast {
  import opened Wrappers
  import JavaLang
  import Lexer

  /** A declared parameter: its name and the name of its type. */
  datatype Argument = Argument(name: string, typeName: string)

  /** One `if` or `else if` arm: its condition and its block. */
  datatype Branch = Branch(cond: Node, body: Node)

  datatype Node =
    | IntegerNode(value: JavaLang.int32)
    | StringNode(text: string)
    | VariableDeclarationNode(id: string, typeName: string, init: Node)
    | VariableAccessNode(id: string)
    | FunctionDeclarationNode(id: string, args: seq<Argument>, body: Node)
    | FunctionCallNode(toCall: string, callArgs: seq<Node>)
    | MathNode(left: Node, right: Node, operation: Lexer.TokenType)
    | NegationNode(acting: Node, operation: Lexer.TokenType)
    | BlockNode(exprs: seq<Node>)
    | IfNode(conditions: seq<Branch>, otherwise: Option<Node>)
    | ForNode(condition: Node, body: Node)
}
