/**
 * The node taxonomy of the language (src/nodes.h).
 *
 * Every concrete node struct becomes one constructor of `Node`. Where a node
 * holds an `Identifier` only to read its `name` (the callee of a call, the
 * target of an assignment, the type and name of a declaration) the field is
 * that name. A `Block` that a function declaration owns is kept as its list of
 * statements.
 */
module Ast {
  import opened Options

  /** `long long`: a 64-bit signed integer. */
  type Int64 = x: int | -0x8000_0000_0000_0000 <= x < 0x8000_0000_0000_0000

  /** A `double` literal, kept as its 64 raw bits: the lowering never computes with it. */
  datatype Float64 = Float64(bits: bv64)

  /**
   * Token codes of the four arithmetic operators. Their numeric values come
   * from the parser's generated header, which is not part of this model; the
   * model only relies on their being distinct.
   */
  const TOK_PLUS: int := 258
  const TOK_MINUS: int := 259
  const TOK_MUL: int := 260
  const TOK_DIV: int := 261

  /** Every node kind of the tree; expressions and statements share one type. */
  datatype Node =
    | Integer(intValue: Int64)
    | Double(doubleValue: Float64)
    | Identifier(name: string)
    | MethodCall(callee: string, arguments: seq<Node>)
      /** `op` is a raw `int`: codes other than the four tokens are representable. */
    | BinaryOperator(op: int, lhs: Node, rhs: Node)
    | Assignment(target: string, rhs: Node)
    | Block(statements: seq<Node>)
    | ExpressionStatement(expression: Node)
    | ReturnStatement(returned: Node)
    | VariableDeclaration(decl: VarDecl)
    | ExternDeclaration(externType: string, externName: string, externArgs: seq<VarDecl>)
      /** `body` is the statement list of the function's `Block`. */
    | FunctionDeclaration(returnType: string, fnName: string, parameters: seq<VarDecl>, body: seq<Node>)

  /** The fields of a `VariableDeclaration`; `initializer == None` is a null `assignmentExpression`. */
  datatype VarDecl = VarDecl(typeName: string, id: string, initializer: Option<Node>)

  /** The two-argument `VariableDeclaration` constructor: no initializer. */
  function NewVariableDeclaration(typeName: string, id: string): (n: Node)
    ensures n.VariableDeclaration?
    ensures n.decl.typeName == typeName && n.decl.id == id && n.decl.initializer == None
  {
    VariableDeclaration(VarDecl(typeName, id, None))
  }

  /** The three-argument `VariableDeclaration` constructor: the given (possibly null) initializer. */
  function NewInitializedVariableDeclaration(typeName: string, id: string, init: Option<Node>): (n: Node)
    ensures n.VariableDeclaration?
    ensures n.decl.typeName == typeName && n.decl.id == id && n.decl.initializer == init
  {
    VariableDeclaration(VarDecl(typeName, id, init))
  }

  /** The one-argument `MethodCall` constructor: an empty argument list. */
  function NewMethodCall(callee: string): (n: Node)
    ensures n.MethodCall? && n.callee == callee && n.arguments == []
  {
    MethodCall(callee, [])
  }

  /** The two-argument `MethodCall` constructor: a copy of the given argument list. */
  function NewMethodCallWithArguments(callee: string, arguments: seq<Node>): (n: Node)
    ensures n.MethodCall? && n.callee == callee && n.arguments == arguments
  {
    MethodCall(callee, arguments)
  }

  /** A default-constructed `Block`: no statements. */
  function NewBlock(): (n: Node)
    ensures n.Block? && |n.statements| == 0
  {
    Block([])
  }
}
