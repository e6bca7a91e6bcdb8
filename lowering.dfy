/**
 * What every `generateCode` rule of src/llvm_codegen.cc does to the code
 * generation state, as functions on `CodeGenState`, and the properties of the
 * lowering proved about them. The methods of module CodeGen are proved to
 * change the state of an `LLVMCodeGenContext` exactly as these functions say.
 */
module Lowering {
  import opened Options
  import opened Ast
  import opened Ir
  import opened Context

  /** `typeOf`: "int" and "double" are the only type names; any other name silently means void. */
  function TypeOf(typeName: string): (t: IrType)
    ensures t == Int64Type <==> typeName == "int"
    ensures t == DoubleType <==> typeName == "double"
    ensures t == VoidType <==> typeName != "int" && typeName != "double"
  {
    if typeName == "int" then Int64Type
    else if typeName == "double" then DoubleType
    else VoidType
  }

  /** The `switch` of `BinaryOperator::generateCode`: the instruction for an operator code, if any. */
  function BinOpFor(op: int): (k: Option<BinOpKind>)
    ensures k == Some(Add) <==> op == TOK_PLUS
    ensures k == Some(Sub) <==> op == TOK_MINUS
    ensures k == Some(Mul) <==> op == TOK_MUL
    ensures k == Some(SDiv) <==> op == TOK_DIV
    ensures k == None <==> op != TOK_PLUS && op != TOK_MINUS && op != TOK_MUL && op != TOK_DIV
  {
    if op == TOK_PLUS then Some(Add)
    else if op == TOK_MINUS then Some(Sub)
    else if op == TOK_MUL then Some(Mul)
    else if op == TOK_DIV then Some(SDiv)
    else None
  }

  /** The types of a parameter list, in order. */
  function ParamTypes(ps: seq<VarDecl>): (ts: seq<IrType>)
    ensures |ts| == |ps|
    ensures forall i :: 0 <= i < |ps| ==> ts[i] == TypeOf(ps[i].typeName)
  {
    seq(|ps|, i requires 0 <= i < |ps| => TypeOf(ps[i].typeName))
  }

  /**
   * C++ leaves the evaluation order of a call's arguments unspecified. Two
   * calls in the lowering have two arguments that both touch the state: the
   * `BinaryOperator::Create` of a binary operator (which operand is lowered
   * first) and the `StoreInst` of an assignment (whether the right-hand side is
   * lowered before the slot is looked up). The compiler's choice at each is a
   * parameter of the model.
   */
  datatype ArgOrder = ArgOrder(lhsFirst: bool, rhsBeforeSlot: bool)

  /** The state after lowering a node, and the node's value (`None` is `nullptr`). */
  datatype Lowered = Lowered(st: CodeGenState, val: Option<Value>)

  /** The state after lowering a list of nodes in order, and their values. */
  datatype LoweredList = LoweredList(st: CodeGenState, vals: seq<Option<Value>>)

  /** The outcome of the driver: the final state and the entry function's handle. */
  datatype ProgramLowered = ProgramLowered(st: CodeGenState, main: FunctionId)

  /**
   * `st2` can follow `st` by lowering: the stack has the same depth, every
   * frame below the top is untouched, the top keeps its block and return value
   * and only gains or rebinds names, and the module and the error list are only
   * appended to; of the blocks that existed, only the current one gains
   * instructions.
   */
  ghost predicate Advances(st: CodeGenState, st2: CodeGenState)
  {
    && st.stack != []
    && st2.Valid()
    && |st2.stack| == |st.stack|
    && st2.stack[..|st.stack| - 1] == st.stack[..|st.stack| - 1]
    && st2.Top().block == st.Top().block
    && st2.Top().returnValue == st.Top().returnValue
    && st.Locals().Keys <= st2.Locals().Keys
    && Extends(st.mod, st2.mod)
    && (forall b :: 0 <= b < |st.mod.blocks| && b != st.CurrentBlock() ==> st2.mod.blocks[b] == st.mod.blocks[b])
    && st.diags <= st2.diags
  }

  lemma AdvancesTransitive(s1: CodeGenState, s2: CodeGenState, s3: CodeGenState)
    requires Advances(s1, s2) && Advances(s2, s3)
    ensures Advances(s1, s3)
  {
    ExtendsTransitive(s1.mod, s2.mod, s3.mod);
    assert s1.stack[..|s1.stack| - 1] == s2.stack[..|s1.stack| - 1];
  }

  /** Appending one instruction to the current block advances the state. */
  lemma EmitAdvances(st: CodeGenState, i: Instr)
    requires st.Valid() && st.stack != []
    ensures Advances(st, st.Emit(i))
  {
    var s2 := st.Emit(i);
    assert s2.stack == st.stack;
    forall b | 0 <= b < |st.mod.blocks|
      ensures BlockExtends(st.mod.blocks[b], s2.mod.blocks[b])
    {
    }
  }

  /** `Node::generateCode` dispatched on the node's kind. */
  function Lower(st: CodeGenState, n: Node, ord: ArgOrder): (r: Lowered)
    requires st.Valid() && st.stack != []
    ensures Advances(st, r.st)
    decreases n, 1
  {
    match n
    case Integer(v) => Lowered(st, Some(ConstInt(v)))
    case Double(f) => Lowered(st, Some(ConstFP(f)))
    case Identifier(name) => LowerIdentifier(st, name)
    case MethodCall(_, _) => LowerMethodCall(st, n, ord)
    case BinaryOperator(_, _, _) => LowerBinaryOperator(st, n, ord)
    case Assignment(target, rhs) => LowerAssignment(st, target, rhs, ord)
    case Block(stmts) => LowerBlock(st, stmts, ord)
    case ExpressionStatement(e) => Lower(st, e, ord)
    case VariableDeclaration(d) => LowerVariableDeclaration(st, d, ord)
    case FunctionDeclaration(_, _, _, _) => LowerFunctionDeclaration(st, n, ord)
    case ReturnStatement(_) => Lowered(st.Report(UnsupportedNode), None)
    case ExternDeclaration(_, _, _) => Lowered(st.Report(UnsupportedNode), None)
  }

  /** `Identifier::generateCode`. */
  function LowerIdentifier(st: CodeGenState, name: string): (r: Lowered)
    requires st.Valid() && st.stack != []
    ensures Advances(st, r.st)
  {
    if name !in st.Locals() then Lowered(st.Report(UndeclaredVariable(name)), None)
    else Lowered(st.Emit(Load(st.Locals()[name])), Some(st.NextResult()))
  }

  /** `Assignment::generateCode`. */
  function LowerAssignment(st: CodeGenState, target: string, rhs: Node, ord: ArgOrder): (r: Lowered)
    requires st.Valid() && st.stack != []
    ensures Advances(st, r.st)
    decreases rhs, 2
  {
    if target !in st.Locals() then Lowered(st.Report(UndeclaredVariable(target)), None)
    else if ord.rhsBeforeSlot then
      var q := Lower(st, rhs, ord);
      Lowered(q.st.Emit(Store(q.val, q.st.Locals()[target])), Some(q.st.NextResult()))
    else
      var slot := st.Locals()[target];
      var q := Lower(st, rhs, ord);
      Lowered(q.st.Emit(Store(q.val, slot)), Some(q.st.NextResult()))
  }

  /** `MethodCall::generateCode`. */
  function LowerMethodCall(st: CodeGenState, n: Node, ord: ArgOrder): (r: Lowered)
    requires st.Valid() && st.stack != []
    requires n.MethodCall?
    ensures Advances(st, r.st)
    decreases n, 0
  {
    var fn := GetFunction(st.mod.functions, n.callee);
    var st1 := if fn.None? then st.Report(NoSuchFunction(n.callee)) else st;
    var a := LowerEach(st1, n.arguments, ord);
    Lowered(a.st.Emit(Call(fn, a.vals)), Some(a.st.NextResult()))
  }

  /** `BinaryOperator::generateCode`. */
  function LowerBinaryOperator(st: CodeGenState, n: Node, ord: ArgOrder): (r: Lowered)
    requires st.Valid() && st.stack != []
    requires n.BinaryOperator?
    ensures Advances(st, r.st)
    decreases n, 0
  {
    match BinOpFor(n.op)
    case None => Lowered(st, None)
    case Some(kind) =>
      if ord.lhsFirst then
        var a := Lower(st, n.lhs, ord);
        var b := Lower(a.st, n.rhs, ord);
        AdvancesTransitive(st, a.st, b.st);
        Lowered(b.st.Emit(BinOp(kind, a.val, b.val)), Some(b.st.NextResult()))
      else
        var b := Lower(st, n.rhs, ord);
        var a := Lower(b.st, n.lhs, ord);
        AdvancesTransitive(st, b.st, a.st);
        Lowered(a.st.Emit(BinOp(kind, a.val, b.val)), Some(a.st.NextResult()))
  }

  /** Lower the nodes of `ns` one after the other, collecting their values. */
  function LowerEach(st: CodeGenState, ns: seq<Node>, ord: ArgOrder): (r: LoweredList)
    requires st.Valid() && st.stack != []
    ensures Advances(st, r.st)
    ensures |r.vals| == |ns|
    decreases ns, 0
  {
    if ns == [] then LoweredList(st, [])
    else
      var p := LowerEach(st, ns[..|ns| - 1], ord);
      var q := Lower(p.st, ns[|ns| - 1], ord);
      AdvancesTransitive(st, p.st, q.st);
      LoweredList(q.st, p.vals + [q.val])
  }

  /** `Block::generateCode`: the value is the last statement's, or none for no statements. */
  function LowerBlock(st: CodeGenState, stmts: seq<Node>, ord: ArgOrder): (r: Lowered)
    requires st.Valid() && st.stack != []
    ensures Advances(st, r.st)
    decreases stmts, 1
  {
    var e := LowerEach(st, stmts, ord);
    Lowered(e.st, if stmts == [] then None else e.vals[|stmts| - 1])
  }

  /** `VariableDeclaration::generateCode`. */
  function LowerVariableDeclaration(st: CodeGenState, d: VarDecl, ord: ArgOrder): (r: Lowered)
    requires st.Valid() && st.stack != []
    ensures Advances(st, r.st)
    ensures d.id in r.st.Locals()
    decreases d, 2
  {
    var slot := st.NextResult();
    var st1 := st.Emit(Alloca(TypeOf(d.typeName), d.id)).Bind(d.id, slot);
    match d.initializer
    case None => Lowered(st1, Some(slot))
    case Some(init) =>
      var q := LowerAssignment(st1, d.id, init, ord);
      AdvancesTransitive(st, st1, q.st);
      Lowered(q.st, Some(slot))
  }

  /**
   * The parameter loop of `FunctionDeclaration::generateCode`: each parameter is
   * declared as a local and the incoming argument is stored into its slot.
   */
  function LowerParameters(st: CodeGenState, fn: FunctionId, ps: seq<VarDecl>, ord: ArgOrder): (r: CodeGenState)
    requires st.Valid() && st.stack != []
    ensures Advances(st, r)
    decreases ps, 0
  {
    if ps == [] then st
    else
      var s1 := LowerParameters(st, fn, ps[..|ps| - 1], ord);
      var d := ps[|ps| - 1];
      var s2 := LowerVariableDeclaration(s1, d, ord).st;
      AdvancesTransitive(st, s1, s2);
      var store := Store(Some(Argument(fn, |ps| - 1)), s2.Locals()[d.id]);
      EmitAdvances(s2, store);
      AdvancesTransitive(st, s2, s2.Emit(store));
      s2.Emit(store)
  }

  /** `FunctionDeclaration::generateCode`. */
  function LowerFunctionDeclaration(st: CodeGenState, n: Node, ord: ArgOrder): (r: Lowered)
    requires st.Valid() && st.stack != []
    requires n.FunctionDeclaration?
    // one push, one pop: the enclosing frames, bindings included, are exactly as before
    ensures r.st.stack == st.stack
    ensures r.st.Valid() && Extends(st.mod, r.st.mod) && st.diags <= r.st.diags
    // all of its code goes into its own blocks: every block that existed, the enclosing one included, is untouched
    ensures forall b :: 0 <= b < |st.mod.blocks| ==> r.st.mod.blocks[b] == st.mod.blocks[b]
    // the function is added to the module under its name, with its types
    ensures r.val == Some(FunctionRef(|st.mod.functions|))
    ensures |st.mod.functions| < |r.st.mod.functions|
    ensures r.st.mod.functions[|st.mod.functions|]
         == Function(n.fnName, TypeOf(n.returnType), ParamTypes(n.parameters))
    // its entry block ends with a return of the frame's return value, which nothing set
    ensures |st.mod.blocks| < |r.st.mod.blocks|
    ensures var entry := r.st.mod.blocks[|st.mod.blocks|];
            && entry.parent == |st.mod.functions| && entry.name == "entry"
            && entry.instrs != [] && entry.instrs[|entry.instrs| - 1] == Ret(None)
    decreases n, 0
  {
    var fn := |st.mod.functions|;
    var f := Function(n.fnName, TypeOf(n.returnType), ParamTypes(n.parameters));
    var s1 := Enter(st, f);
    var s2 := LowerParameters(s1, fn, n.parameters, ord);
    var s3 := LowerBlock(s2, n.body, ord).st;
    AdvancesTransitive(s1, s2, s3);
    Leave(st, f, s3, s3.Top().returnValue);
    Lowered(s3.Emit(Ret(s3.Top().returnValue)).Pop(), Some(FunctionRef(fn)))
  }

  /** `LLVMCodeGenContext::generateCode`: the driver around the root block. */
  function GenerateProgram(st: CodeGenState, root: Node, ord: ArgOrder): (r: ProgramLowered)
    requires st.Valid()
    requires root.Block?
    ensures r.st.stack == st.stack
    ensures r.st.Valid() && Extends(st.mod, r.st.mod) && st.diags <= r.st.diags
    ensures forall b :: 0 <= b < |st.mod.blocks| ==> r.st.mod.blocks[b] == st.mod.blocks[b]
    ensures r.main == |st.mod.functions| < |r.st.mod.functions|
    ensures r.st.mod.functions[r.main] == Function("main", VoidType, [])
    ensures |st.mod.blocks| < |r.st.mod.blocks|
    ensures var entry := r.st.mod.blocks[|st.mod.blocks|];
            && entry.parent == r.main && entry.name == "entry"
            && entry.instrs != [] && entry.instrs[|entry.instrs| - 1] == Ret(None)
  {
    var f := Function("main", VoidType, []);
    var s1 := Enter(st, f);
    var s2 := LowerBlock(s1, root.statements, ord).st;
    Leave(st, f, s2, None);
    ProgramLowered(s2.Emit(Ret(None)).Pop(), |st.mod.functions|)
  }

  /**
   * The prologue of a function's lowering: `Function::Create` appends the
   * function, `BasicBlock::Create` appends its empty "entry" block, and
   * `pushBlock` opens a frame on that block with no bindings.
   */
  function Enter(st: CodeGenState, f: Function): (s: CodeGenState)
    requires st.Valid()
    ensures s.Valid() && s.stack != [] && s.stack[..|s.stack| - 1] == st.stack
    ensures s.Top() == Frame(|st.mod.blocks|, None, map[])
    ensures s.mod == Module(st.mod.name, st.mod.functions + [f],
                            st.mod.blocks + [BasicBlock(|st.mod.functions|, "entry", [])])
    ensures s.diags == st.diags
  {
    st.DeclareFunction(f).AddBlock(|st.mod.functions|, "entry").Push(|st.mod.blocks|)
  }

  /**
   * The epilogue: from any state that lowering reached inside the frame
   * `Enter` opened, a `ret` in the entry block and the pop give back the
   * caller's stack, with every block that existed before untouched and the
   * function's entry block ending in that `ret`.
   */
  lemma Leave(st: CodeGenState, f: Function, s: CodeGenState, x: Option<Value>)
    requires st.Valid()
    requires Advances(Enter(st, f), s)
    ensures var r := s.Emit(Ret(x)).Pop();
            && r.stack == st.stack && r.Valid() && Extends(st.mod, r.mod) && st.diags <= r.diags
            && (forall b :: 0 <= b < |st.mod.blocks| ==> r.mod.blocks[b] == st.mod.blocks[b])
            && |st.mod.functions| < |r.mod.functions| && r.mod.functions[|st.mod.functions|] == f
            && |st.mod.blocks| < |r.mod.blocks|
            && var entry := r.mod.blocks[|st.mod.blocks|];
               && entry.parent == |st.mod.functions| && entry.name == "entry"
               && entry.instrs != [] && entry.instrs[|entry.instrs| - 1] == Ret(x)
  {
    var s1 := Enter(st, f);
    var entry := |st.mod.blocks|;
    var s4 := s.Emit(Ret(x));
    EmitAdvances(s, Ret(x));
    AdvancesTransitive(s1, s, s4);
    assert s4.stack[..|s4.stack| - 1] == st.stack;
    assert Extends(st.mod, s1.mod);
    ExtendsTransitive(st.mod, s1.mod, s4.mod);
    assert s1.mod.functions <= s4.mod.functions;
    assert s4.mod.functions[|st.mod.functions|] == s1.mod.functions[|st.mod.functions|];
    assert s.CurrentBlock() == entry;
    assert s4.mod.blocks[entry].instrs == s.mod.blocks[entry].instrs + [Ret(x)];
    forall b | 0 <= b < |st.mod.blocks|
      ensures s4.mod.blocks[b] == st.mod.blocks[b]
    {
      assert s1.mod.blocks[b] == st.mod.blocks[b];
    }
  }
}
