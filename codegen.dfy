/**
 * `LLVMCodeGenContext` (src/llvm_codegen.h, src/llvm_codegen.cc) as a class
 * whose fields the methods update in place, and every `generateCode` rule as a
 * method over it. Each method is proved to leave the context in exactly the
 * state that the matching function of module Lowering describes.
 */
module CodeGen {
  import opened Options
  import opened Ast
  import opened Ir
  import opened Context
  import opened Lowering

  class CodeGenContext {
    /** The shared output module (`module`). */
    var mod: Module
    /** The frame stack (`blocks_`); its top is the last element. */
    var blocks: seq<Frame>
    /** The synthesized entry function (`main_function_`), null until the driver runs. */
    var mainFunction: Option<FunctionId>
    /** The errors written to the error stream so far. */
    var diagnostics: seq<Diagnostic>

    ghost function State(): (s: CodeGenState)
      reads this
    {
      CodeGenState(blocks, mod, diagnostics)
    }

    ghost predicate Valid()
      reads this
    {
      State().Valid()
    }

    /** A context owns a fresh, empty module named "main" and no frames. */
    constructor ()
      ensures mod == Module("main", [], []) && blocks == []
      ensures mainFunction == None && diagnostics == []
      ensures Valid()
    {
      mod := Module("main", [], []);
      blocks := [];
      mainFunction := None;
      diagnostics := [];
    }

    /** `getLocals`: the bindings of the top frame and of no other. */
    function Locals(): (m: map<string, Value>)
      reads this
      requires blocks != []
      ensures m == State().Locals()
    {
      blocks[|blocks| - 1].locals
    }

    /** `getCurrentBlock`: the insertion block of the top frame. */
    function CurrentBlock(): (b: BlockId)
      reads this
      requires blocks != []
      ensures b == State().CurrentBlock()
    {
      blocks[|blocks| - 1].block
    }

    /** `getCurrentReturnValue`: the pending return value of the top frame. */
    function CurrentReturnValue(): (v: Option<Value>)
      reads this
      requires blocks != []
      ensures v == State().Top().returnValue
    {
      blocks[|blocks| - 1].returnValue
    }

    /** `pushBlock`: a fresh frame on top, with no bindings and no return value. */
    method PushBlock(b: BlockId)
      modifies this`blocks
      ensures State() == old(State()).Push(b)
      ensures blocks[..|blocks| - 1] == old(blocks)
      ensures CurrentBlock() == b && Locals() == map[] && CurrentReturnValue() == None
    {
      blocks := blocks + [Frame(b, None, map[])];
    }

    /** `popBlock`: the top frame and its bindings are discarded. */
    method PopBlock()
      requires blocks != []
      modifies this`blocks
      ensures State() == old(State()).Pop()
      ensures blocks == old(blocks[..|blocks| - 1])
    {
      blocks := blocks[..|blocks| - 1];
    }

    /** `setCurrentReturnValue`: only the top frame's return value changes. */
    method SetCurrentReturnValue(v: Option<Value>)
      requires blocks != []
      modifies this`blocks
      ensures State() == old(State()).SetReturnValue(v)
      ensures |blocks| == old(|blocks|) && blocks[..|blocks| - 1] == old(blocks[..|blocks| - 1])
      ensures CurrentReturnValue() == v
      ensures CurrentBlock() == old(CurrentBlock()) && Locals() == old(Locals())
    {
      var top := blocks[|blocks| - 1];
      blocks := blocks[..|blocks| - 1] + [top.(returnValue := v)];
    }

    /** `getLocals()[name] = v`: the top frame's map is updated in place. */
    method BindLocal(name: string, v: Value)
      requires blocks != []
      modifies this`blocks
      ensures State() == old(State()).Bind(name, v)
      ensures Locals() == old(Locals())[name := v]
    {
      var top := blocks[|blocks| - 1];
      blocks := blocks[..|blocks| - 1] + [top.(locals := top.locals[name := v])];
    }

    /** Report an error on the error stream. */
    method Report(d: Diagnostic)
      modifies this`diagnostics
      ensures diagnostics == old(diagnostics) + [d]
      ensures State() == old(State()).Report(d)
    {
      diagnostics := diagnostics + [d];
    }

    /** Create an instruction at the end of the current block; its handle is returned. */
    method Emit(i: Instr) returns (v: Value)
      requires Valid() && blocks != []
      modifies this`mod
      ensures v == old(State()).NextResult()
      ensures State() == old(State()).Emit(i)
    {
      var b := blocks[|blocks| - 1].block;
      v := InstResult(b, |mod.blocks[b].instrs|);
      mod := AppendAll(mod, b, [i]);
    }

    /** `Function::Create` in this context's module. */
    method CreateFunction(f: Function) returns (id: FunctionId)
      modifies this`mod
      ensures id == old(|mod.functions|)
      ensures State() == old(State()).DeclareFunction(f)
    {
      id := |mod.functions|;
      mod := mod.(functions := mod.functions + [f]);
    }

    /** `BasicBlock::Create` inside function `parent`. */
    method CreateBlock(parent: FunctionId, name: string) returns (b: BlockId)
      modifies this`mod
      ensures b == old(|mod.blocks|)
      ensures State() == old(State()).AddBlock(parent, name)
    {
      b := |mod.blocks|;
      mod := mod.(blocks := mod.blocks + [BasicBlock(parent, name, [])]);
    }

    /**
     * `LLVMCodeGenContext::generateCode`: an entry function "main" with no
     * parameters, its frame pushed, the root block lowered in it, a `ret`
     * without value, and the frame popped again.
     */
    method GenerateCode(root: Node, ord: ArgOrder)
      requires Valid() && root.Block?
      modifies this
      ensures State() == GenerateProgram(old(State()), root, ord).st
      ensures mainFunction == Some(GenerateProgram(old(State()), root, ord).main)
    {
      var main := CreateFunction(Function("main", VoidType, []));
      mainFunction := Some(main);
      var bblock := CreateBlock(main, "entry");
      PushBlock(bblock);
      var _ := GenerateBlock(this, root.statements, ord);
      assert CurrentBlock() == bblock;
      var _ := Emit(Ret(None));
      PopBlock();
    }
  }

  /** `Node::generateCode`, dispatched on the node's kind; the literal rules are inline. */
  method Generate(ctx: CodeGenContext, n: Node, ord: ArgOrder) returns (v: Option<Value>)
    requires ctx.Valid() && ctx.blocks != []
    modifies ctx`blocks, ctx`mod, ctx`diagnostics
    ensures ctx.State() == Lower(old(ctx.State()), n, ord).st
    ensures v == Lower(old(ctx.State()), n, ord).val
    decreases n, 1
  {
    match n
    case Integer(i) => v := Some(ConstInt(i));
    case Double(f) => v := Some(ConstFP(f));
    case Identifier(name) => v := GenerateIdentifier(ctx, name);
    case MethodCall(_, _) => v := GenerateMethodCall(ctx, n, ord);
    case BinaryOperator(_, _, _) => v := GenerateBinaryOperator(ctx, n, ord);
    case Assignment(target, rhs) => v := GenerateAssignment(ctx, target, rhs, ord);
    case Block(stmts) => v := GenerateBlock(ctx, stmts, ord);
    case ExpressionStatement(e) => v := Generate(ctx, e, ord);
    case VariableDeclaration(d) => v := GenerateVariableDeclaration(ctx, d, ord);
    case FunctionDeclaration(_, _, _, _) => v := GenerateFunctionDeclaration(ctx, n, ord);
    case ReturnStatement(_) =>
      ctx.Report(UnsupportedNode);
      v := None;
    case ExternDeclaration(_, _, _) =>
      ctx.Report(UnsupportedNode);
      v := None;
  }

  /** `Identifier::generateCode`. */
  method GenerateIdentifier(ctx: CodeGenContext, name: string) returns (v: Option<Value>)
    requires ctx.Valid() && ctx.blocks != []
    modifies ctx`mod, ctx`diagnostics
    ensures ctx.State() == LowerIdentifier(old(ctx.State()), name).st
    ensures v == LowerIdentifier(old(ctx.State()), name).val
  {
    if name !in ctx.Locals() {
      ctx.Report(UndeclaredVariable(name));
      return None;
    }
    var load := ctx.Emit(Load(ctx.Locals()[name]));
    v := Some(load);
  }

  /** `Assignment::generateCode`. */
  method GenerateAssignment(ctx: CodeGenContext, target: string, rhs: Node, ord: ArgOrder)
    returns (v: Option<Value>)
    requires ctx.Valid() && ctx.blocks != []
    modifies ctx`blocks, ctx`mod, ctx`diagnostics
    ensures ctx.State() == LowerAssignment(old(ctx.State()), target, rhs, ord).st
    ensures v == LowerAssignment(old(ctx.State()), target, rhs, ord).val
    decreases rhs, 2
  {
    if target !in ctx.Locals() {
      ctx.Report(UndeclaredVariable(target));
      return None;
    }
    var value: Option<Value>;
    var slot: Value;
    if ord.rhsBeforeSlot {
      value := Generate(ctx, rhs, ord);
      slot := ctx.Locals()[target];
    } else {
      slot := ctx.Locals()[target];
      value := Generate(ctx, rhs, ord);
    }
    var store := ctx.Emit(Store(value, slot));
    v := Some(store);
  }

  /** `MethodCall::generateCode`. */
  method GenerateMethodCall(ctx: CodeGenContext, n: Node, ord: ArgOrder) returns (v: Option<Value>)
    requires ctx.Valid() && ctx.blocks != []
    requires n.MethodCall?
    modifies ctx`blocks, ctx`mod, ctx`diagnostics
    ensures ctx.State() == LowerMethodCall(old(ctx.State()), n, ord).st
    ensures v == LowerMethodCall(old(ctx.State()), n, ord).val
    decreases n, 0
  {
    var callee := GetFunction(ctx.mod.functions, n.callee);
    if callee.None? {
      ctx.Report(NoSuchFunction(n.callee));
    }
    var args := GenerateEach(ctx, n.arguments, ord);
    var call := ctx.Emit(Call(callee, args));
    v := Some(call);
  }

  /** The argument loop of `MethodCall::generateCode`: each node in order, collecting its value. */
  method GenerateEach(ctx: CodeGenContext, ns: seq<Node>, ord: ArgOrder) returns (vals: seq<Option<Value>>)
    requires ctx.Valid() && ctx.blocks != []
    modifies ctx`blocks, ctx`mod, ctx`diagnostics
    ensures ctx.State() == LowerEach(old(ctx.State()), ns, ord).st
    ensures vals == LowerEach(old(ctx.State()), ns, ord).vals
    decreases ns, 0
  {
    ghost var st0 := ctx.State();
    vals := [];
    var i := 0;
    while i < |ns|
      invariant 0 <= i <= |ns|
      invariant st0.Valid() && st0.stack != []
      invariant ctx.State() == LowerEach(st0, ns[..i], ord).st
      invariant vals == LowerEach(st0, ns[..i], ord).vals
    {
      assert ns[..i + 1][..i] == ns[..i];
      var a := Generate(ctx, ns[i], ord);
      vals := vals + [a];
      i := i + 1;
    }
    assert ns[..i] == ns;
  }

  /** `BinaryOperator::generateCode`. */
  method GenerateBinaryOperator(ctx: CodeGenContext, n: Node, ord: ArgOrder) returns (v: Option<Value>)
    requires ctx.Valid() && ctx.blocks != []
    requires n.BinaryOperator?
    modifies ctx`blocks, ctx`mod, ctx`diagnostics
    ensures ctx.State() == LowerBinaryOperator(old(ctx.State()), n, ord).st
    ensures v == LowerBinaryOperator(old(ctx.State()), n, ord).val
    decreases n, 0
  {
    match BinOpFor(n.op)
    case None =>
      v := None;
    case Some(kind) =>
      var left: Option<Value>;
      var right: Option<Value>;
      if ord.lhsFirst {
        left := Generate(ctx, n.lhs, ord);
        right := Generate(ctx, n.rhs, ord);
      } else {
        right := Generate(ctx, n.rhs, ord);
        left := Generate(ctx, n.lhs, ord);
      }
      var op := ctx.Emit(BinOp(kind, left, right));
      v := Some(op);
  }

  /** `Block::generateCode`: the statements in order; the last one's value. */
  method GenerateBlock(ctx: CodeGenContext, stmts: seq<Node>, ord: ArgOrder) returns (v: Option<Value>)
    requires ctx.Valid() && ctx.blocks != []
    modifies ctx`blocks, ctx`mod, ctx`diagnostics
    ensures ctx.State() == LowerBlock(old(ctx.State()), stmts, ord).st
    ensures v == LowerBlock(old(ctx.State()), stmts, ord).val
    decreases stmts, 1
  {
    ghost var st0 := ctx.State();
    var last: Option<Value> := None;
    var i := 0;
    while i < |stmts|
      invariant 0 <= i <= |stmts|
      invariant ctx.State() == LowerEach(st0, stmts[..i], ord).st
      invariant last == if i == 0 then None else LowerEach(st0, stmts[..i], ord).vals[i - 1]
    {
      assert stmts[..i + 1][..i] == stmts[..i];
      last := Generate(ctx, stmts[i], ord);
      i := i + 1;
    }
    assert stmts[..i] == stmts;
    v := last;
  }

  /** `VariableDeclaration::generateCode`. */
  method GenerateVariableDeclaration(ctx: CodeGenContext, d: VarDecl, ord: ArgOrder) returns (v: Option<Value>)
    requires ctx.Valid() && ctx.blocks != []
    modifies ctx`blocks, ctx`mod, ctx`diagnostics
    ensures ctx.State() == LowerVariableDeclaration(old(ctx.State()), d, ord).st
    ensures v == LowerVariableDeclaration(old(ctx.State()), d, ord).val
    decreases d, 2
  {
    var alloc := ctx.Emit(Alloca(TypeOf(d.typeName), d.id));
    ctx.BindLocal(d.id, alloc);
    if d.initializer.Some? {
      var _ := GenerateAssignment(ctx, d.id, d.initializer.value, ord);
    }
    v := Some(alloc);
  }

  /**
   * The parameter loop of `FunctionDeclaration::generateCode`: each parameter
   * is declared as a local of the current frame and argument `i` of `fn` is
   * stored into the slot of parameter `i`.
   */
  method GenerateParameters(ctx: CodeGenContext, fn: FunctionId, ps: seq<VarDecl>, ord: ArgOrder)
    requires ctx.Valid() && ctx.blocks != []
    modifies ctx`blocks, ctx`mod, ctx`diagnostics
    ensures ctx.State() == LowerParameters(old(ctx.State()), fn, ps, ord)
    decreases ps, 0
  {
    ghost var s0 := ctx.State();
    var i := 0;
    while i < |ps|
      invariant 0 <= i <= |ps|
      invariant s0.Valid() && s0.stack != []
      invariant ctx.State() == LowerParameters(s0, fn, ps[..i], ord)
    {
      assert ps[..i + 1][..i] == ps[..i];
      var d := ps[i];
      ghost var s1 := LowerParameters(s0, fn, ps[..i], ord);
      var _ := GenerateVariableDeclaration(ctx, d, ord);
      ghost var s2 := LowerVariableDeclaration(s1, d, ord).st;
      assert ctx.State() == s2;
      assert ps[..i + 1][i] == d;
      assert LowerParameters(s0, fn, ps[..i + 1], ord) == s2.Emit(Store(Some(Argument(fn, i)), s2.Locals()[d.id]));
      var _ := ctx.Emit(Store(Some(Argument(fn, i)), ctx.Locals()[d.id]));
      i := i + 1;
    }
    assert ps[..i] == ps;
  }

  /** `FunctionDeclaration::generateCode`. */
  method GenerateFunctionDeclaration(ctx: CodeGenContext, n: Node, ord: ArgOrder) returns (v: Option<Value>)
    requires ctx.Valid() && ctx.blocks != []
    requires n.FunctionDeclaration?
    modifies ctx`blocks, ctx`mod, ctx`diagnostics
    ensures ctx.State() == LowerFunctionDeclaration(old(ctx.State()), n, ord).st
    ensures v == LowerFunctionDeclaration(old(ctx.State()), n, ord).val
    decreases n, 0
  {
    var argTypes: seq<IrType> := [];
    var i := 0;
    while i < |n.parameters|
      invariant 0 <= i <= |n.parameters|
      invariant argTypes == ParamTypes(n.parameters[..i])
    {
      argTypes := argTypes + [TypeOf(n.parameters[i].typeName)];
      i := i + 1;
    }
    assert n.parameters[..i] == n.parameters;
    var fn := ctx.CreateFunction(Function(n.fnName, TypeOf(n.returnType), argTypes));
    var bblock := ctx.CreateBlock(fn, "entry");
    ctx.PushBlock(bblock);
    GenerateParameters(ctx, fn, n.parameters, ord);
    var _ := GenerateBlock(ctx, n.body, ord);
    assert ctx.CurrentBlock() == bblock;
    var _ := ctx.Emit(Ret(ctx.CurrentReturnValue()));
    ctx.PopBlock();
    v := Some(FunctionRef(fn));
  }
}
