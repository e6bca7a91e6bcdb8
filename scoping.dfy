/**
 * Flat scoping: every rule sees the top frame of the stack only. Replacing all
 * frames below the top by any others changes nothing in what a node lowers to:
 * the same instructions, the same errors, the same value, and the same top
 * frame afterwards. In particular a function body cannot see the locals of the
 * code around its declaration.
 */
module Scoping {
  import opened Options
  import opened Ast
  import opened Ir
  import opened Context
  import opened Lowering

  /** Replacing the frames below the top keeps a state valid as long as the module only grows. */
  lemma RebaseValid(st: CodeGenState, st2: CodeGenState, below: seq<Frame>)
    requires Advances(st, st2)
    requires Rebase(st, below).Valid()
    ensures Rebase(st2, below).Valid()
  {
    forall i | 0 <= i < |below|
      ensures below[i].block < |st2.mod.blocks|
    {
      assert Rebase(st, below).stack[i] == below[i];
    }
    assert Rebase(st2, below).stack[|below|] == st2.Top();
  }

  /** Emitting into a rebased state is emitting and then rebasing: both use the top frame's block. */
  lemma RebaseEmit(st: CodeGenState, below: seq<Frame>, i: Instr)
    requires st.Valid() && st.stack != [] && Rebase(st, below).Valid()
    ensures Rebase(st, below).NextResult() == st.NextResult()
    ensures Rebase(st, below).Emit(i) == Rebase(st.Emit(i), below)
  {
    assert Rebase(st, below).CurrentBlock() == st.CurrentBlock();
  }

  lemma {:induction false} LowerTopFrameOnly(st: CodeGenState, below: seq<Frame>, n: Node, ord: ArgOrder)
    requires st.Valid() && st.stack != [] && Rebase(st, below).Valid()
    ensures var r := Lower(st, n, ord);
            Lower(Rebase(st, below), n, ord) == Lowered(Rebase(r.st, below), r.val)
    decreases n, 1
  {
    var rb := Rebase(st, below);
    match n
    case Integer(_) =>
    case Double(_) =>
    case Identifier(name) =>
      assert Lower(rb, n, ord) == LowerIdentifier(rb, name);
      IdentifierTopFrameOnly(st, below, name);
    case MethodCall(_, _) =>
      assert Lower(rb, n, ord) == LowerMethodCall(rb, n, ord);
      MethodCallTopFrameOnly(st, below, n, ord);
    case BinaryOperator(_, _, _) =>
      assert Lower(rb, n, ord) == LowerBinaryOperator(rb, n, ord);
      BinaryOperatorTopFrameOnly(st, below, n, ord);
    case Assignment(target, rhs) =>
      assert Lower(rb, n, ord) == LowerAssignment(rb, target, rhs, ord);
      AssignmentTopFrameOnly(st, below, target, rhs, ord);
    case Block(stmts) =>
      assert Lower(rb, n, ord) == LowerBlock(rb, stmts, ord);
      BlockTopFrameOnly(st, below, stmts, ord);
    case ExpressionStatement(e) =>
      assert Lower(rb, n, ord) == Lower(rb, e, ord);
      LowerTopFrameOnly(st, below, e, ord);
    case VariableDeclaration(d) =>
      assert Lower(rb, n, ord) == LowerVariableDeclaration(rb, d, ord);
      VariableDeclarationTopFrameOnly(st, below, d, ord);
    case FunctionDeclaration(_, _, _, _) =>
      assert Lower(rb, n, ord) == LowerFunctionDeclaration(rb, n, ord);
      FunctionDeclarationTopFrameOnly(st, below, n, ord);
    case ReturnStatement(_) =>
    case ExternDeclaration(_, _, _) =>
  }

  lemma IdentifierTopFrameOnly(st: CodeGenState, below: seq<Frame>, name: string)
    requires st.Valid() && st.stack != [] && Rebase(st, below).Valid()
    ensures var r := LowerIdentifier(st, name);
            LowerIdentifier(Rebase(st, below), name) == Lowered(Rebase(r.st, below), r.val)
  {
    if name in st.Locals() {
      RebaseEmit(st, below, Load(st.Locals()[name]));
    }
  }

  lemma {:induction false} AssignmentTopFrameOnly(
    st: CodeGenState, below: seq<Frame>, target: string, rhs: Node, ord: ArgOrder)
    requires st.Valid() && st.stack != [] && Rebase(st, below).Valid()
    ensures var r := LowerAssignment(st, target, rhs, ord);
            LowerAssignment(Rebase(st, below), target, rhs, ord) == Lowered(Rebase(r.st, below), r.val)
    decreases rhs, 2
  {
    if target in st.Locals() {
      LowerTopFrameOnly(st, below, rhs, ord);
      var q := Lower(st, rhs, ord);
      RebaseValid(st, q.st, below);
      assert Rebase(q.st, below).Locals() == q.st.Locals();
      var slot := if ord.rhsBeforeSlot then q.st.Locals()[target] else st.Locals()[target];
      RebaseEmit(q.st, below, Store(q.val, slot));
    }
  }

  lemma {:induction false} MethodCallTopFrameOnly(st: CodeGenState, below: seq<Frame>, n: Node, ord: ArgOrder)
    requires st.Valid() && st.stack != [] && Rebase(st, below).Valid()
    requires n.MethodCall?
    ensures var r := LowerMethodCall(st, n, ord);
            LowerMethodCall(Rebase(st, below), n, ord) == Lowered(Rebase(r.st, below), r.val)
    decreases n, 0
  {
    var fn := GetFunction(st.mod.functions, n.callee);
    var st1 := if fn.None? then st.Report(NoSuchFunction(n.callee)) else st;
    assert Rebase(st1, below) == if fn.None? then Rebase(st, below).Report(NoSuchFunction(n.callee)) else Rebase(st, below);
    EachTopFrameOnly(st1, below, n.arguments, ord);
    var a := LowerEach(st1, n.arguments, ord);
    RebaseValid(st1, a.st, below);
    RebaseEmit(a.st, below, Call(fn, a.vals));
  }

  lemma {:induction false} BinaryOperatorTopFrameOnly(st: CodeGenState, below: seq<Frame>, n: Node, ord: ArgOrder)
    requires st.Valid() && st.stack != [] && Rebase(st, below).Valid()
    requires n.BinaryOperator?
    ensures var r := LowerBinaryOperator(st, n, ord);
            LowerBinaryOperator(Rebase(st, below), n, ord) == Lowered(Rebase(r.st, below), r.val)
    decreases n, 0
  {
    if BinOpFor(n.op).Some? {
      var first, second := if ord.lhsFirst then n.lhs else n.rhs, if ord.lhsFirst then n.rhs else n.lhs;
      LowerTopFrameOnly(st, below, first, ord);
      var a := Lower(st, first, ord);
      RebaseValid(st, a.st, below);
      LowerTopFrameOnly(a.st, below, second, ord);
      var b := Lower(a.st, second, ord);
      RebaseValid(a.st, b.st, below);
    }
  }

  lemma {:induction false} EachTopFrameOnly(st: CodeGenState, below: seq<Frame>, ns: seq<Node>, ord: ArgOrder)
    requires st.Valid() && st.stack != [] && Rebase(st, below).Valid()
    ensures var r := LowerEach(st, ns, ord);
            LowerEach(Rebase(st, below), ns, ord) == LoweredList(Rebase(r.st, below), r.vals)
    decreases ns, 0
  {
    if ns != [] {
      var init := ns[..|ns| - 1];
      EachTopFrameOnly(st, below, init, ord);
      var p := LowerEach(st, init, ord);
      RebaseValid(st, p.st, below);
      LowerTopFrameOnly(p.st, below, ns[|ns| - 1], ord);
    }
  }

  lemma {:induction false} BlockTopFrameOnly(st: CodeGenState, below: seq<Frame>, stmts: seq<Node>, ord: ArgOrder)
    requires st.Valid() && st.stack != [] && Rebase(st, below).Valid()
    ensures var r := LowerBlock(st, stmts, ord);
            LowerBlock(Rebase(st, below), stmts, ord) == Lowered(Rebase(r.st, below), r.val)
    decreases stmts, 1
  {
    EachTopFrameOnly(st, below, stmts, ord);
  }

  lemma {:induction false} VariableDeclarationTopFrameOnly(
    st: CodeGenState, below: seq<Frame>, d: VarDecl, ord: ArgOrder)
    requires st.Valid() && st.stack != [] && Rebase(st, below).Valid()
    ensures var r := LowerVariableDeclaration(st, d, ord);
            LowerVariableDeclaration(Rebase(st, below), d, ord) == Lowered(Rebase(r.st, below), r.val)
    decreases d, 2
  {
    var slot := st.NextResult();
    var st1 := st.Emit(Alloca(TypeOf(d.typeName), d.id)).Bind(d.id, slot);
    var rb := Rebase(st, below);
    assert rb.Emit(Alloca(TypeOf(d.typeName), d.id)).Bind(d.id, slot) == Rebase(st1, below);
    if d.initializer.Some? {
      assert Advances(st, st1) by {
        assert st1.stack[..|st.stack| - 1] == st.stack[..|st.stack| - 1];
      }
      RebaseValid(st, st1, below);
      AssignmentTopFrameOnly(st1, below, d.id, d.initializer.value, ord);
    }
  }

  lemma {:induction false} ParametersTopFrameOnly(
    st: CodeGenState, below: seq<Frame>, fn: FunctionId, ps: seq<VarDecl>, ord: ArgOrder)
    requires st.Valid() && st.stack != [] && Rebase(st, below).Valid()
    ensures LowerParameters(Rebase(st, below), fn, ps, ord) == Rebase(LowerParameters(st, fn, ps, ord), below)
    decreases ps, 0
  {
    if ps != [] {
      var init := ps[..|ps| - 1];
      ParametersTopFrameOnly(st, below, fn, init, ord);
      var s1 := LowerParameters(st, fn, init, ord);
      RebaseValid(st, s1, below);
      var d := ps[|ps| - 1];
      VariableDeclarationTopFrameOnly(s1, below, d, ord);
      var s2 := LowerVariableDeclaration(s1, d, ord).st;
      RebaseValid(s1, s2, below);
    }
  }

  lemma {:induction false} FunctionDeclarationTopFrameOnly(
    st: CodeGenState, below: seq<Frame>, n: Node, ord: ArgOrder)
    requires st.Valid() && st.stack != [] && Rebase(st, below).Valid()
    requires n.FunctionDeclaration?
    ensures var r := LowerFunctionDeclaration(st, n, ord);
            LowerFunctionDeclaration(Rebase(st, below), n, ord) == Lowered(Rebase(r.st, below), r.val)
    decreases n, 0
  {
    var fn := |st.mod.functions|;
    var f := Function(n.fnName, TypeOf(n.returnType), ParamTypes(n.parameters));
    var s1 := Enter(st, f);
    var below2 := below + [st.Top()];
    PrologueTopFrameOnly(st, below, f);
    ParametersTopFrameOnly(s1, below2, fn, n.parameters, ord);
    var s2 := LowerParameters(s1, fn, n.parameters, ord);
    RebaseValid(s1, s2, below2);
    BlockTopFrameOnly(s2, below2, n.body, ord);
    var s3 := LowerBlock(s2, n.body, ord).st;
    RebaseValid(s2, s3, below2);
    AdvancesTransitive(s1, s2, s3);
    EpilogueTopFrameOnly(st, s1, s3, below);
  }

  /** Entering a function pushes its frame onto the enclosing one, whatever lies below. */
  lemma PrologueTopFrameOnly(st: CodeGenState, below: seq<Frame>, f: Function)
    requires st.Valid() && st.stack != [] && Rebase(st, below).Valid()
    ensures Enter(Rebase(st, below), f) == Rebase(Enter(st, f), below + [st.Top()])
    ensures Rebase(Enter(st, f), below + [st.Top()]).Valid()
  {
    var rb := Rebase(st, below);
    var s1 := Enter(st, f);
    var below2 := below + [st.Top()];
    assert Enter(rb, f) == Rebase(s1, below2);
    forall i | 0 <= i < |Rebase(s1, below2).stack|
      ensures Rebase(s1, below2).stack[i].block < |s1.mod.blocks|
    {
      if i < |below| {
        assert Rebase(s1, below2).stack[i] == rb.stack[i];
      }
    }
  }

  /** Leaving a function pops its frame, uncovering the enclosing one, whatever lies below. */
  lemma EpilogueTopFrameOnly(st: CodeGenState, s1: CodeGenState, s3: CodeGenState, below: seq<Frame>)
    requires st.stack != [] && s1.stack != [] && s1.stack == st.stack + [s1.Top()]
    requires Advances(s1, s3)
    requires Rebase(s3, below + [st.Top()]).Valid()
    ensures var below2 := below + [st.Top()];
            var s4 := s3.Emit(Ret(s3.Top().returnValue));
            Rebase(s3, below2).Emit(Ret(s3.Top().returnValue)).Pop() == Rebase(s4.Pop(), below)
  {
    var below2 := below + [st.Top()];
    var s4 := s3.Emit(Ret(s3.Top().returnValue));
    assert s1.stack[..|s1.stack| - 1] == st.stack;
    assert s4.Pop().stack == st.stack;
    assert Rebase(s3, below2).Emit(Ret(s3.Top().returnValue)).Pop().stack == below2;
  }

  /**
   * A function body is lowered in a fresh frame: it starts with no bindings,
   * and the errors of the whole declaration are those of its parameters and body.
   */
  lemma FunctionBodyInFreshFrame(st: CodeGenState, n: Node, ord: ArgOrder)
    requires st.Valid() && st.stack != []
    requires n.FunctionDeclaration?
    ensures var fn := |st.mod.functions|;
            var s1 := Enter(st, Function(n.fnName, TypeOf(n.returnType), ParamTypes(n.parameters)));
            && s1.Valid() && s1.stack != [] && s1.Locals() == map[] && s1.diags == st.diags
            && LowerFunctionDeclaration(st, n, ord).st.diags
               == LowerBlock(LowerParameters(s1, fn, n.parameters, ord), n.body, ord).st.diags
  {
  }

  /** A block whose one statement reads a name the top frame does not bind only reports that name. */
  lemma UnboundReadReports(st: CodeGenState, x: string, ord: ArgOrder)
    requires st.Valid() && st.stack != []
    requires x !in st.Locals()
    ensures LowerBlock(st, [ExpressionStatement(Identifier(x))], ord).st == st.Report(UndeclaredVariable(x))
  {
    var body := [ExpressionStatement(Identifier(x))];
    assert body[..0] == [];
    assert LowerEach(st, [], ord) == LoweredList(st, []);
    assert Lower(st, body[0], ord) == Lower(st, Identifier(x), ord);
  }

  /**
   * Flat scoping seen from a declaration's body: a name bound only in the
   * enclosing frame is reported as undeclared when the body reads it.
   */
  lemma OuterLocalInvisibleInFunction(st: CodeGenState, x: string, ord: ArgOrder)
    requires st.Valid() && st.stack != []
    requires x in st.Locals()
    ensures var r := LowerFunctionDeclaration(st, FunctionDeclaration("int", "f", [], [ExpressionStatement(Identifier(x))]), ord);
            r.st.diags == st.diags + [UndeclaredVariable(x)]
  {
    var body := [ExpressionStatement(Identifier(x))];
    var n := FunctionDeclaration("int", "f", [], body);
    FunctionBodyInFreshFrame(st, n, ord);
    var fn := |st.mod.functions|;
    var s1 := Enter(st, Function("f", Int64Type, ParamTypes([])));
    assert LowerParameters(s1, fn, [], ord) == s1;
    UnboundReadReports(s1, x, ord);
  }
}
