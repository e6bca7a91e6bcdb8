/**
 * Per-rule behaviour of the lowering: for each node kind, exactly which
 * instructions are appended to the current block, which errors are reported,
 * which bindings change, and what value comes back.
 */
module LoweringRules {
  import opened Options
  import opened Ast
  import opened Ir
  import opened Context
  import opened Lowering

  /** A literal lowers to a constant of its own type and changes nothing. */
  lemma LiteralRule(st: CodeGenState, v: Int64, f: Float64, ord: ArgOrder)
    requires st.Valid() && st.stack != []
    ensures Lower(st, Integer(v), ord) == Lowered(st, Some(ConstInt(v)))
    ensures Lower(st, Double(f), ord) == Lowered(st, Some(ConstFP(f)))
  {
  }

  /**
   * A name is looked up in the top frame: absent, the error is reported and
   * nothing is appended; present, exactly one load from its slot is appended.
   */
  lemma IdentifierRule(st: CodeGenState, name: string, ord: ArgOrder)
    requires st.Valid() && st.stack != []
    ensures var r := Lower(st, Identifier(name), ord);
            && (name !in st.Locals() ==>
                  r.st == st.Report(UndeclaredVariable(name)) && r.val == None)
            && (name in st.Locals() ==>
                  && r.st.stack == st.stack && r.st.diags == st.diags
                  && r.st.mod == AppendAll(st.mod, st.CurrentBlock(), [Load(st.Locals()[name])])
                  && r.val == Some(InstResult(st.CurrentBlock(), |st.mod.blocks[st.CurrentBlock()].instrs|)))
  {
  }

  /**
   * An assignment to an undeclared name reports it and does not lower the
   * right-hand side at all; otherwise the right-hand side is lowered and one
   * store into the name's slot follows its code.
   */
  lemma AssignmentRule(st: CodeGenState, x: string, rhs: Node, ord: ArgOrder)
    requires st.Valid() && st.stack != []
    ensures var r := Lower(st, Assignment(x, rhs), ord);
            && (x !in st.Locals() ==> r == Lowered(st.Report(UndeclaredVariable(x)), None))
            && (x in st.Locals() ==>
                  var q := Lower(st, rhs, ord);
                  var slot := if ord.rhsBeforeSlot then q.st.Locals()[x] else st.Locals()[x];
                  && r.st.stack == q.st.stack && r.st.diags == q.st.diags
                  && r.st.mod == AppendAll(q.st.mod, st.CurrentBlock(), [Store(q.val, slot)])
                  && r.val == Some(InstResult(st.CurrentBlock(), |q.st.mod.blocks[st.CurrentBlock()].instrs|)))
  {
  }

  /**
   * An operator code outside the four tokens yields no value and lowers
   * neither operand; a recognised one lowers both operands (in the order the
   * compiler chose) and appends one instruction of the matching kind over them.
   */
  lemma BinaryOperatorRule(st: CodeGenState, op: int, lhs: Node, rhs: Node, ord: ArgOrder)
    requires st.Valid() && st.stack != []
    ensures var r := Lower(st, BinaryOperator(op, lhs, rhs), ord);
            && (BinOpFor(op).None? ==> r == Lowered(st, None))
            && (BinOpFor(op).Some? ==>
                  var first := Lower(st, if ord.lhsFirst then lhs else rhs, ord);
                  var second := Lower(first.st, if ord.lhsFirst then rhs else lhs, ord);
                  var lv := if ord.lhsFirst then first.val else second.val;
                  var rv := if ord.lhsFirst then second.val else first.val;
                  && r.st.stack == second.st.stack && r.st.diags == second.st.diags
                  && r.st.mod == AppendAll(second.st.mod, st.CurrentBlock(), [BinOp(BinOpFor(op).value, lv, rv)])
                  && r.val == Some(InstResult(st.CurrentBlock(), |second.st.mod.blocks[st.CurrentBlock()].instrs|)))
  {
  }

  predicate IsLiteral(n: Node)
  {
    n.Integer? || n.Double?
  }

  /** A node without children: a literal or a name. */
  predicate IsLeaf(n: Node)
  {
    n.Integer? || n.Double? || n.Identifier?
  }

  /**
   * With a literal on one side and a literal or a name on the other, the
   * unspecified order in which the two operands are lowered cannot be observed.
   */
  lemma OperandOrderUnobservableWithLiteral(
    st: CodeGenState, op: int, lhs: Node, rhs: Node, o1: ArgOrder, o2: ArgOrder)
    requires st.Valid() && st.stack != []
    requires (IsLiteral(lhs) && IsLeaf(rhs)) || (IsLeaf(lhs) && IsLiteral(rhs))
    ensures Lower(st, BinaryOperator(op, lhs, rhs), o1) == Lower(st, BinaryOperator(op, lhs, rhs), o2)
  {
    BinaryOperatorRule(st, op, lhs, rhs, o1);
    BinaryOperatorRule(st, op, lhs, rhs, o2);
    if BinOpFor(op).Some? {
      var lit, other := if IsLiteral(lhs) then lhs else rhs, if IsLiteral(lhs) then rhs else lhs;
      LeafRule(st, lit, o1, o2);
      LeafRule(st, other, o1, o2);
      var o := Lower(st, other, o1);
      LeafRule(o.st, lit, o1, o2);
    }
  }

  /** A leaf lowers the same under every order; a literal changes nothing. */
  lemma LeafRule(st: CodeGenState, n: Node, o1: ArgOrder, o2: ArgOrder)
    requires st.Valid() && st.stack != []
    requires IsLeaf(n)
    ensures Lower(st, n, o1) == Lower(st, n, o2)
    ensures IsLiteral(n) ==> Lower(st, n, o1).st == st
  {
  }

  /** With a name on each side, the two orders append the two loads in opposite orders. */
  lemma OperandOrderObservableWithTwoNames(st: CodeGenState, x: string, y: string, o1: ArgOrder, o2: ArgOrder)
    requires st.Valid() && st.stack != []
    requires x in st.Locals() && y in st.Locals() && st.Locals()[x] != st.Locals()[y]
    requires o1.lhsFirst && !o2.lhsFirst
    ensures Lower(st, BinaryOperator(TOK_PLUS, Identifier(x), Identifier(y)), o1).st
         != Lower(st, BinaryOperator(TOK_PLUS, Identifier(x), Identifier(y)), o2).st
  {
    var b := st.CurrentBlock();
    var k := |st.mod.blocks[b].instrs|;
    BinaryOperatorRule(st, TOK_PLUS, Identifier(x), Identifier(y), o1);
    BinaryOperatorRule(st, TOK_PLUS, Identifier(x), Identifier(y), o2);
    IdentifierRule(st, x, o1);
    IdentifierRule(st, y, o2);
    var fx := Lower(st, Identifier(x), o1);
    var fy := Lower(st, Identifier(y), o2);
    IdentifierRule(fx.st, y, o1);
    IdentifierRule(fy.st, x, o2);
    var r1 := Lower(st, BinaryOperator(TOK_PLUS, Identifier(x), Identifier(y)), o1);
    var r2 := Lower(st, BinaryOperator(TOK_PLUS, Identifier(x), Identifier(y)), o2);
    assert r1.st.mod.blocks[b].instrs[k] == Load(st.Locals()[x]);
    assert r2.st.mod.blocks[b].instrs[k] == Load(st.Locals()[y]);
  }

  /**
   * A call looks the callee up among the functions declared so far, reports it
   * if absent and goes on regardless: its arguments are lowered in order and
   * one call instruction over their values is appended.
   */
  lemma MethodCallRule(st: CodeGenState, callee: string, args: seq<Node>, ord: ArgOrder)
    requires st.Valid() && st.stack != []
    ensures var r := Lower(st, MethodCall(callee, args), ord);
            var fn := GetFunction(st.mod.functions, callee);
            var reported := if fn.None? then st.Report(NoSuchFunction(callee)) else st;
            var a := LowerEach(reported, args, ord);
            && (fn.Some? <==> exists i :: 0 <= i < |st.mod.functions| && st.mod.functions[i].name == callee)
            && r.st.stack == a.st.stack && r.st.diags == a.st.diags
            && r.st.mod == AppendAll(a.st.mod, st.CurrentBlock(), [Call(fn, a.vals)])
            && r.val == Some(InstResult(st.CurrentBlock(), |a.st.mod.blocks[st.CurrentBlock()].instrs|))
            && |a.vals| == |args|
  {
  }

  /** The `i`-th value of a list is that of its `i`-th node, lowered after the ones before it. */
  lemma {:induction false} LowerEachInOrder(st: CodeGenState, ns: seq<Node>, i: nat, ord: ArgOrder)
    requires st.Valid() && st.stack != []
    requires i < |ns|
    ensures var p := LowerEach(st, ns[..i], ord);
            LowerEach(st, ns[..i + 1], ord) == LoweredList(Lower(p.st, ns[i], ord).st, p.vals + [Lower(p.st, ns[i], ord).val])
  {
    assert ns[..i + 1][..i] == ns[..i];
  }

  /** Lowering `a + b` is lowering `a`, then `b` from where `a` left off. */
  lemma {:induction false} LowerEachConcat(st: CodeGenState, a: seq<Node>, b: seq<Node>, ord: ArgOrder)
    requires st.Valid() && st.stack != []
    ensures var p := LowerEach(st, a, ord);
            var q := LowerEach(p.st, b, ord);
            LowerEach(st, a + b, ord) == LoweredList(q.st, p.vals + q.vals)
    decreases |b|
  {
    if b == [] {
      assert a + b == a;
    } else {
      var b' := b[..|b| - 1];
      assert (a + b)[..|a + b| - 1] == a + b';
      assert (a + b)[|a + b| - 1] == b[|b| - 1];
      LowerEachConcat(st, a, b', ord);
      var p := LowerEach(st, a, ord);
      var q' := LowerEach(p.st, b', ord);
      assert p.vals + q'.vals + [Lower(q'.st, b[|b| - 1], ord).val]
          == p.vals + (q'.vals + [Lower(q'.st, b[|b| - 1], ord).val]);
    }
  }

  /** The value of `vals` at `i` after lowering a list is the `i`-th node's value. */
  lemma {:induction false} LowerEachValue(st: CodeGenState, ns: seq<Node>, i: nat, ord: ArgOrder)
    requires st.Valid() && st.stack != []
    requires i < |ns|
    ensures LowerEach(st, ns, ord).vals[i] == Lower(LowerEach(st, ns[..i], ord).st, ns[i], ord).val
  {
    LowerEachConcat(st, ns[..i + 1], ns[i + 1..], ord);
    assert ns[..i + 1] + ns[i + 1..] == ns;
    LowerEachInOrder(st, ns, i, ord);
  }

  /**
   * A block lowers its statements in order; its value is the last statement's,
   * and a block without statements changes nothing and has no value.
   */
  lemma BlockRule(st: CodeGenState, stmts: seq<Node>, ord: ArgOrder)
    requires st.Valid() && st.stack != []
    ensures var r := Lower(st, Block(stmts), ord);
            && (stmts == [] ==> r == Lowered(st, None))
            && (stmts != [] ==>
                  var k := |stmts| - 1;
                  r == Lower(LowerEach(st, stmts[..k], ord).st, stmts[k], ord))
  {
    assert Lower(st, Block(stmts), ord) == LowerBlock(st, stmts, ord);
    if stmts == [] {
      assert LowerEach(st, stmts, ord) == LoweredList(st, []);
    }
    if stmts != [] {
      var k := |stmts| - 1;
      assert stmts[..|stmts| - 1] == stmts[..k];
      var e := LowerEach(st, stmts, ord);
      assert e.vals[k] == Lower(LowerEach(st, stmts[..k], ord).st, stmts[k], ord).val;
    }
  }

  /** The state right after a declaration's alloca is appended and its name bound to it. */
  function Declared(st: CodeGenState, d: VarDecl): (s: CodeGenState)
    requires st.Valid() && st.stack != []
  {
    st.Emit(Alloca(TypeOf(d.typeName), d.id)).Bind(d.id, st.NextResult())
  }

  /**
   * A declaration appends one alloca of the declared type, binds the name to
   * it in the top frame (replacing any earlier binding) and returns it; without
   * an initializer nothing else happens.
   */
  lemma VariableDeclarationRule(st: CodeGenState, d: VarDecl, ord: ArgOrder)
    requires st.Valid() && st.stack != []
    ensures var r := Lower(st, VariableDeclaration(d), ord);
            var b := st.CurrentBlock();
            var slot := InstResult(b, |st.mod.blocks[b].instrs|);
            var bound := Declared(st, d);
            && r.val == Some(slot)
            && bound.mod == AppendAll(st.mod, b, [Alloca(TypeOf(d.typeName), d.id)])
            && bound.Locals() == st.Locals()[d.id := slot]
            && bound.stack[..|st.stack| - 1] == st.stack[..|st.stack| - 1]
            && bound.Top().block == b
            && bound.diags == st.diags
            && (d.initializer.None? ==> r.st == bound)
  {
    var bound := Declared(st, d);
    assert bound.Locals() == st.Locals()[d.id := st.NextResult()];
    assert bound.stack[..|st.stack| - 1] == st.stack[..|st.stack| - 1];
  }

  /**
   * A declaration's initializer is stored into the new slot by an assignment
   * whose lookup always succeeds, so it reports no error of its own.
   */
  lemma VariableDeclarationInitializer(st: CodeGenState, d: VarDecl, ord: ArgOrder)
    requires st.Valid() && st.stack != []
    requires d.initializer.Some?
    ensures var r := Lower(st, VariableDeclaration(d), ord);
            var b := st.CurrentBlock();
            var bound := Declared(st, d);
            var q := Lower(bound, d.initializer.value, ord);
            var target := if ord.rhsBeforeSlot then q.st.Locals()[d.id] else st.NextResult();
            && r.st.diags == q.st.diags
            && r.st.stack == q.st.stack
            && r.st.mod == AppendAll(q.st.mod, b, [Store(q.val, target)])
  {
    var bound := Declared(st, d);
    assert d.id in bound.Locals() && bound.Locals()[d.id] == st.NextResult();
    assert bound.CurrentBlock() == st.CurrentBlock();
    AssignmentRule(bound, d.id, d.initializer.value, ord);
  }

  /** Every parameter name is bound in the top frame once the parameter loop has run. */
  lemma {:induction false} ParametersBound(st: CodeGenState, fn: FunctionId, ps: seq<VarDecl>, ord: ArgOrder)
    requires st.Valid() && st.stack != []
    ensures forall i :: 0 <= i < |ps| ==> ps[i].id in LowerParameters(st, fn, ps, ord).Locals()
    decreases |ps|
  {
    if ps != [] {
      var init := ps[..|ps| - 1];
      ParametersBound(st, fn, init, ord);
      var s1 := LowerParameters(st, fn, init, ord);
      var d := ps[|ps| - 1];
      var s2 := LowerVariableDeclaration(s1, d, ord).st;
      var r := LowerParameters(st, fn, ps, ord);
      assert r == s2.Emit(Store(Some(Argument(fn, |ps| - 1)), s2.Locals()[d.id]));
      assert r.Locals() == s2.Locals();
      forall i | 0 <= i < |ps|
        ensures ps[i].id in r.Locals()
      {
        if i < |ps| - 1 {
          assert init[i] == ps[i];
        }
      }
    }
  }

  /**
   * The code the parameter loop appends for parameters without initializers,
   * starting at position `k0` of block `b`: for the `i`-th parameter, an alloca
   * of its type, then a store of the `i`-th incoming argument into that alloca.
   */
  function ParameterCode(fn: FunctionId, ps: seq<VarDecl>, b: BlockId, k0: nat): (code: seq<Instr>)
    ensures |code| == 2 * |ps|
    decreases |ps|
  {
    if ps == [] then []
    else
      var i := |ps| - 1;
      ParameterCode(fn, ps[..i], b, k0)
        + [Alloca(TypeOf(ps[i].typeName), ps[i].id), Store(Some(Argument(fn, i)), InstResult(b, k0 + 2 * i))]
  }

  /** `locals` with each parameter bound, in order, to its alloca at position `k0 + 2 * i` of block `b`. */
  function ParameterBindings(locals: map<string, Value>, ps: seq<VarDecl>, b: BlockId, k0: nat): (m: map<string, Value>)
    decreases |ps|
  {
    if ps == [] then locals
    else
      var i := |ps| - 1;
      ParameterBindings(locals, ps[..i], b, k0)[ps[i].id := InstResult(b, k0 + 2 * i)]
  }

  /** One parameter without initializer: its alloca, its binding, and the store of its argument into the alloca. */
  lemma ParameterStep(st: CodeGenState, fn: FunctionId, ps: seq<VarDecl>, ord: ArgOrder)
    requires st.Valid() && st.stack != []
    requires ps != [] && ps[|ps| - 1].initializer.None?
    ensures var i := |ps| - 1;
            var s1 := LowerParameters(st, fn, ps[..i], ord);
            var slot := s1.NextResult();
            (LowerParameters(st, fn, ps, ord)
             == s1.Emit(Alloca(TypeOf(ps[i].typeName), ps[i].id)).Bind(ps[i].id, slot)
                  .Emit(Store(Some(Argument(fn, i)), slot)))
  {
    var i := |ps| - 1;
    var s1 := LowerParameters(st, fn, ps[..i], ord);
    var s2 := s1.Emit(Alloca(TypeOf(ps[i].typeName), ps[i].id)).Bind(ps[i].id, s1.NextResult());
    assert LowerVariableDeclaration(s1, ps[i], ord).st == s2;
  }

  /** Appending, rebinding in the top frame, and appending again, seen on the module, the bindings and the errors. */
  lemma EmitBindEmit(st: CodeGenState, a: Instr, x: string, v: Value, c: Instr)
    requires st.Valid() && st.stack != []
    ensures st.Emit(a).Bind(x, v).Valid() && st.Emit(a).Bind(x, v).stack != []
    ensures var r := st.Emit(a).Bind(x, v).Emit(c);
            && r.mod == AppendAll(st.mod, st.CurrentBlock(), [a, c])
            && r.Locals() == st.Locals()[x := v]
            && r.diags == st.diags
  {
    var s2 := st.Emit(a).Bind(x, v);
    assert s2.stack[..|s2.stack| - 1] == st.stack[..|st.stack| - 1];
    assert forall k :: 0 <= k < |s2.stack| - 1 ==> s2.stack[k] == st.stack[k];
    assert s2.Valid();
    assert s2.mod == AppendAll(st.mod, st.CurrentBlock(), [a]);
    assert s2.CurrentBlock() == st.CurrentBlock();
    AppendAllTwice(st.mod, st.CurrentBlock(), [a], [c]);
    assert [a] + [c] == [a, c];
  }

  /**
   * Parameters without initializers: the loop appends exactly their allocas and
   * argument stores to the current block, binds each name to its alloca (a
   * later parameter of the same name wins) and reports nothing.
   */
  lemma {:induction false} ParametersWithoutInitializers(st: CodeGenState, fn: FunctionId, ps: seq<VarDecl>, ord: ArgOrder)
    requires st.Valid() && st.stack != []
    requires forall i :: 0 <= i < |ps| ==> ps[i].initializer.None?
    ensures var r := LowerParameters(st, fn, ps, ord);
            var b := st.CurrentBlock();
            var k0 := |st.mod.blocks[b].instrs|;
            && r.mod == AppendAll(st.mod, b, ParameterCode(fn, ps, b, k0))
            && r.Locals() == ParameterBindings(st.Locals(), ps, b, k0)
            && r.diags == st.diags
    decreases |ps|
  {
    var b := st.CurrentBlock();
    var k0 := |st.mod.blocks[b].instrs|;
    if ps == [] {
      assert st.mod.blocks[b].instrs + [] == st.mod.blocks[b].instrs;
      assert st.mod.blocks[b := st.mod.blocks[b]] == st.mod.blocks;
    } else {
      var i := |ps| - 1;
      var init := ps[..i];
      var d := ps[i];
      ParametersWithoutInitializers(st, fn, init, ord);
      var s1 := LowerParameters(st, fn, init, ord);
      var code1 := ParameterCode(fn, init, b, k0);
      assert s1.CurrentBlock() == b;
      assert |s1.mod.blocks[b].instrs| == k0 + 2 * i;
      var slot := InstResult(b, k0 + 2 * i);
      var alloca := Alloca(TypeOf(d.typeName), d.id);
      var store := Store(Some(Argument(fn, i)), slot);
      ParameterStep(st, fn, ps, ord);
      EmitBindEmit(s1, alloca, d.id, slot, store);
      AppendAllTwice(st.mod, b, code1, [alloca, store]);
      assert code1 + [alloca, store] == ParameterCode(fn, ps, b, k0);
    }
  }

  /** The state a function declaration lowers its parameters in: the function, its entry block, its fresh frame. */
  function FunctionEntered(st: CodeGenState, n: Node): (s: CodeGenState)
    requires st.Valid() && st.stack != []
    requires n.FunctionDeclaration?
    ensures s.Valid() && s.stack != [] && s.Locals() == map[]
    ensures s.CurrentBlock() == |st.mod.blocks| && s.mod.blocks[|st.mod.blocks|].instrs == []
  {
    Enter(st, Function(n.fnName, TypeOf(n.returnType), ParamTypes(n.parameters)))
  }

  /** A function declaration is its parameters, then its body, then `ret` of the frame's return value, then the pop. */
  lemma FunctionDeclarationSteps(st: CodeGenState, n: Node, ord: ArgOrder)
    requires st.Valid() && st.stack != []
    requires n.FunctionDeclaration?
    ensures var s2 := LowerParameters(FunctionEntered(st, n), |st.mod.functions|, n.parameters, ord);
            var s3 := LowerBlock(s2, n.body, ord).st;
            LowerFunctionDeclaration(st, n, ord).st == s3.Emit(Ret(s3.Top().returnValue)).Pop()
  {
  }

  /** A function's body is lowered with every parameter bound in its frame. */
  lemma FunctionBodySeesParameters(st: CodeGenState, n: Node, ord: ArgOrder)
    requires st.Valid() && st.stack != []
    requires n.FunctionDeclaration?
    ensures var s2 := LowerParameters(FunctionEntered(st, n), |st.mod.functions|, n.parameters, ord);
            && LowerFunctionDeclaration(st, n, ord).st.diags == LowerBlock(s2, n.body, ord).st.diags
            && forall i :: 0 <= i < |n.parameters| ==> n.parameters[i].id in s2.Locals()
  {
    FunctionDeclarationSteps(st, n, ord);
    ParametersBound(FunctionEntered(st, n), |st.mod.functions|, n.parameters, ord);
  }

  /**
   * When no parameter has an initializer, a function's entry block begins with
   * the allocas and argument stores of its parameters, in order.
   */
  lemma FunctionEntryBeginsWithParameters(st: CodeGenState, n: Node, ord: ArgOrder)
    requires st.Valid() && st.stack != []
    requires n.FunctionDeclaration?
    requires forall i :: 0 <= i < |n.parameters| ==> n.parameters[i].initializer.None?
    ensures var entry := |st.mod.blocks|;
            ParameterCode(|st.mod.functions|, n.parameters, entry, 0)
              <= LowerFunctionDeclaration(st, n, ord).st.mod.blocks[entry].instrs
  {
    var fn := |st.mod.functions|;
    var entry := |st.mod.blocks|;
    var s1 := FunctionEntered(st, n);
    var s2 := LowerParameters(s1, fn, n.parameters, ord);
    var s3 := LowerBlock(s2, n.body, ord).st;
    var s4 := s3.Emit(Ret(s3.Top().returnValue));
    FunctionDeclarationSteps(st, n, ord);
    ParametersWithoutInitializers(s1, fn, n.parameters, ord);
    var code := ParameterCode(fn, n.parameters, entry, 0);
    assert s2.mod.blocks[entry].instrs == [] + code;
    assert BlockExtends(s2.mod.blocks[entry], s3.mod.blocks[entry]);
    assert s3.mod.blocks[entry].instrs <= s4.mod.blocks[entry].instrs;
  }

  /** Declare-then-read: reading a just-declared name loads from the slot the declaration allocated. */
  lemma DeclareThenRead(st: CodeGenState, t: string, x: string, ord: ArgOrder)
    requires st.Valid() && st.stack != []
    ensures var d := Lower(st, VariableDeclaration(VarDecl(t, x, None)), ord);
            var r := Lower(d.st, Identifier(x), ord);
            var b := st.CurrentBlock();
            var k := |st.mod.blocks[b].instrs|;
            && d.val == Some(InstResult(b, k))
            && r.val == Some(InstResult(b, k + 1))
            && r.st.mod == AppendAll(st.mod, b, [Alloca(TypeOf(t), x), Load(InstResult(b, k))])
            && r.st.diags == st.diags
            && r.st.Locals() == st.Locals()[x := InstResult(b, k)]
  {
    var b := st.CurrentBlock();
    var k := |st.mod.blocks[b].instrs|;
    var d := Lower(st, VariableDeclaration(VarDecl(t, x, None)), ord);
    VariableDeclarationRule(st, VarDecl(t, x, None), ord);
    assert d.st == Declared(st, VarDecl(t, x, None));
    IdentifierRule(d.st, x, ord);
    assert d.st.Locals()[x] == InstResult(b, k);
    assert st.mod.blocks[b].instrs + [Alloca(TypeOf(t), x)] + [Load(InstResult(b, k))]
        == st.mod.blocks[b].instrs + [Alloca(TypeOf(t), x), Load(InstResult(b, k))];
  }

  /** Unimplemented node kinds are refused: reported, nothing appended, no value. */
  lemma UnsupportedRule(st: CodeGenState, n: Node, ord: ArgOrder)
    requires st.Valid() && st.stack != []
    requires n.ReturnStatement? || n.ExternDeclaration?
    ensures Lower(st, n, ord) == Lowered(st.Report(UnsupportedNode), None)
  {
  }
}
