/**
 * Whole-program consequences of the lowering rules: the module is shared
 * between declarations and calls, and the exact code the driver produces for
 * two small programs.
 */
module Scenarios {
  import opened Options
  import opened Ast
  import opened Ir
  import opened Context
  import opened Lowering
  import opened LoweringRules

  /** The state of a freshly constructed context: an empty module "main", no frames, no errors. */
  const Fresh := CodeGenState([], Module("main", [], []), [])

  /** A call to a function name that no function has yet reports it as missing. */
  lemma UndeclaredCallReports(st: CodeGenState, callee: string, args: seq<Node>, ord: ArgOrder)
    requires st.Valid() && st.stack != []
    requires forall j :: 0 <= j < |st.mod.functions| ==> st.mod.functions[j].name != callee
    ensures st.diags + [NoSuchFunction(callee)] <= Lower(st, MethodCall(callee, args), ord).st.diags
  {
    var none := st.Report(NoSuchFunction(callee));
    assert Lower(st, MethodCall(callee, args), ord).st.diags == LowerEach(none, args, ord).st.diags;
  }

  /**
   * After the declaration of a function whose name no function had yet has
   * been lowered, a call of that name finds the new function, reports nothing
   * of its own and calls it.
   */
  lemma DeclaredFunctionIsCallable(st: CodeGenState, n: Node, args: seq<Node>, ord: ArgOrder)
    requires st.Valid() && st.stack != []
    requires n.FunctionDeclaration?
    requires forall j :: 0 <= j < |st.mod.functions| ==> st.mod.functions[j].name != n.fnName
    ensures var d := Lower(st, n, ord);
            var a := LowerEach(d.st, args, ord);
            var c := Lower(d.st, MethodCall(n.fnName, args), ord);
            && GetFunction(d.st.mod.functions, n.fnName) == Some(|st.mod.functions|)
            && c.st.diags == a.st.diags
            && c.st.mod == AppendAll(a.st.mod, st.CurrentBlock(), [Call(Some(|st.mod.functions|), a.vals)])
  {
    var k := |st.mod.functions|;
    var d := Lower(st, n, ord);
    var fs := d.st.mod.functions;
    assert fs[k].name == n.fnName;
    assert forall j :: 0 <= j < k ==> fs[j].name != n.fnName by {
      assert st.mod.functions <= fs;
    }
    assert GetFunction(fs, n.fnName) == Some(k);
    assert d.st.CurrentBlock() == st.CurrentBlock();
    MethodCallRule(d.st, n.fnName, args, ord);
  }

  /** The state just after the driver has declared "main", added its entry block and pushed its frame. */
  function MainEntered(st: CodeGenState): (s: CodeGenState)
    requires st.Valid()
    ensures s.Valid() && s.stack != []
    ensures s.CurrentBlock() == |st.mod.blocks| && s.Locals() == map[]
    ensures s.diags == st.diags
  {
    Enter(st, Function("main", VoidType, []))
  }

  /**
   * The driver lowers the root's statements in "main"'s fresh frame, then
   * appends a `ret` without value to the entry block and pops the frame.
   */
  lemma {:induction false} ProgramRule(st: CodeGenState, stmts: seq<Node>, ord: ArgOrder)
    requires st.Valid()
    ensures var e := LowerEach(MainEntered(st), stmts, ord).st;
            var r := GenerateProgram(st, Block(stmts), ord);
            && r.st == e.Emit(Ret(None)).Pop()
            && r.main == |st.mod.functions|
  {
  }

  /** `y = 1;` as a whole program: the undeclared target is reported and "main" only returns. */
  lemma UndeclaredAssignmentProgram(ord: ArgOrder)
    ensures var r := GenerateProgram(Fresh, Block([ExpressionStatement(Assignment("y", Integer(1)))]), ord);
            && r.st.diags == [UndeclaredVariable("y")]
            && r.st.stack == []
            && r.st.mod == Module("main", [Function("main", VoidType, [])], [BasicBlock(0, "entry", [Ret(None)])])
  {
    var stmts := [ExpressionStatement(Assignment("y", Integer(1)))];
    var s1 := MainEntered(Fresh);
    assert s1 == Entered([], map[]);
    EnteredEmit([], map[], Ret(None));
    ProgramRule(Fresh, stmts, ord);
    assert stmts[..0] == [];
    var after := s1.Report(UndeclaredVariable("y"));
    assert LowerEach(s1, stmts, ord).st == after;
    assert after.Emit(Ret(None)).mod == Entered([], map[]).Emit(Ret(None)).mod;
    assert [] + [Ret(None)] == [Ret(None)];
  }

  /** The state inside "main"'s frame in a fresh context, with `instrs` in its entry block. */
  function Entered(instrs: seq<Instr>, locals: map<string, Value>): (s: CodeGenState)
    ensures s.Valid() && s.stack != [] && s.CurrentBlock() == 0 && s.Locals() == locals
  {
    CodeGenState([Frame(0, None, locals)], Module("main", [Function("main", VoidType, [])], [BasicBlock(0, "entry", instrs)]), [])
  }

  /** The statements of `int x = 2; int y = 3; x = x + y;`. */
  const SumStatements: seq<Node> := [
    VariableDeclaration(VarDecl("int", "x", Some(Integer(2)))),
    VariableDeclaration(VarDecl("int", "y", Some(Integer(3)))),
    ExpressionStatement(Assignment("x", BinaryOperator(TOK_PLUS, Identifier("x"), Identifier("y"))))
  ]

  lemma EnteredEmit(instrs: seq<Instr>, locals: map<string, Value>, i: Instr)
    ensures Entered(instrs, locals).NextResult() == InstResult(0, |instrs|)
    ensures Entered(instrs, locals).Emit(i) == Entered(instrs + [i], locals)
  {
    var s := Entered(instrs, locals);
    assert s.Emit(i).mod.blocks == [BasicBlock(0, "entry", instrs + [i])];
  }

  lemma EnteredBind(instrs: seq<Instr>, locals: map<string, Value>, x: string, v: Value)
    ensures Entered(instrs, locals).Bind(x, v) == Entered(instrs, locals[x := v])
  {
    assert Entered(instrs, locals).stack[..0] == [];
  }

  /** A declaration `int x = k;` in "main"'s frame: a slot for `x` and the store of `k` into it. */
  lemma DeclaresInt(instrs: seq<Instr>, locals: map<string, Value>, x: string, k: Int64, ord: ArgOrder)
    ensures var slot := InstResult(0, |instrs|);
            (Lower(Entered(instrs, locals), VariableDeclaration(VarDecl("int", x, Some(Integer(k)))), ord).st
             == Entered(instrs + [Alloca(Int64Type, x), Store(Some(ConstInt(k)), slot)], locals[x := slot]))
  {
    var s := Entered(instrs, locals);
    var slot := InstResult(0, |instrs|);
    EnteredEmit(instrs, locals, Alloca(Int64Type, x));
    EnteredBind(instrs + [Alloca(Int64Type, x)], locals, x, slot);
    var s1 := Entered(instrs + [Alloca(Int64Type, x)], locals[x := slot]);
    assert s.Emit(Alloca(TypeOf("int"), x)).Bind(x, slot) == s1;
    assert s1.Locals()[x] == slot;
    assert Lower(s1, Integer(k), ord) == Lowered(s1, Some(ConstInt(k)));
    assert LowerAssignment(s1, x, Integer(k), ord).st == s1.Emit(Store(Some(ConstInt(k)), slot));
    EnteredEmit(instrs + [Alloca(Int64Type, x)], locals[x := slot], Store(Some(ConstInt(k)), slot));
    assert instrs + [Alloca(Int64Type, x)] + [Store(Some(ConstInt(k)), slot)]
        == instrs + [Alloca(Int64Type, x), Store(Some(ConstInt(k)), slot)];
  }

  /** The instructions of `x = x + y` after the four of the two declarations. */
  function SumAddition(ord: ArgOrder): (code: seq<Instr>)
  {
    var x, y := SlotX, SlotY;
    var lx := if ord.lhsFirst then InstResult(0, 4) else InstResult(0, 5);
    var ly := if ord.lhsFirst then InstResult(0, 5) else InstResult(0, 4);
    [Load(if ord.lhsFirst then x else y), Load(if ord.lhsFirst then y else x),
     BinOp(Add, Some(lx), Some(ly)),
     Store(Some(InstResult(0, 6)), x)]
  }

  /** Reading a bound name in "main"'s frame appends one load from its slot. */
  lemma EnteredLoad(instrs: seq<Instr>, locals: map<string, Value>, name: string, ord: ArgOrder)
    requires name in locals
    ensures Lower(Entered(instrs, locals), Identifier(name), ord)
         == Lowered(Entered(instrs + [Load(locals[name])], locals), Some(InstResult(0, |instrs|)))
  {
    EnteredEmit(instrs, locals, Load(locals[name]));
  }

  /** `x + y`: two loads in the order the compiler chose, then the addition of the two loaded values. */
  lemma SumAdds(before: seq<Instr>, ord: ArgOrder)
    requires |before| == 4
    ensures var locals := map["x" := SlotX, "y" := SlotY];
            var sum := BinaryOperator(TOK_PLUS, Identifier("x"), Identifier("y"));
            Lower(Entered(before, locals), sum, ord)
            == Lowered(Entered(before + SumAddition(ord)[..3], locals), Some(InstResult(0, 6)))
  {
    var locals := map["x" := SlotX, "y" := SlotY];
    var add := SumAddition(ord);
    var i1 := before + [add[0]];
    var i2 := i1 + [add[1]];
    if ord.lhsFirst {
      EnteredLoad(before, locals, "x", ord);
      EnteredLoad(i1, locals, "y", ord);
    } else {
      EnteredLoad(before, locals, "y", ord);
      EnteredLoad(i1, locals, "x", ord);
    }
    EnteredEmit(i2, locals, add[2]);
    assert i2 + [add[2]] == before + add[..3];
  }

  /** `x = x + y;`: the addition, then the store of its result into `x`. */
  lemma SumAssigns(before: seq<Instr>, ord: ArgOrder)
    requires |before| == 4
    ensures var locals := map["x" := SlotX, "y" := SlotY];
            (Lower(Entered(before, locals), SumStatements[2], ord).st
             == Entered(before + SumAddition(ord), locals))
  {
    var locals := map["x" := SlotX, "y" := SlotY];
    var s := Entered(before, locals);
    var add := SumAddition(ord);
    var sum := BinaryOperator(TOK_PLUS, Identifier("x"), Identifier("y"));
    var i3 := before + add[..3];
    SumAdds(before, ord);
    EnteredEmit(i3, locals, add[3]);
    assert LowerAssignment(s, "x", sum, ord).st == Entered(i3, locals).Emit(add[3]);
    assert i3 + [add[3]] == before + add;
  }

  /** The slots of `x` and `y`, and the code of the two declarations. */
  const SlotX := InstResult(0, 0)
  const SlotY := InstResult(0, 2)
  const SumDeclarations: seq<Instr> :=
    [Alloca(Int64Type, "x"), Store(Some(ConstInt(2)), SlotX), Alloca(Int64Type, "y"), Store(Some(ConstInt(3)), SlotY)]

  lemma SumFirst(ord: ArgOrder)
    ensures Lower(Entered([], map[]), SumStatements[0], ord).st == Entered(SumDeclarations[..2], map["x" := SlotX])
  {
    DeclaresInt([], map[], "x", 2, ord);
    assert [] + [Alloca(Int64Type, "x"), Store(Some(ConstInt(2)), SlotX)] == SumDeclarations[..2];
    assert map[]["x" := SlotX] == map["x" := SlotX];
  }

  lemma SumSecond(ord: ArgOrder)
    ensures Lower(Entered(SumDeclarations[..2], map["x" := SlotX]), SumStatements[1], ord).st
         == Entered(SumDeclarations, map["x" := SlotX, "y" := SlotY])
  {
    DeclaresInt(SumDeclarations[..2], map["x" := SlotX], "y", 3, ord);
    assert SumDeclarations[..2] + SumDeclarations[2..] == SumDeclarations;
  }

  /** The three statements in "main"'s fresh frame: the declarations' code, then the addition's. */
  lemma SumBody(ord: ArgOrder)
    ensures LowerEach(Entered([], map[]), SumStatements, ord).st
         == Entered(SumDeclarations + SumAddition(ord), map["x" := SlotX, "y" := SlotY])
  {
    SumFirst(ord);
    SumSecond(ord);
    SumAssigns(SumDeclarations, ord);
    LowerEachThree(Entered([], map[]), SumStatements, ord);
  }

  /**
   * The exact code of `int x = 2; int y = 3; x = x + y;`: two slots with their
   * initial stores, the two loads in the order the compiler chose, the
   * addition of the loaded values, the store back into `x`, and `ret`; no errors.
   */
  lemma SumProgram(ord: ArgOrder)
    ensures var r := GenerateProgram(Fresh, Block(SumStatements), ord);
            && r.st.diags == []
            && r.st.stack == []
            && r.st.mod.functions == [Function("main", VoidType, [])]
            && r.st.mod.blocks == [BasicBlock(0, "entry", SumDeclarations + SumAddition(ord) + [Ret(None)])]
  {
    assert MainEntered(Fresh) == Entered([], map[]);
    SumBody(ord);
    ProgramRule(Fresh, SumStatements, ord);
    EnteredEmit(SumDeclarations + SumAddition(ord), map["x" := SlotX, "y" := SlotY], Ret(None));
  }

  /** A list of three nodes is lowered one node after the other. */
  lemma {:induction false} LowerEachThree(st: CodeGenState, ns: seq<Node>, ord: ArgOrder)
    requires st.Valid() && st.stack != []
    requires |ns| == 3
    ensures var s1 := Lower(st, ns[0], ord).st;
            var s2 := Lower(s1, ns[1], ord).st;
            LowerEach(st, ns, ord).st == Lower(s2, ns[2], ord).st
  {
    assert ns[..1][..0] == [];
    assert ns[..2][..1] == ns[..1];
    assert ns[..3][..2] == ns[..2];
    assert ns[..3] == ns;
    assert LowerEach(st, ns[..1], ord).st == Lower(st, ns[0], ord).st;
  }
}
