/**
 * The part of the LLVM module the lowering writes to, as an append-only sink:
 * functions, basic blocks and instruction tags. Values, functions and blocks
 * are integer handles; nothing here says what an instruction computes.
 */
module Ir {
  import opened Options
  import opened Ast

  type FunctionId = nat
  type BlockId = nat

  datatype IrType = Int64Type | DoubleType | VoidType

  datatype BinOpKind = Add | Sub | Mul | SDiv

  datatype Value =
    | ConstInt(ival: Int64)                  // ConstantInt of type i64, signed
    | ConstFP(fval: Float64)                 // ConstantFP of type double
    | InstResult(block: BlockId, index: nat)   // the instruction at `index` of `block`
    | FunctionRef(fn: FunctionId)
    | Argument(owner: FunctionId, position: nat)

  /** Instruction tags. An operand that the lowering may produce as null is an `Option`. */
  datatype Instr =
    | Alloca(slotType: IrType, slotName: string)
    | Load(source: Value)
    | Store(stored: Option<Value>, target: Value)
    | BinOp(kind: BinOpKind, left: Option<Value>, right: Option<Value>)
    | Call(callee: Option<FunctionId>, args: seq<Option<Value>>)
    | Ret(result: Option<Value>)

  datatype Function = Function(name: string, returnType: IrType, paramTypes: seq<IrType>)

  datatype BasicBlock = BasicBlock(parent: FunctionId, name: string, instrs: seq<Instr>)

  datatype Module = Module(name: string, functions: seq<Function>, blocks: seq<BasicBlock>)

  /** Append the instructions `added`, in order, at the end of block `b`. */
  function AppendAll(m: Module, b: BlockId, added: seq<Instr>): (r: Module)
    requires b < |m.blocks|
  {
    m.(blocks := m.blocks[b := m.blocks[b].(instrs := m.blocks[b].instrs + added)])
  }

  /** Appending `x` and then `y` to a block is appending `x + y`. */
  lemma AppendAllTwice(m: Module, b: BlockId, x: seq<Instr>, y: seq<Instr>)
    requires b < |m.blocks|
    ensures AppendAll(AppendAll(m, b, x), b, y) == AppendAll(m, b, x + y)
  {
    assert m.blocks[b].instrs + x + y == m.blocks[b].instrs + (x + y);
  }

  /**
   * `Module::getFunction`: the first function declared under `name`. (LLVM gives
   * a later function of the same name a fresh name, so the first keeps it.)
   */
  function GetFunction(fs: seq<Function>, name: string): (r: Option<FunctionId>)
    ensures r.Some? ==> r.value < |fs| && fs[r.value].name == name
    ensures r.Some? ==> forall j :: 0 <= j < r.value ==> fs[j].name != name
    ensures r.None? <==> forall j :: 0 <= j < |fs| ==> fs[j].name != name
  {
    if fs == [] then None
    else if fs[0].name == name then Some(0)
    else match GetFunction(fs[1..], name)
      case None => None
      case Some(k) => Some(k + 1)
  }

  /** Block `y` is block `x` with zero or more instructions appended. */
  ghost predicate BlockExtends(x: BasicBlock, y: BasicBlock)
  {
    y.parent == x.parent && y.name == x.name && x.instrs <= y.instrs
  }

  /** Module `m2` is `m` with functions, blocks and instructions only appended. */
  ghost predicate Extends(m: Module, m2: Module)
  {
    && m2.name == m.name
    && m.functions <= m2.functions
    && |m.blocks| <= |m2.blocks|
    && forall b :: 0 <= b < |m.blocks| ==> BlockExtends(m.blocks[b], m2.blocks[b])
  }

  lemma ExtendsTransitive(m1: Module, m2: Module, m3: Module)
    requires Extends(m1, m2) && Extends(m2, m3)
    ensures Extends(m1, m3)
  {
    forall b | 0 <= b < |m1.blocks|
      ensures BlockExtends(m1.blocks[b], m3.blocks[b])
    {
      assert BlockExtends(m2.blocks[b], m3.blocks[b]);
    }
  }
}
