/**
 * The state that `LLVMCodeGenContext` (src/llvm_codegen.h) carries through a
 * lowering pass, as a value: the stack of scope frames, the shared module (`mod`) and
 * the errors reported so far. The class in module CodeGen holds the same state
 * in fields; the specification functions of module Lowering work on this value.
 */
module Context {
  import opened Options
  import opened Ir

  /** `LLVMCodeGenBlock`: an insertion block, a pending return value and the local bindings. */
  datatype Frame = Frame(block: BlockId, returnValue: Option<Value>, locals: map<string, Value>)

  /** The errors the lowering reports on the error stream. */
  datatype Diagnostic =
    | UndeclaredVariable(variable: string)
    | NoSuchFunction(callee: string)
    | UnsupportedNode   // a node kind that has no lowering rule

  /** The stack grows to the right: its top is the last frame. */
  datatype CodeGenState = CodeGenState(stack: seq<Frame>, mod: Module, diags: seq<Diagnostic>)
  {
    /** Every frame inserts into a block that exists. */
    ghost predicate Valid()
    {
      forall i :: 0 <= i < |stack| ==> stack[i].block < |mod.blocks|
    }

    function Top(): (f: Frame)
      requires stack != []
    {
      stack[|stack| - 1]
    }

    /** `getLocals`: the bindings of the top frame, and only those. */
    function Locals(): (m: map<string, Value>)
      requires stack != []
    {
      Top().locals
    }

    /** `getCurrentBlock`: the insertion block of the top frame. */
    function CurrentBlock(): (b: BlockId)
      requires stack != []
    {
      Top().block
    }

    /** `pushBlock`: a fresh frame with no bindings and no return value. */
    function Push(b: BlockId): (s: CodeGenState)
    {
      this.(stack := stack + [Frame(b, None, map[])])
    }

    /** `popBlock`: drop the top frame with its bindings. */
    function Pop(): (s: CodeGenState)
      requires stack != []
    {
      this.(stack := stack[..|stack| - 1])
    }

    /** `setCurrentReturnValue`. */
    function SetReturnValue(v: Option<Value>): (s: CodeGenState)
      requires stack != []
    {
      this.(stack := stack[..|stack| - 1] + [Top().(returnValue := v)])
    }

    /** `getLocals()[name] = v`: bind or rebind `name` in the top frame. */
    function Bind(name: string, v: Value): (s: CodeGenState)
      requires stack != []
    {
      this.(stack := stack[..|stack| - 1] + [Top().(locals := Top().locals[name := v])])
    }

    /** Record a reported error. */
    function Report(d: Diagnostic): (s: CodeGenState)
    {
      this.(diags := diags + [d])
    }

    /** The handle the next instruction appended to the current block will have. */
    function NextResult(): (v: Value)
      requires Valid() && stack != []
    {
      InstResult(CurrentBlock(), |mod.blocks[CurrentBlock()].instrs|)
    }

    /** Append an instruction to the current block. */
    function Emit(i: Instr): (s: CodeGenState)
      requires Valid() && stack != []
    {
      this.(mod := AppendAll(mod, CurrentBlock(), [i]))
    }

    /** `Function::Create`: the new function's handle is `|mod.functions|`. */
    function DeclareFunction(f: Function): (s: CodeGenState)
    {
      this.(mod := mod.(functions := mod.functions + [f]))
    }

    /** `BasicBlock::Create`: the new, empty block's handle is `|mod.blocks|`. */
    function AddBlock(parent: FunctionId, name: string): (s: CodeGenState)
    {
      this.(mod := mod.(blocks := mod.blocks + [BasicBlock(parent, name, [])]))
    }
  }

  /** The same stack with its top frame kept and every frame below it replaced by `below`. */
  function Rebase(st: CodeGenState, below: seq<Frame>): (r: CodeGenState)
    requires st.stack != []
  {
    st.(stack := below + [st.Top()])
  }

  lemma PushPop(st: CodeGenState, b: BlockId)
    ensures st.Push(b).Pop() == st
    ensures st.Push(b).Top() == Frame(b, None, map[])
  {
    assert (st.stack + [Frame(b, None, map[])])[..|st.stack|] == st.stack;
  }
}
