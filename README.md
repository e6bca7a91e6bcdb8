# Toco code generation, modelled in Dafny

Toco is a toy compiler. Its parser builds an abstract syntax tree out of the
node structs of `src/nodes.h`. An `LLVMCodeGenContext` (`src/llvm_codegen.h`)
then lowers that tree to LLVM IR by calling each node's `generateCode`:

- The context owns one LLVM module named "main".
- It keeps a stack of `LLVMCodeGenBlock` frames. Each frame holds an
  insertion block, a pending return value and a map from local names to
  their stack slots.
- Every lowering rule looks names up in the top frame only, appends
  instructions (alloca, load, store, binary operation, call, ret) to the
  top frame's block, and returns a value or null.
- The driver `LLVMCodeGenContext::generateCode` wraps the root block in an
  entry function `main`.

The model has three layers:

- **`Ast`, `Ir`, `Context`: data.**
  - `Ast` holds the node taxonomy as one datatype. The expression and
    statement families of `src/nodes.h` are merged into one `Node` type.
  - `Ir` is the LLVM module as an append-only sink. It has functions, and
    basic blocks made of tagged instructions. Every value is an opaque
    handle: the `index`-th instruction of block `b` is `InstResult(b, index)`.
  - `Context` holds the frame record and the context's state as a value.
- **`Lowering`: the rules as functions.** Each `generateCode` rule is a
  function from a state to the next state and the returned value. Each is
  proved to keep the state valid and to only advance it:
  - the stack depth and the frames below the top are unchanged;
  - the module and the error list are only appended to;
  - of the blocks that already existed, only the current one gains
    instructions.
- **`CodeGen`: the imperative code.** `CodeGenContext` is a class whose
  fields the methods update in place. The `Generate*` methods are the
  loops and recursive calls of the C++ rules. Each method is proved to leave
  the object in exactly the state its `Lowering` function describes.

Properties proved about the rules:

- **Per rule** (`LoweringRules`): for names, assignments, calls, binary
  operations, blocks, declarations and literals, exactly which instructions
  are appended, which errors are reported and which bindings change, on the
  success path and on the error path.
- **Parameters** (`LoweringRules`): after the parameter loop every
  parameter is bound in the function's frame. When no parameter has an
  initializer, the exact code is known: for parameter `i`, an alloca of its
  type, then a store of incoming argument `i` into that alloca, at the start
  of the entry block. With initializers, only the bindings and the general
  per-rule facts are stated.
- **Flat scoping** (`Scoping`): replacing every frame below the top changes
  nothing in what any node lowers to, so a function body cannot see the
  locals of the code around its declaration.
- **Stack balance**: `FunctionDeclaration` and the driver leave the stack
  exactly as they found it.
- **Return values**: every function's entry block ends in `ret` of no value,
  because nothing in the code generator ever calls `setCurrentReturnValue`.
- **Operand order**: it can be observed (`OperandOrderObservableWithTwoNames`).
- **Whole programs** (`Scenarios`): the exact code of two small programs,
  and the fact that a function declared earlier in the module is found by a
  later call.

C++ leaves the order of evaluation of a call's arguments unspecified. Two
rules lower sub-nodes inside the argument list of a single call:

- `BinaryOperator::Create(instr, lhs.generateCode(..), rhs.generateCode(..), ..)`;
- `new StoreInst(rhs.generateCode(..), getLocals()[name], ..)`.

Every lowering function that lowers sub-nodes therefore takes an `ArgOrder` parameter. It fixes
the order the compiler chose, and every property is proved for all orders.

Errors that the C++ code writes to `std::cerr` are recorded as a list of
`Diagnostic`s instead.

## Model

| member | source | states |
|---|---|---|
| Ast.NewVariableDeclaration | src/nodes.h:95-98 | the two-argument declaration keeps type and name and has no initializer |
| Ast.NewInitializedVariableDeclaration | src/nodes.h:99-101 | the three-argument declaration keeps type, name and the given initializer |
| Ast.NewMethodCall | src/nodes.h:53 | a call built from a name alone has an empty argument list |
| Ast.NewMethodCallWithArguments | src/nodes.h:51-52 | a call built with arguments keeps the callee and exactly the given list |
| Ast.NewBlock | src/nodes.h:75 | a default-constructed block has no statements |
| Ir.GetFunction | src/llvm_codegen.cc:125 | `Module::getFunction`: a result names a declared function of that name, no earlier one has it, and the result is none exactly when no function has that name |
| Context.PushPop | src/llvm_codegen.cc:82-92 | a push then a pop restores the state exactly; the pushed frame has the given block, no return value and no bindings |
| Lowering.TypeOf | src/llvm_codegen.cc:23-30 | "int" maps to the 64-bit integer type and "double" to double; every other name, and only those, maps to void |
| Lowering.BinOpFor | src/llvm_codegen.cc:143-158 | PLUS, MINUS, MUL, DIV map to add, sub, mul, sdiv (each if and only if); any other code maps to none |
| Lowering.ParamTypes | src/llvm_codegen.cc:173-177 | one type per parameter, in order, each the `typeOf` of its declared type |
| Lowering.Lower | src/llvm_codegen.cc:103-239 | every rule keeps the state valid, the stack depth and the frames below the top, the top's block and return value, never unbinds a name, and only appends to the module and the errors; of the blocks that existed, only the current one gains instructions |
| Lowering.LowerIdentifier | src/llvm_codegen.cc:103-111 | a name lookup only advances the state (see IdentifierRule for the exact effect) |
| Lowering.LowerAssignment | src/llvm_codegen.cc:113-122 | an assignment only advances the state (see AssignmentRule) |
| Lowering.LowerMethodCall | src/llvm_codegen.cc:124-138 | a call only advances the state (see MethodCallRule) |
| Lowering.LowerBinaryOperator | src/llvm_codegen.cc:140-164 | a binary operation only advances the state (see BinaryOperatorRule) |
| Lowering.LowerEach | src/llvm_codegen.cc:131-133 | lowering a list only advances the state and yields one value per node |
| Lowering.LowerBlock | src/llvm_codegen.cc:218-227 | a block only advances the state (see BlockRule) |
| Lowering.LowerVariableDeclaration | src/llvm_codegen.cc:205-216 | a declaration only advances the state and leaves its name bound in the top frame |
| Lowering.LowerParameters | src/llvm_codegen.cc:187-195 | declaring the parameters and storing the incoming arguments only advances the state (see ParametersBound and ParametersWithoutInitializers for the exact effect) |
| Lowering.LowerFunctionDeclaration | src/llvm_codegen.cc:172-203 | the stack, enclosing frames and their bindings included, is exactly as before; the module only grows, and every block that existed, the enclosing one included, is untouched; the new function has the declared name and `typeOf` types; its entry block belongs to it and ends with `ret` of no value; the returned value is the function |
| Lowering.GenerateProgram | src/llvm_codegen.cc:36-53 | the stack is as before; "main" is added as a void function with no parameters; its entry block ends with `ret` of no value; the module only grows, and every block that existed is untouched |
| Lowering.EmitAdvances | src/llvm_codegen.cc:78-80 | appending one instruction to the current block advances the state: stack, errors and every other block untouched |
| Lowering.Enter | src/llvm_codegen.cc:180-185 | `Function::Create`, `BasicBlock::Create` and `pushBlock`: the function and an empty "entry" block of it are appended, and a frame on that block with no bindings is pushed on the caller's stack |
| Lowering.Leave | src/llvm_codegen.cc:198-200 | from any state lowering reaches in that frame, the `ret` and the pop restore the caller's stack, leave every earlier block untouched and end the entry block with that `ret` |
| LoweringRules.LiteralRule | src/llvm_codegen.cc:229-239 | integer and double literals become constants of their own value and change nothing |
| LoweringRules.IdentifierRule | src/llvm_codegen.cc:103-111 | an unbound name is reported and yields none with nothing appended; a bound one appends exactly one load from its slot and yields that load |
| LoweringRules.AssignmentRule | src/llvm_codegen.cc:113-122 | an unbound target is reported without lowering the right-hand side; otherwise the right-hand side is lowered and one store of its value into the target's slot is appended |
| LoweringRules.BinaryOperatorRule | src/llvm_codegen.cc:140-164 | an unknown operator code yields none and lowers neither operand; a known one lowers both operands in the chosen order and appends one operation of the matching kind over their values |
| LoweringRules.OperandOrderUnobservableWithLiteral | src/llvm_codegen.cc:161-163 | with a literal on one side and a literal or name on the other, both evaluation orders give the same result |
| LoweringRules.OperandOrderObservableWithTwoNames | src/llvm_codegen.cc:161-163 | with two distinct bound names, the two evaluation orders append different code |
| LoweringRules.MethodCallRule | src/llvm_codegen.cc:124-138 | the callee is looked up among declared functions and reported if absent; either way the arguments are lowered in order, exactly one call over their values is appended to the current block, and the returned value is that call |
| LoweringRules.LowerEachInOrder | src/llvm_codegen.cc:131-133 | the `i`-th node is lowered in the state the nodes before it left behind |
| LoweringRules.LowerEachConcat | src/llvm_codegen.cc:221-224 | lowering `a + b` is lowering `a`, then `b` from where `a` left off |
| LoweringRules.LowerEachValue | src/llvm_codegen.cc:131-133 | the `i`-th collected value is the `i`-th node's value |
| LoweringRules.BlockRule | src/llvm_codegen.cc:218-227 | an empty block changes nothing and yields none; otherwise the value is that of the last statement, lowered after all the others |
| LoweringRules.VariableDeclarationRule | src/llvm_codegen.cc:205-216 | one alloca of `typeOf` the type is appended; the name is bound (replacing any earlier binding) in the top frame only; the alloca is returned; without an initializer nothing else happens |
| LoweringRules.VariableDeclarationInitializer | src/llvm_codegen.cc:211-214 | the initializer is stored into the new slot by an assignment whose lookup always succeeds, so it adds no error of its own |
| LoweringRules.DeclareThenRead | src/llvm_codegen.cc:205-216 | declaring a name and then reading it appends an alloca and a load from that alloca, and reports nothing |
| LoweringRules.UnsupportedRule | src/nodes.h:85-113 | a return statement or an extern declaration is reported and lowers to none, with nothing appended |
| LoweringRules.ParametersBound | src/llvm_codegen.cc:187-195 | after the parameter loop, every parameter's name is bound in the top frame |
| LoweringRules.ParameterStep | src/llvm_codegen.cc:188-194 | a last parameter without initializer appends its alloca, binds its name to that alloca, then appends the store of its incoming argument into it |
| LoweringRules.EmitBindEmit | src/llvm_codegen.cc:188-194 | an alloca, a binding and a store append exactly those two instructions to the current block, rebind the one name and report nothing |
| LoweringRules.ParametersWithoutInitializers | src/llvm_codegen.cc:187-195 | with no initializers, the loop appends exactly, for each parameter `i` in order, an alloca of its `typeOf` type and a store of argument `i` into that alloca; each name is bound to its alloca; nothing is reported |
| LoweringRules.FunctionEntered | src/llvm_codegen.cc:180-185 | after the function, its entry block and its frame are created, the state is valid, the frame has no bindings and the current block is the new, empty entry block |
| LoweringRules.FunctionDeclarationSteps | src/llvm_codegen.cc:172-203 | a declaration is the prologue, the parameter loop, the body, a `ret` of the frame's return value, then the pop |
| LoweringRules.FunctionBodySeesParameters | src/llvm_codegen.cc:187-197 | the body is lowered in a frame where every parameter is bound, and its errors are all of the declaration's errors |
| LoweringRules.FunctionEntryBeginsWithParameters | src/llvm_codegen.cc:183-195 | with no initializers, the new function's entry block begins with the parameters' alloca and store pairs, in order |
| Scoping.RebaseValid | src/llvm_codegen.h:41 | a state stays valid with other frames below its top as long as the module only grows |
| Scoping.LowerTopFrameOnly | src/llvm_codegen.cc:74-80 | replacing every frame below the top changes neither the code, the errors, the value nor the top frame that any node lowers to |
| Scoping.RebaseEmit | src/llvm_codegen.cc:78-80 | the next handle and an appended instruction depend only on the top frame's block |
| Scoping.IdentifierTopFrameOnly | src/llvm_codegen.cc:103-111 | the same, for a name lookup |
| Scoping.AssignmentTopFrameOnly | src/llvm_codegen.cc:113-122 | the same, for an assignment |
| Scoping.MethodCallTopFrameOnly | src/llvm_codegen.cc:124-138 | the same, for a call |
| Scoping.BinaryOperatorTopFrameOnly | src/llvm_codegen.cc:140-164 | the same, for a binary operation |
| Scoping.EachTopFrameOnly | src/llvm_codegen.cc:131-133 | the same, for a list of nodes |
| Scoping.BlockTopFrameOnly | src/llvm_codegen.cc:218-227 | the same, for a block |
| Scoping.VariableDeclarationTopFrameOnly | src/llvm_codegen.cc:205-216 | the same, for a declaration |
| Scoping.ParametersTopFrameOnly | src/llvm_codegen.cc:187-195 | the same, for the parameter loop |
| Scoping.FunctionDeclarationTopFrameOnly | src/llvm_codegen.cc:172-203 | the same, for a function declaration |
| Scoping.PrologueTopFrameOnly | src/llvm_codegen.cc:180-185 | the same, for the creation of a function, its entry block and its frame |
| Scoping.EpilogueTopFrameOnly | src/llvm_codegen.cc:198-200 | the same, for the final `ret` and pop |
| Scoping.FunctionBodyInFreshFrame | src/llvm_codegen.cc:183-197 | parameters and body are lowered in a pushed frame with no bindings, and they produce all of the declaration's errors |
| Scoping.OuterLocalInvisibleInFunction | src/llvm_codegen.cc:105-107 | a name bound only around a function declaration is reported as undeclared when the function's body reads it |
| Scoping.UnboundReadReports | src/llvm_codegen.cc:105-107 | a block whose one statement reads a name its frame does not bind only reports that name |
| Scenarios.UndeclaredCallReports | src/llvm_codegen.cc:125-128 | a call to a name no function has is reported as missing |
| Scenarios.DeclaredFunctionIsCallable | src/llvm_codegen.cc:125-128 | after the declaration of a function whose name no function had is lowered, the module is shared, so a call of that name finds it, reports nothing of its own and calls it |
| Scenarios.ProgramRule | src/llvm_codegen.cc:44-53 | the driver lowers the root's statements in "main"'s fresh frame, then appends `ret` and pops |
| Scenarios.UndeclaredAssignmentProgram | src/llvm_codegen.cc:113-118 | the program `y = 1;` reports `y` as undeclared, and "main" contains only `ret` |
| Scenarios.SumProgram | src/llvm_codegen.cc:36-53 | the program `int x = 2; int y = 3; x = x + y;` gives exactly: two allocas with their initial stores, two loads in the compiler's order, the addition, the store into `x`, and `ret`, with no errors |
| Scenarios.SumAdds | src/llvm_codegen.cc:161-163 | `x + y` appends the two loads in the compiler's order and the addition over them |
| Scenarios.SumAssigns | src/llvm_codegen.cc:113-122 | `x = x + y;` appends the addition and then the store of its result into `x` |
| Scenarios.LowerEachThree | src/llvm_codegen.cc:221-224 | three statements are lowered one after the other |
| CodeGen.CodeGenContext.constructor | src/llvm_codegen.cc:33-35 | a new context has an empty module "main", no frames, no errors and no entry function |
| CodeGen.CodeGenContext.Locals | src/llvm_codegen.cc:74-76 | the bindings of the top frame |
| CodeGen.CodeGenContext.CurrentBlock | src/llvm_codegen.cc:78-80 | the block of the top frame |
| CodeGen.CodeGenContext.CurrentReturnValue | src/llvm_codegen.cc:98-100 | the return value of the top frame |
| CodeGen.CodeGenContext.PushBlock | src/llvm_codegen.cc:82-86 | a frame is added on top with the given block, no return value and no bindings; the frames below are untouched |
| CodeGen.CodeGenContext.PopBlock | src/llvm_codegen.cc:88-92 | the top frame is removed; the rest are untouched |
| CodeGen.CodeGenContext.SetCurrentReturnValue | src/llvm_codegen.cc:94-96 | the top frame's return value reads back as the value set; its block and bindings, and every lower frame, are untouched |
| CodeGen.CodeGenContext.BindLocal | src/llvm_codegen.cc:210 | the top frame's map gains or rebinds the one name, in place |
| CodeGen.CodeGenContext.Report | src/llvm_codegen.cc:106 | an error written to `std::cerr` (undeclared name at lines 106 and 116, missing function at line 127) is appended to the diagnostics; nothing else changes |
| CodeGen.CodeGenContext.Emit | src/llvm_codegen.cc:109-110 | one instruction is appended to the current block; its handle is the next index of that block |
| CodeGen.CodeGenContext.CreateFunction | src/llvm_codegen.cc:180-182 | the function is appended to the module; its handle is its index |
| CodeGen.CodeGenContext.CreateBlock | src/llvm_codegen.cc:183-184 | an empty block of the given function is appended; its handle is its index |
| CodeGen.CodeGenContext.GenerateCode | src/llvm_codegen.cc:36-53 | the object ends in the driver's state (GenerateProgram), and the entry function is recorded |
| CodeGen.Generate | src/llvm_codegen.cc:166-170 | the virtual `generateCode` call, dispatched on the node's kind (an expression statement forwards to its expression), ends in the state and value of `Lower` |
| CodeGen.GenerateIdentifier | src/llvm_codegen.cc:103-111 | the object ends in the state and value of `LowerIdentifier` |
| CodeGen.GenerateAssignment | src/llvm_codegen.cc:113-122 | the object ends in the state and value of `LowerAssignment` |
| CodeGen.GenerateMethodCall | src/llvm_codegen.cc:124-138 | the argument loop and call end in the state and value of `LowerMethodCall` |
| CodeGen.GenerateEach | src/llvm_codegen.cc:130-133 | the argument loop ends in the state and values of `LowerEach` |
| CodeGen.GenerateBinaryOperator | src/llvm_codegen.cc:140-164 | the switch and both operand lowerings end in the state and value of `LowerBinaryOperator` |
| CodeGen.GenerateBlock | src/llvm_codegen.cc:218-227 | the statement loop keeping `last` ends in the state and value of `LowerBlock` |
| CodeGen.GenerateVariableDeclaration | src/llvm_codegen.cc:205-216 | the object ends in the state and value of `LowerVariableDeclaration` |
| CodeGen.GenerateParameters | src/llvm_codegen.cc:187-195 | the parameter loop ends in the state of `LowerParameters` |
| CodeGen.GenerateFunctionDeclaration | src/llvm_codegen.cc:172-203 | the type loop, the parameter loop, the body and the `ret` end in the state and value of `LowerFunctionDeclaration` |

## Left out

- `runCode` and the JIT (`src/llvm_codegen.cc:63-72`) execute through LLVM's execution engine, a foreign library.
- Module printing after generation (`src/llvm_codegen.cc:55-60`) is output only.
- All `std::cout` logging is left out. The `std::cerr` error messages are modelled as a list of diagnostics, not as text.
- `src/main.cc`, which runs the parser, prints and calls the context, is not part of this model.
- LLVM's own types, instructions and the global `LLVMContext` are abstracted as tags and integer handles. The runtime meaning of the emitted code is not modelled: what a load, a division by zero or a `ret` computes.
- Double literals are kept as opaque 64-bit patterns. Floating point is not modelled.
- The values of the token codes `TOK_PLUS`..`TOK_DIV` come from the generated parser header, which is not part of this model. The model uses four distinct placeholder codes.
- `ReturnStatement::generateCode` and `ExternDeclaration::generateCode` are declared in `src/nodes.h` but have no definition, so a program that reaches one cannot be linked. The model deliberately refuses these nodes: lowering one records an "unsupported node" diagnostic, yields none and changes nothing else. This is a modelling choice, not behaviour of the source.
- LoweringRules.AssignmentRule, LoweringRules.BinaryOperatorRule, LoweringRules.MethodCallRule: a `None` operand or callee stands for the null pointer the source passes on when a sub-node or the callee lookup fails. It reaches the `StoreInst` constructor (`src/llvm_codegen.cc:119`), `BinaryOperator::Create` (`src/llvm_codegen.cc:161-163`) or `CallInst::Create` (`src/llvm_codegen.cc:134-135`), where LLVM's behaviour is undefined. The model instead appends the instruction with the missing operand and carries on.
- The `setName` on each function argument (`src/llvm_codegen.cc:192`) only names the value for printing, so it is not modelled.
- LLVM renames a function whose name is already taken. The model keeps the given name and looks a name up as its first declaration, which is the one that keeps the name.
- The parameter stores and the final `ret` of a function declaration are created in `bblock`, not in the current block. The model appends them to the current block. That this is `bblock` follows from `Advances`, which keeps the top frame's block: `GenerateFunctionDeclaration` asserts it before the `ret`, and for the parameter stores it follows from the contracts of `LowerVariableDeclaration` and `Enter`.
- Node kinds: the expression and statement families of `src/nodes.h` are one `Node` datatype, so the model admits trees the C++ types reject, such as a function declaration as a call argument or a bare identifier as a block statement. Every rule and lemma covers all nodes, so nothing proved depends on the split.
- The allocation and deletion of frames and nodes (memory management) is not modelled.
- Frames are values held in the stack field, not heap objects reached through pointers. Aliasing of frames is therefore not modelled; nothing in the source shares a frame.
