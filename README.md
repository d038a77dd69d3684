# SSA-to-EVM code transform: stack model and traversal skeleton

This project models the part of Solidity's Yul backend that lowers an SSA
control-flow graph to EVM code (`libyul/backends/evm/SSAEVMCodeTransform.cpp`)
as far as that file implements it. It covers:

- the working operand stack, a sequence of stack slots (each a value id or a
  label id, top at the end), and its two primitives `pop` and `swap`;
- the constructor, which builds the function-label table (no entry, or one
  entry for the graph's own function, named or anonymous by the naming
  policy) and one metadata record per block;
- `getFunctionLabel`;
- generating a block: its label is assigned lazily and once; the block is
  entered with its starting layout; the stack height is reported; the
  operation count is checked against the liveness record count; the
  operations are handed to the operation handler in order; the caller's
  working stack is restored on exit;
- the driver `run`: block 0 of the main graph starts from an empty stack;
  the main transform runs first, then one transform per function graph; the
  stack errors are collected in that order.

Modules:

- `Wrappers` (wrappers.dfy): `Option`, `Result`, `Outcome`.
- `Assembly` (assembly.dfy): the assembly is an abstract class. It holds an
  append-only log of instructions and label definitions, a counter that hands
  out fresh label ids (`NewLabelId`, `NamedLabel`), the names given to named
  labels, and the last reported stack height. `ToUnsigned` and `ToInt` model
  the two 32-bit casts the file applies (the swap depth and the stack height).
- `SSACFG` (ssa_cfg.dfy): the graph and the liveness analysis as abstract
  inputs. A graph has an optional owning function with its argument count,
  return count and AST id, plus blocks with their operations. The liveness
  analysis gives, per block, one live-out set per operation.
- `SSAEVMCodeTransform` (ssa_evm_code_transform.dfy): the class
  `CodeTransform` with its fields (`stack`, `functionLabels`, `blockData`,
  `stackErrors`), the specification functions for the stack primitives and
  for error aggregation, and the driver `Run`.

Internal assertions (`yulAssert`) and the `std::map::at` lookup throw in the
C++ code. Here they are an explicit fault: the method returns `Fail(f)` or
`Failure(f)` and has already made every change the C++ code makes before
the throw. So `Swap` has already logged its SWAP when it faults, and
`VisitBlock` has already assigned and emitted the block's label when it
faults. The working stack is restored on every exit, as `ScopedSaveAndRestore`
does when the scope unwinds.

The handler for one operation (`operator()(SSACFG::Operation const&, ...)`)
and the handler for a function body (`operator()(Scope::Function const&, ...)`)
are empty. They are modelled as calls that change nothing observable. A
ghost trace records each call (`visits`, `functionsEntered`), so the
contracts can say which operation was handled, with which live-out set, on
which working stack, and in what order.

What the code generates, and what the model therefore states:

- Only block 0 of the main graph is generated. The file contains no code that
  moves on to a successor block.
- Function bodies are not generated, because the function handler is empty.
- No stack-too-deep error is ever recorded. `Run` proves that the list it
  returns is empty, and also that the list is the main transform's errors
  followed by each function transform's errors.
- The function-label table of a transform holds only the graph's own
  function. Its set of assigned names is created fresh for each transform, so
  the uniqueness assertion under `YesAndForceUnique` can never fail
  (`FunctionLabels` proves this with an assertion). As a result, two
  functions with the same name both get a named label, each from its own
  transform.

## Model

| member | source | states |
|---|---|---|
| `Assembly.ToUnsigned` | libyul/backends/evm/SSAEVMCodeTransform.cpp:158 | the swap depth passed to the assembly is the depth reduced modulo 2^32; it equals the depth whenever the depth fits in 32 bits |
| `Assembly.ToInt` | libyul/backends/evm/SSAEVMCodeTransform.cpp:186 | the reported stack height is the size read as a 32-bit signed number; it is in the `int` range and equals the size whenever the size is below 2^31 |
| `SSAEVMCodeTransform.Swapped` | libyul/backends/evm/SSAEVMCodeTransform.cpp:160 | swapping keeps the length, puts the slot `depth` below the top on top and the old top in its place, and leaves every other slot unchanged |
| `SSAEVMCodeTransform.SwapSelfInverse` | libyul/backends/evm/SSAEVMCodeTransform.cpp:160 | two swaps of the same depth restore the original stack |
| `SSAEVMCodeTransform.SwapPermutes` | libyul/backends/evm/SSAEVMCodeTransform.cpp:160 | a swap is a permutation: the multiset of slots is unchanged |
| `SSAEVMCodeTransform.Zip` | libyul/backends/evm/SSAEVMCodeTransform.cpp:190 | pairing the operations with the liveness records gives one entry per operation, entry i holding operation i and record i |
| `SSAEVMCodeTransform.ConcatAppend` | libyul/backends/evm/SSAEVMCodeTransform.cpp:102 | appending one transform's errors at the end extends the collected errors by exactly that list |
| `SSAEVMCodeTransform.ConcatOfEmpty` | libyul/backends/evm/SSAEVMCodeTransform.cpp:86-103 | if every transform reports no error, the collected list is empty |
| `SSAEVMCodeTransform.NameFunctionLabelKeeps` | libyul/backends/evm/SSAEVMCodeTransform.cpp:126-132 | naming the fresh function label leaves the name of every other label as it was |
| `SSAEVMCodeTransform.MappingNamedLabelsStep` | libyul/backends/evm/SSAEVMCodeTransform.cpp:90-99 | each further function graph adds its function label's name (by the policy) to the names the driver leaves |
| `SSAEVMCodeTransform.MappingNamedLabelsKeeps` | libyul/backends/evm/SSAEVMCodeTransform.cpp:90-99 | the function transforms never rename a label named before them |
| `SSAEVMCodeTransform.DriverKeepsNames` | libyul/backends/evm/SSAEVMCodeTransform.cpp:73-103 | neither the main transform nor the function transforms rename a label named before the run |
| `SSAEVMCodeTransform.MappingLabelCountAppend` | libyul/backends/evm/SSAEVMCodeTransform.cpp:90-99 | each further function graph adds exactly its own function label to the labels the driver allocates |
| `SSAEVMCodeTransform.FunctionLabels` | libyul/backends/evm/SSAEVMCodeTransform.cpp:119-139 | no entry for a graph without a function; otherwise exactly one entry, keyed by that function, holding the next fresh label; the label is named (with the function's name, argument count, return count and AST id) iff the policy is not `Never`; the uniqueness assertion cannot fail because the name set is fresh |
| `SSAEVMCodeTransform.CodeTransform.constructor` | libyul/backends/evm/SSAEVMCodeTransform.cpp:108-142 | the label table as in `FunctionLabels` (both state `IsFunctionLabelTable`); exactly one empty metadata record per block; an empty working stack and error list; nothing is emitted; the object invariant holds |
| `SSAEVMCodeTransform.CodeTransform.GetFunctionLabel` | libyul/backends/evm/SSAEVMCodeTransform.cpp:144-147 | succeeds iff the function is the graph's own function, with the label from the table; otherwise faults with the missing key |
| `SSAEVMCodeTransform.CodeTransform.Pop` | libyul/backends/evm/SSAEVMCodeTransform.cpp:149-154 | on an empty stack, faults and changes nothing; otherwise removes exactly the top slot, leaves the others as they were, and appends exactly one POP |
| `SSAEVMCodeTransform.CodeTransform.Swap` | libyul/backends/evm/SSAEVMCodeTransform.cpp:156-161 | always appends one SWAP of the (32-bit) depth first; faults, with the stack unchanged, iff the stack is not deeper than the depth; otherwise the stack becomes `Swapped(old stack, depth)` |
| `SSAEVMCodeTransform.CodeTransform.VisitOperation` | libyul/backends/evm/SSAEVMCodeTransform.cpp:194-197 | the empty operation handler changes nothing except recording that it was called with this operation, live-out set and working stack |
| `SSAEVMCodeTransform.CodeTransform.VisitFunction` | libyul/backends/evm/SSAEVMCodeTransform.cpp:199-202 | the empty function handler changes nothing except recording that it was called with this function and graph |
| `SSAEVMCodeTransform.CodeTransform.VisitOperations` | libyul/backends/evm/SSAEVMCodeTransform.cpp:190-191 | the operation handler is called once per operation, in order, with the liveness record at the same index, and the working stack is left as it was |
| `SSAEVMCodeTransform.CodeTransform.EnterLayout` | libyul/backends/evm/SSAEVMCodeTransform.cpp:184-191 | the working stack becomes exactly the starting layout and its height is reported; a mismatch between operation count and liveness record count is a fault with no handler called; otherwise the operations are handled as in `VisitOperations` on that layout |
| `SSAEVMCodeTransform.CodeTransform.BlockLabel` | libyul/backends/evm/SSAEVMCodeTransform.cpp:173-175 | an existing block label is returned and nothing changes; otherwise the next fresh label is allocated and stored for that block only; every label stays distinct from every other block label and from the function label |
| `SSAEVMCodeTransform.CodeTransform.VisitBlock` | libyul/backends/evm/SSAEVMCodeTransform.cpp:163-192 | the block's label (reused or freshly assigned) is appended as a label definition; with no starting layout it faults without reporting a height; otherwise the height of the starting layout is reported; a mismatch between operation count and liveness record count is a fault; otherwise operation i is handled with liveness record i, in order, on a working stack equal to the starting layout; the caller's stack is the same afterwards on every path |
| `SSAEVMCodeTransform.RepeatedEntryReusesLabel` | libyul/backends/evm/SSAEVMCodeTransform.cpp:172-177 | entering a block twice allocates at most one label, keeps an existing one, and defines the same label twice |
| `SSAEVMCodeTransform.TransformMain` | libyul/backends/evm/SSAEVMCodeTransform.cpp:73-84 | the main graph's function-label table and names are as in `FunctionLabels`; its block 0 has starting layout `[]` and the next fresh label after them; height 0 is reported; it faults iff block 0's operation and liveness counts differ, and then no operation is handled; otherwise operation i of block 0 is handled with liveness record i, in order, on the empty stack |
| `SSAEVMCodeTransform.TransformFunction` | libyul/backends/evm/SSAEVMCodeTransform.cpp:92-102 | a fresh transform is built for the function graph and the liveness analysis of that graph; its function handler is called exactly once, with that function and graph; it allocates exactly the function label of that graph, named after the function by the policy, and no other label changes its name; the errors returned are the transform's own, which are none |
| `SSAEVMCodeTransform.TransformFunctionAt` | libyul/backends/evm/SSAEVMCodeTransform.cpp:90-103 | iteration i of the driver's loop takes the label counter and the names the first i iterations left to those the first i+1 iterations leave, and transforms graph i with its function |
| `SSAEVMCodeTransform.TransformFunctions` | libyul/backends/evm/SSAEVMCodeTransform.cpp:90-103 | one transform per function graph, in mapping order, each built over its graph and that graph's liveness analysis and entered once with its function; the errors are theirs concatenated in that order (which is empty); the label counter grows by one per graph with a function, and the names are those of `MappingNamedLabels` |
| `SSAEVMCodeTransform.Run` | libyul/backends/evm/SSAEVMCodeTransform.cpp:62-106 | block 0 of the main graph starts from `[]`; a fault of the main block is returned as the result, and then no operation is handled, no function graph is transformed and no function label is allocated; otherwise operation i of block 0 is handled with liveness record i, in order, on the empty stack, and there is one transform per function graph, in mapping order, each built over its graph and that graph's liveness analysis and entered once with its function, and the result is the main transform's errors followed by each function transform's errors in that order (which is empty); the only thing emitted is the main entry block's label; exactly one label per function graph plus one for the entry block is allocated; the names are the main graph's function label, then each function graph's, by the policy; every label named before the run keeps its name (also on a fault) |

## Left out

- The graph builder and the liveness analysis (lines 71, 73 and 92) are not part of this model. A `ControlFlow` value and a function `analyse: Cfg -> Liveness` stand in for them.
- The real assembly is not part of this model, and neither is `evmasm::swapInstruction` with its range of valid depths. The assembly is modelled only as a log, a label counter, the named-label records and the stack height. No limit of 16 is asserted.
- `createStackTop`, `bringUpSlot` and `createExactStack` (lines 204-220) are left out. Their bodies are empty and nothing in the file calls them.
- The debug output of line 187 and `m_currentBlock` (line 167) are left out. They are console I/O and debugging state.
- `ssaCfgVarToString`, `stackToString` and `stackSlotToString` (lines 37-58, 222-237) are left out. They only format the debug output, using `u256` streaming and `util::joinHumanReadable`, which are not part of this model.
- `run`'s analysis-info, dialect and builtin-context parameters are left out. This file passes them on to collaborators but never reads them. `StackTooDeepError` is declared outside this file, so its fields here are a stand-in.
- Indexing `m_blockData` and a block of the graph is only valid for an existing block id. So `VisitBlock` requires the block to exist in the metadata table and in the liveness analysis, and `Run` requires a main graph with at least one block whose liveness analysis covers every block.
