/**
 * The control-flow graph and the liveness information the code transform
 * consumes, reduced to what it reads of them: the function a graph belongs to
 * (with its argument and return counts and AST id), its blocks with their
 * operations, and per block one live-out set per operation.
 */
module SSACFG {
  import opened Wrappers

  type ValueId = nat
  type BlockId = nat

  /** The identity of a function (a scope entry) and its name. */
  datatype FunctionRef = FunctionRef(id: nat, name: string)

  datatype Operation = Operation(inputs: seq<ValueId>, outputs: seq<ValueId>)

  datatype Block = Block(operations: seq<Operation>)

  /** A graph; `functionRef` is None for the main graph. Block 0 is the entry block. */
  datatype Cfg = Cfg(
    functionRef: Option<FunctionRef>,
    argumentCount: nat,
    returnCount: nat,
    astId: Option<nat>,
    blocks: seq<Block>)
  {
    function NumBlocks(): nat { |blocks| }
  }

  /** The liveness analysis of a graph: indexed by block, then by operation. */
  datatype Liveness = Liveness(operationsLiveOut: seq<seq<set<ValueId>>>)

  /** The output of the graph builder: the main graph and one graph per function, in iteration order. */
  datatype ControlFlow = ControlFlow(mainGraph: Cfg, functionGraphMapping: seq<(FunctionRef, Cfg)>)

  /** The liveness analysis has a record for every block of the graph. */
  predicate Covers(cfg: Cfg, liveness: Liveness)
  {
    |liveness.operationsLiveOut| == |cfg.blocks|
  }
}
