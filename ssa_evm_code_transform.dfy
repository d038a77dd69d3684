/**
 * The SSA-to-EVM code transform: a working model of the operand stack, the
 * per-block metadata, the function-label table, block entry, and the driver
 * that runs one transform for the main graph and one per function.
 *
 * Internal assertions (`yulAssert`) and the `std::map::at` lookup are
 * modelled as an explicit fault: a method returns `Fail(f)` (or `Failure(f)`)
 * where they would throw.
 * The handlers for a single operation and for a function body have no
 * behaviour yet; they are modelled as calls that change nothing and are only
 * recorded in a ghost trace, so that the order in which they are reached can
 * be stated.
 */
module SSAEVMCodeTransform {
  import opened Wrappers
  import opened Assembly
  import opened SSACFG

  /** One position of the operand stack: a value or a label (a return address). */
  datatype StackSlot = ValueSlot(value: ValueId) | LabelSlot(labelId: LabelId)

  /** Whether functions get labels named after them, and whether such names must be unique. */
  datatype UseNamedLabels = YesAndForceUnique | Never | ForFirstFunctionOccurrence

  datatype StackTooDeepError = StackTooDeepError(functionName: string, variable: string, deficit: int, message: string)

  /** The internal-consistency faults the transform can raise. */
  datatype Fault =
    | EmptyStackPop
    | SwapBelowBottom(depth: nat)
    | NoStartingLayout(block: BlockId)
    | LivenessMismatch(block: BlockId)
    | UnknownFunction(func: FunctionRef)

  /** Per-block metadata: the label, assigned on first use, and the layout the block is entered with. */
  datatype BlockData = BlockData(labelId: Option<LabelId>, stackIn: Option<seq<StackSlot>>)

  /** What the transform of one function graph did: its graph and liveness, the calls of its function handler, its errors. */
  datatype FunctionRun = FunctionRun(cfg: Cfg, liveness: Liveness, functionsEntered: seq<(FunctionRef, Cfg)>, stackErrors: seq<StackTooDeepError>)

  /** A call of the operation handler: the operation, its live-out set, and the working stack it saw. */
  datatype Visit = Visit(operation: Operation, liveOut: set<ValueId>, stack: seq<StackSlot>)

  // ---------------------------------------------------------------------------
  // The stack primitives, as functions on the slot sequence (top at the end)

  /** The stack after exchanging the top slot with the slot `depth` below it. */
  function Swapped(s: seq<StackSlot>, depth: nat): (r: seq<StackSlot>)
    requires depth < |s|
    ensures |r| == |s|
    ensures r[|s| - 1] == s[|s| - 1 - depth] && r[|s| - 1 - depth] == s[|s| - 1]
    ensures forall i :: 0 <= i < |s| && i != |s| - 1 && i != |s| - 1 - depth ==> r[i] == s[i]
  {
    var top, other := |s| - 1, |s| - 1 - depth;
    s[other := s[top]][top := s[other]]
  }

  /** Swapping twice with the same depth restores the stack. */
  lemma SwapSelfInverse(s: seq<StackSlot>, depth: nat)
    requires depth < |s|
    ensures Swapped(Swapped(s, depth), depth) == s
  {
  }

  /** A swap only rearranges slots: the multiset of slots is preserved. */
  lemma SwapPermutes(s: seq<StackSlot>, depth: nat)
    requires depth < |s|
    ensures multiset(Swapped(s, depth)) == multiset(s)
  {
  }

  // ---------------------------------------------------------------------------
  // Operations paired with their liveness records

  /** The handler calls for a block: operation i with live-out set i, in order, each on the given stack. */
  function Zip(operations: seq<Operation>, liveOut: seq<set<ValueId>>, stack: seq<StackSlot>): (r: seq<Visit>)
    requires |operations| == |liveOut|
    ensures |r| == |operations|
    ensures forall i :: 0 <= i < |r| ==> r[i].operation == operations[i] && r[i].liveOut == liveOut[i] && r[i].stack == stack
  {
    if operations == [] then []
    else Zip(operations[..|operations| - 1], liveOut[..|liveOut| - 1], stack) +
         [Visit(operations[|operations| - 1], liveOut[|liveOut| - 1], stack)]
  }

  // ---------------------------------------------------------------------------
  // Error aggregation

  /** The concatenation of a sequence of lists, in order. */
  function Concat<T>(lists: seq<seq<T>>): (r: seq<T>)
  {
    if lists == [] then [] else lists[0] + Concat(lists[1..])
  }

  lemma {:induction false} ConcatAppend<T>(lists: seq<seq<T>>, last: seq<T>)
    ensures Concat(lists + [last]) == Concat(lists) + last
  {
    if lists == [] {
      assert [] + [last] == [last];
      assert Concat([last]) == last + Concat([]);
    } else {
      assert (lists + [last])[1..] == lists[1..] + [last];
      ConcatAppend(lists[1..], last);
    }
  }

  lemma {:induction false} ConcatOfEmpty<T>(lists: seq<seq<T>>)
    requires forall i :: 0 <= i < |lists| ==> lists[i] == []
    ensures Concat(lists) == []
  {
    if lists != [] {
      ConcatOfEmpty(lists[1..]);
    }
  }

  /** The number of labels the constructor allocates for a graph: one if the graph belongs to a function. */
  function FunctionLabelCount(cfg: Cfg): (r: nat)
    ensures r <= 1
  {
    if cfg.functionRef.Some? then 1 else 0
  }

  /** The number of function labels allocated for the graphs of a mapping. */
  function MappingLabelCount(mapping: seq<(FunctionRef, Cfg)>): (r: nat)
    ensures r <= |mapping|
  {
    if mapping == [] then 0 else FunctionLabelCount(mapping[0].1) + MappingLabelCount(mapping[1..])
  }

  lemma {:induction false} MappingLabelCountAppend(mapping: seq<(FunctionRef, Cfg)>, last: (FunctionRef, Cfg))
    ensures MappingLabelCount(mapping + [last]) == MappingLabelCount(mapping) + FunctionLabelCount(last.1)
  {
    if mapping == [] {
      assert [] + [last] == [last];
      assert MappingLabelCount([last]) == FunctionLabelCount(last.1) + MappingLabelCount([]);
    } else {
      assert (mapping + [last])[1..] == mapping[1..] + [last];
      MappingLabelCountAppend(mapping[1..], last);
    }
  }

  // ---------------------------------------------------------------------------
  // The function-label table

  /**
   * The named labels once the function label `next` of `cfg` is allocated: it
   * is named after the function (name, argument count, return count, AST id)
   * when the graph belongs to one and the policy is not Never; every other
   * named label keeps its name.
   */
  function NameFunctionLabel(policy: UseNamedLabels, cfg: Cfg, next: LabelId, named: map<LabelId, LabelName>)
    : map<LabelId, LabelName>
  {
    if cfg.functionRef.Some? && policy != Never then
      named[next := LabelName(cfg.functionRef.value.name, cfg.argumentCount, cfg.returnCount, cfg.astId)]
    else
      named
  }

  /**
   * The label table for `cfg`, with the assembly's label counter going from
   * `nextBefore` to `nextAfter` and its named labels from `namedBefore` to
   * `namedAfter`: empty for a graph that belongs to no function, with nothing
   * allocated; otherwise the one label `nextBefore` for that function, named
   * after it (name, argument count, return count, AST id) unless the policy
   * is Never.
   */
  ghost predicate IsFunctionLabelTable(policy: UseNamedLabels, cfg: Cfg, labels: map<FunctionRef, LabelId>,
                                       nextBefore: LabelId, nextAfter: LabelId,
                                       namedBefore: map<LabelId, LabelName>, namedAfter: map<LabelId, LabelName>)
  {
    (cfg.functionRef.None? ==> labels == map[] && nextAfter == nextBefore && namedAfter == namedBefore) &&
    (cfg.functionRef.Some? ==> labels == map[cfg.functionRef.value := nextBefore] && nextAfter == nextBefore + 1) &&
    namedAfter == NameFunctionLabel(policy, cfg, nextBefore, namedBefore)
  }

  /**
   * The table built when a transform is constructed: empty for a graph that
   * belongs to no function, otherwise one fresh label for that function,
   * named after it unless the policy is Never.
   */
  method FunctionLabels(assembly: AbstractAssembly, policy: UseNamedLabels, cfg: Cfg)
    returns (labels: map<FunctionRef, LabelId>)
    requires assembly.Valid()
    modifies assembly`nextLabelId, assembly`namedLabels
    ensures assembly.Valid()
    ensures IsFunctionLabelTable(policy, cfg, labels, old(assembly.nextLabelId), assembly.nextLabelId,
                                 old(assembly.namedLabels), assembly.namedLabels)
  {
    labels := map[];
    if cfg.functionRef.Some? {
      var func := cfg.functionRef.value;
      var assignedFunctionNames: set<string> := {};
      var nameAlreadySeen := func.name in assignedFunctionNames;
      assignedFunctionNames := assignedFunctionNames + {func.name};
      if policy == YesAndForceUnique {
        // The set of names is fresh, so the uniqueness assertion cannot fail.
        assert !nameAlreadySeen;
      }
      var useNamedLabel := policy != Never && !nameAlreadySeen;
      var labelId;
      if useNamedLabel {
        labelId := assembly.NamedLabel(func.name, cfg.argumentCount, cfg.returnCount, cfg.astId);
      } else {
        labelId := assembly.NewLabelId();
      }
      labels := labels[func := labelId];
    }
  }

  // ---------------------------------------------------------------------------
  // The names the driver leaves

  /** Every label named in `before` has the same name in `after`. */
  ghost predicate KeepsNames(before: map<LabelId, LabelName>, after: map<LabelId, LabelName>)
  {
    forall l :: l in before ==> l in after && after[l] == before[l]
  }

  /** Naming a function label leaves the name of every other label as it was. */
  lemma NameFunctionLabelKeeps(policy: UseNamedLabels, cfg: Cfg, next: LabelId, named: map<LabelId, LabelName>, l: LabelId)
    requires l in named && l != next
    ensures l in NameFunctionLabel(policy, cfg, next, named)
    ensures NameFunctionLabel(policy, cfg, next, named)[l] == named[l]
  {
  }

  /**
   * The named labels once the driver has built one transform per graph of
   * `mapping`, in order, the label counter starting at `next`.
   */
  function MappingNamedLabels(policy: UseNamedLabels, mapping: seq<(FunctionRef, Cfg)>, next: LabelId,
                              named: map<LabelId, LabelName>): map<LabelId, LabelName>
  {
    if mapping == [] then named
    else
      var init := mapping[..|mapping| - 1];
      NameFunctionLabel(policy, mapping[|mapping| - 1].1, next + MappingLabelCount(init),
                        MappingNamedLabels(policy, init, next, named))
  }

  /** The function transforms never rename a label that was named before the counter reached `next`. */
  lemma {:induction false} MappingNamedLabelsKeeps(policy: UseNamedLabels, mapping: seq<(FunctionRef, Cfg)>, next: LabelId,
                                                   named: map<LabelId, LabelName>, l: LabelId)
    requires l in named && l < next
    ensures l in MappingNamedLabels(policy, mapping, next, named)
    ensures MappingNamedLabels(policy, mapping, next, named)[l] == named[l]
  {
    if mapping != [] {
      var init := mapping[..|mapping| - 1];
      MappingNamedLabelsKeeps(policy, init, next, named, l);
      NameFunctionLabelKeeps(policy, mapping[|mapping| - 1].1, next + MappingLabelCount(init),
                             MappingNamedLabels(policy, init, next, named), l);
    }
  }

  /** One more iteration of the driver's loop names the function label of the next graph. */
  lemma MappingNamedLabelsStep(policy: UseNamedLabels, mapping: seq<(FunctionRef, Cfg)>, i: nat, next: LabelId,
                               named: map<LabelId, LabelName>)
    requires i < |mapping|
    ensures MappingNamedLabels(policy, mapping[..i + 1], next, named) ==
      NameFunctionLabel(policy, mapping[i].1, next + MappingLabelCount(mapping[..i]), MappingNamedLabels(policy, mapping[..i], next, named))
  {
    assert mapping[..i + 1][..i] == mapping[..i];
  }

  // ---------------------------------------------------------------------------
  // The transform of one graph

  /** Every block label and function label is below the assembly's label counter, so it was handed out by it. */
  ghost predicate LabelsIssued(blockData: seq<BlockData>, functionLabels: map<FunctionRef, LabelId>, nextLabelId: LabelId)
  {
    (forall f :: f in functionLabels ==> functionLabels[f] < nextLabelId) &&
    (forall b :: 0 <= b < |blockData| && blockData[b].labelId.Some? ==> blockData[b].labelId.value < nextLabelId)
  }

  /** No two blocks share a label, and no block shares the function's label. */
  ghost predicate LabelsDistinct(blockData: seq<BlockData>, functionLabels: map<FunctionRef, LabelId>)
  {
    (forall b, c :: 0 <= b < c < |blockData| && blockData[b].labelId.Some? && blockData[c].labelId.Some? ==>
      blockData[b].labelId.value != blockData[c].labelId.value) &&
    (forall f, b :: f in functionLabels && 0 <= b < |blockData| && blockData[b].labelId.Some? ==>
      blockData[b].labelId.value != functionLabels[f])
  }

  class CodeTransform {
    const assembly: AbstractAssembly
    const cfg: Cfg
    const liveness: Liveness
    var stack: seq<StackSlot>
    var functionLabels: map<FunctionRef, LabelId>
    var blockData: seq<BlockData>
    var stackErrors: seq<StackTooDeepError>
    /** The calls of the operation handler so far, in order. */
    ghost var visits: seq<Visit>
    /** The calls of the function handler so far, in order. */
    ghost var functionsEntered: seq<(FunctionRef, Cfg)>

    /**
     * One metadata record per block; the function-label table holds at most
     * the graph's own function; every label the transform holds was handed
     * out by the assembly, and no two of them are equal.
     */
    ghost predicate Valid()
      reads this, assembly
    {
      assembly.Valid() &&
      |blockData| == cfg.NumBlocks() &&
      functionLabels.Keys == (if cfg.functionRef.Some? then {cfg.functionRef.value} else {}) &&
      LabelsIssued(blockData, functionLabels, assembly.nextLabelId) &&
      LabelsDistinct(blockData, functionLabels)
    }

    constructor (assembly: AbstractAssembly, policy: UseNamedLabels, cfg: Cfg, liveness: Liveness)
      requires assembly.Valid()
      modifies assembly`nextLabelId, assembly`namedLabels
      ensures Valid()
      ensures this.assembly == assembly && this.cfg == cfg && this.liveness == liveness
      ensures stack == [] && stackErrors == [] && visits == [] && functionsEntered == []
      ensures |blockData| == cfg.NumBlocks()
      ensures forall b :: 0 <= b < |blockData| ==> blockData[b] == BlockData(None, None)
      ensures IsFunctionLabelTable(policy, cfg, functionLabels, old(assembly.nextLabelId), assembly.nextLabelId,
                                   old(assembly.namedLabels), assembly.namedLabels)
    {
      var labels := FunctionLabels(assembly, policy, cfg);
      this.assembly := assembly;
      this.cfg := cfg;
      this.liveness := liveness;
      stack := [];
      functionLabels := labels;
      blockData := seq(cfg.NumBlocks(), _ => BlockData(None, None));
      stackErrors := [];
      visits := [];
      functionsEntered := [];
    }

    /** The label of a function, which must be in the table. */
    method GetFunctionLabel(func: FunctionRef) returns (r: Result<LabelId, Fault>)
      requires Valid()
      ensures r.Success? <==> cfg.functionRef == Some(func)
      ensures r.Success? ==> r.value == functionLabels[func] && r.value < assembly.nextLabelId
      ensures r.Failure? ==> r.error == UnknownFunction(func)
    {
      if func in functionLabels {
        r := Success(functionLabels[func]);
      } else {
        r := Failure(UnknownFunction(func));
      }
    }

    /** Removes the top slot and emits POP; faults on an empty stack. */
    method Pop() returns (o: Outcome<Fault>)
      requires Valid()
      modifies this`stack, assembly`log
      ensures Valid()
      ensures o == if old(stack) == [] then Fail(EmptyStackPop) else Pass
      ensures o.Pass? ==> old(stack) == stack + [old(stack)[|old(stack)| - 1]]
      ensures o.Pass? ==> assembly.log == old(assembly.log) + [Instruction(POP)]
      ensures o.Fail? ==> stack == old(stack) && assembly.log == old(assembly.log)
    {
      if stack == [] {
        return Fail(EmptyStackPop);
      }
      stack := stack[..|stack| - 1];
      assembly.AppendInstruction(POP);
      o := Pass;
    }

    /**
     * Emits SWAP of the given depth, then exchanges the top slot with the
     * slot `depth` below it; faults, after emitting, when the stack is not
     * deeper than `depth`.
     */
    method Swap(depth: nat) returns (o: Outcome<Fault>)
      requires Valid()
      modifies this`stack, assembly`log
      ensures Valid()
      ensures assembly.log == old(assembly.log) + [Instruction(SWAP(ToUnsigned(depth)))]
      ensures o == if depth < |old(stack)| then Pass else Fail(SwapBelowBottom(depth))
      ensures o.Pass? ==> stack == Swapped(old(stack), depth)
      ensures o.Fail? ==> stack == old(stack)
    {
      assembly.AppendInstruction(SWAP(ToUnsigned(depth)));
      if |stack| <= depth {
        return Fail(SwapBelowBottom(depth));
      }
      stack := stack[|stack| - depth - 1 := stack[|stack| - 1]][|stack| - 1 := stack[|stack| - depth - 1]];
      o := Pass;
    }

    /** The handler for one operation. It has no behaviour yet; the call is recorded. */
    method VisitOperation(operation: Operation, liveOut: set<ValueId>)
      modifies this`visits
      ensures visits == old(visits) + [Visit(operation, liveOut, stack)]
    {
      visits := visits + [Visit(operation, liveOut, stack)];
    }

    /** The handler for a function body. It has no behaviour yet; the call is recorded. */
    method VisitFunction(func: FunctionRef, functionGraph: Cfg)
      modifies this`functionsEntered
      ensures functionsEntered == old(functionsEntered) + [(func, functionGraph)]
    {
      functionsEntered := functionsEntered + [(func, functionGraph)];
    }

    /** Hands each operation, paired with the liveness record at the same index, to the operation handler. */
    method VisitOperations(operations: seq<Operation>, liveOut: seq<set<ValueId>>)
      requires |operations| == |liveOut|
      modifies this`visits
      ensures visits == old(visits) + Zip(operations, liveOut, stack)
    {
      for i := 0 to |operations|
        invariant visits == old(visits) + Zip(operations[..i], liveOut[..i], stack)
      {
        VisitOperation(operations[i], liveOut[i]);
        assert operations[..i + 1][..i] == operations[..i] && liveOut[..i + 1][..i] == liveOut[..i];
      }
      assert operations[..|operations|] == operations && liveOut[..|liveOut|] == liveOut;
    }

    /**
     * Enters a block with the given starting layout and reports its height,
     * then, when there is one liveness record per operation, hands the
     * operations to the operation handler.
     */
    method EnterLayout(block: BlockId, layout: seq<StackSlot>) returns (o: Outcome<Fault>)
      requires block < |cfg.blocks| && block < |liveness.operationsLiveOut|
      modifies this`stack, this`visits, assembly`stackHeight
      ensures stack == layout
      ensures assembly.stackHeight == ToInt(|layout|)
      ensures |cfg.blocks[block].operations| != |liveness.operationsLiveOut[block]| ==>
        o == Fail(LivenessMismatch(block)) && visits == old(visits)
      ensures |cfg.blocks[block].operations| == |liveness.operationsLiveOut[block]| ==>
        o == Pass && visits == old(visits) + Zip(cfg.blocks[block].operations, liveness.operationsLiveOut[block], layout)
    {
      stack := layout;
      assembly.SetStackHeight(ToInt(|stack|));
      var operations := cfg.blocks[block].operations;
      var liveOut := liveness.operationsLiveOut[block];
      if |operations| != |liveOut| {
        return Fail(LivenessMismatch(block));
      }
      VisitOperations(operations, liveOut);
      o := Pass;
    }

    /** The label of a block, allocated from the assembly the first time it is asked for. */
    method BlockLabel(block: BlockId) returns (labelId: LabelId)
      requires Valid() && block < |blockData|
      modifies this`blockData, assembly`nextLabelId
      ensures Valid()
      ensures old(blockData[block].labelId).Some? ==>
        labelId == old(blockData[block].labelId.value) &&
        blockData == old(blockData) && assembly.nextLabelId == old(assembly.nextLabelId)
      ensures old(blockData[block].labelId).None? ==>
        labelId == old(assembly.nextLabelId) &&
        blockData == old(blockData)[block := BlockData(Some(labelId), old(blockData[block].stackIn))] &&
        assembly.nextLabelId == labelId + 1
    {
      if blockData[block].labelId.Some? {
        return blockData[block].labelId.value;
      }
      labelId := assembly.NewLabelId();
      blockData := blockData[block := blockData[block].(labelId := Some(labelId))];
    }

    /**
     * Generates a block: assigns its label if it has none and emits it,
     * enters with the block's starting layout and reports its height, checks
     * that there is one liveness record per operation, and hands each
     * operation with its record to the operation handler. The working stack
     * of the caller is restored on every exit.
     */
    method VisitBlock(block: BlockId) returns (o: Outcome<Fault>)
      requires Valid()
      requires block < |blockData| && block < |liveness.operationsLiveOut|
      modifies this`stack, this`blockData, this`visits, assembly`log, assembly`nextLabelId, assembly`stackHeight
      ensures Valid()
      ensures stack == old(stack)
      // the label: reused when present, otherwise the next fresh one
      ensures old(blockData[block].labelId).Some? ==>
        blockData == old(blockData) && assembly.nextLabelId == old(assembly.nextLabelId)
      ensures old(blockData[block].labelId).None? ==>
        blockData == old(blockData)[block := BlockData(Some(old(assembly.nextLabelId)), old(blockData[block].stackIn))] &&
        assembly.nextLabelId == old(assembly.nextLabelId) + 1
      ensures blockData[block].labelId.Some?
      ensures assembly.log == old(assembly.log) + [LabelDefinition(blockData[block].labelId.value)]
      // the starting layout
      ensures old(blockData[block].stackIn).None? ==>
        o == Fail(NoStartingLayout(block)) &&
        assembly.stackHeight == old(assembly.stackHeight) && visits == old(visits)
      ensures old(blockData[block].stackIn).Some? ==>
        assembly.stackHeight == ToInt(|old(blockData[block].stackIn).value|)
      // the operations and their liveness records
      ensures (old(blockData[block].stackIn).Some? &&
               |cfg.blocks[block].operations| != |liveness.operationsLiveOut[block]|) ==>
        o == Fail(LivenessMismatch(block)) && visits == old(visits)
      ensures (old(blockData[block].stackIn).Some? &&
               |cfg.blocks[block].operations| == |liveness.operationsLiveOut[block]|) ==>
        o == Pass &&
        visits == old(visits) + Zip(cfg.blocks[block].operations, liveness.operationsLiveOut[block], old(blockData[block].stackIn).value)
    {
      // The saved stack is restored when this scope is left; meanwhile it is empty.
      var savedStack := stack;
      stack := [];

      var labelId := BlockLabel(block);
      assembly.AppendLabel(labelId);

      var stackIn := blockData[block].stackIn;
      if stackIn.None? {
        o := Fail(NoStartingLayout(block));
      } else {
        o := EnterLayout(block, stackIn.value);
      }
      stack := savedStack;
    }
  }

  /**
   * Entering a block twice allocates its label at most once, and defines the
   * same label both times. The label is assigned and defined before either
   * fault can arise, so this holds whether or not the first entry faults;
   * `operator()(BlockId)` would not be re-entered after a throw, so the case
   * of a faulting first entry concerns the model only.
   */
  method RepeatedEntryReusesLabel(transform: CodeTransform, block: BlockId)
    requires transform.Valid()
    requires block < |transform.blockData| && block < |transform.liveness.operationsLiveOut|
    modifies transform, transform.assembly
    ensures transform.Valid()
    ensures transform.blockData[block].labelId.Some?
    ensures old(transform.blockData[block].labelId).Some? ==>
      transform.blockData[block].labelId == old(transform.blockData[block].labelId)
    ensures transform.assembly.nextLabelId <= old(transform.assembly.nextLabelId) + 1
    ensures transform.assembly.log ==
      old(transform.assembly.log) + [LabelDefinition(transform.blockData[block].labelId.value),
                                     LabelDefinition(transform.blockData[block].labelId.value)]
  {
    var _ := transform.VisitBlock(block);
    var _ := transform.VisitBlock(block);
  }

  // ---------------------------------------------------------------------------
  // The driver

  /** One iteration of the driver's loop: a fresh transform for a function graph, run on it. */
  method TransformFunction(assembly: AbstractAssembly, policy: UseNamedLabels, func: FunctionRef, functionGraph: Cfg,
                           analyse: Cfg -> Liveness)
    returns (errors: seq<StackTooDeepError>, ghost run: FunctionRun)
    requires assembly.Valid()
    modifies assembly`nextLabelId, assembly`namedLabels
    ensures assembly.Valid()
    ensures run == FunctionRun(functionGraph, analyse(functionGraph), [(func, functionGraph)], errors)
    ensures errors == []
    ensures assembly.nextLabelId == old(assembly.nextLabelId) + FunctionLabelCount(functionGraph)
    ensures assembly.namedLabels == NameFunctionLabel(policy, functionGraph, old(assembly.nextLabelId), old(assembly.namedLabels))
  {
    var functionLiveness := analyse(functionGraph);
    var functionTransform := new CodeTransform(assembly, policy, functionGraph, functionLiveness);
    functionTransform.VisitFunction(func, functionGraph);
    errors := functionTransform.stackErrors;
    run := FunctionRun(functionTransform.cfg, functionTransform.liveness, functionTransform.functionsEntered, functionTransform.stackErrors);
  }

  /** The first part of the driver: the transform of the main graph, entered at block 0 with an empty stack. */
  method TransformMain(assembly: AbstractAssembly, policy: UseNamedLabels, mainGraph: Cfg, analyse: Cfg -> Liveness)
    returns (o: Outcome<Fault>, main: CodeTransform)
    requires assembly.Valid()
    requires 0 < mainGraph.NumBlocks()
    requires Covers(mainGraph, analyse(mainGraph))
    modifies assembly
    ensures assembly.Valid() && fresh(main)
    ensures main.cfg == mainGraph && main.assembly == assembly && main.stackErrors == []
    ensures |main.blockData| == mainGraph.NumBlocks()
    ensures main.blockData[0] == BlockData(Some(old(assembly.nextLabelId) + FunctionLabelCount(mainGraph)), Some([]))
    ensures assembly.stackHeight == 0
    ensures o.Fail? <==> |mainGraph.blocks[0].operations| != |analyse(mainGraph).operationsLiveOut[0]|
    ensures o.Fail? ==> o.error == LivenessMismatch(0)
    ensures o.Pass? ==>
      main.visits == Zip(mainGraph.blocks[0].operations, analyse(mainGraph).operationsLiveOut[0], [])
    ensures o.Fail? ==> main.visits == []
    ensures assembly.log == old(assembly.log) + [LabelDefinition(main.blockData[0].labelId.value)]
    ensures assembly.nextLabelId == old(assembly.nextLabelId) + FunctionLabelCount(mainGraph) + 1
    ensures IsFunctionLabelTable(policy, mainGraph, main.functionLabels,
                                 old(assembly.nextLabelId), old(assembly.nextLabelId) + FunctionLabelCount(mainGraph),
                                 old(assembly.namedLabels), assembly.namedLabels)
  {
    main := new CodeTransform(assembly, policy, mainGraph, analyse(mainGraph));
    // Block 0 of the main graph is entered with an empty layout.
    main.blockData := main.blockData[0 := main.blockData[0].(stackIn := Some([]))];
    assert forall b :: 0 <= b < |main.blockData| ==> main.blockData[b].labelId.None?;
    o := main.VisitBlock(0);
  }

  /** Neither the main transform nor the function transforms rename a label named before the run. */
  lemma DriverKeepsNames(policy: UseNamedLabels, flow: ControlFlow, next: LabelId, named: map<LabelId, LabelName>)
    requires forall l :: l in named ==> l < next
    ensures KeepsNames(named, NameFunctionLabel(policy, flow.mainGraph, next, named))
    ensures KeepsNames(named, MappingNamedLabels(policy, flow.functionGraphMapping, next + FunctionLabelCount(flow.mainGraph) + 1,
                                                 NameFunctionLabel(policy, flow.mainGraph, next, named)))
  {
    forall l | l in named
      ensures l in NameFunctionLabel(policy, flow.mainGraph, next, named)
      ensures NameFunctionLabel(policy, flow.mainGraph, next, named)[l] == named[l]
      ensures l in MappingNamedLabels(policy, flow.functionGraphMapping, next + FunctionLabelCount(flow.mainGraph) + 1,
                                      NameFunctionLabel(policy, flow.mainGraph, next, named))
      ensures MappingNamedLabels(policy, flow.functionGraphMapping, next + FunctionLabelCount(flow.mainGraph) + 1,
                                 NameFunctionLabel(policy, flow.mainGraph, next, named))[l] == named[l]
    {
      NameFunctionLabelKeeps(policy, flow.mainGraph, next, named, l);
      MappingNamedLabelsKeeps(policy, flow.functionGraphMapping, next + FunctionLabelCount(flow.mainGraph) + 1,
                              NameFunctionLabel(policy, flow.mainGraph, next, named), l);
    }
  }

  /** Iteration `i` of the driver's loop, entered with the label counter and the names the first `i` iterations left. */
  method TransformFunctionAt(assembly: AbstractAssembly, policy: UseNamedLabels, mapping: seq<(FunctionRef, Cfg)>, i: nat,
                             analyse: Cfg -> Liveness, ghost next: LabelId, ghost named: map<LabelId, LabelName>)
    returns (errors: seq<StackTooDeepError>, ghost run: FunctionRun)
    requires assembly.Valid() && i < |mapping|
    requires assembly.nextLabelId == next + MappingLabelCount(mapping[..i])
    requires assembly.namedLabels == MappingNamedLabels(policy, mapping[..i], next, named)
    modifies assembly`nextLabelId, assembly`namedLabels
    ensures assembly.Valid()
    ensures run == FunctionRun(mapping[i].1, analyse(mapping[i].1), [mapping[i]], errors) && errors == []
    ensures assembly.nextLabelId == next + MappingLabelCount(mapping[..i + 1])
    ensures assembly.namedLabels == MappingNamedLabels(policy, mapping[..i + 1], next, named)
  {
    errors, run := TransformFunction(assembly, policy, mapping[i].0, mapping[i].1, analyse);
    MappingLabelCountAppend(mapping[..i], mapping[i]);
    assert mapping[..i + 1] == mapping[..i] + [mapping[i]];
    MappingNamedLabelsStep(policy, mapping, i, next, named);
  }

  /**
   * The driver's loop: one fresh transform per function graph, in mapping
   * order, with the errors of each appended in that order.
   */
  method TransformFunctions(assembly: AbstractAssembly, policy: UseNamedLabels, mapping: seq<(FunctionRef, Cfg)>,
                            analyse: Cfg -> Liveness)
    returns (errors: seq<StackTooDeepError>, ghost runs: seq<FunctionRun>, ghost functionErrors: seq<seq<StackTooDeepError>>)
    requires assembly.Valid()
    modifies assembly`nextLabelId, assembly`namedLabels
    ensures assembly.Valid()
    ensures |runs| == |mapping| && |functionErrors| == |mapping|
    ensures forall i :: 0 <= i < |runs| ==>
      runs[i] == FunctionRun(mapping[i].1, analyse(mapping[i].1), [mapping[i]], functionErrors[i])
    ensures errors == Concat(functionErrors)
    ensures errors == []
    ensures assembly.nextLabelId == old(assembly.nextLabelId) + MappingLabelCount(mapping)
    ensures assembly.namedLabels == MappingNamedLabels(policy, mapping, old(assembly.nextLabelId), old(assembly.namedLabels))
  {
    errors, runs, functionErrors := [], [], [];
    for i := 0 to |mapping|
      invariant assembly.Valid()
      invariant assembly.nextLabelId == old(assembly.nextLabelId) + MappingLabelCount(mapping[..i])
      invariant assembly.namedLabels == MappingNamedLabels(policy, mapping[..i], old(assembly.nextLabelId), old(assembly.namedLabels))
      invariant |runs| == i && |functionErrors| == i
      invariant forall k :: 0 <= k < i ==>
        runs[k] == FunctionRun(mapping[k].1, analyse(mapping[k].1), [mapping[k]], functionErrors[k]) &&
        functionErrors[k] == []
      invariant errors == Concat(functionErrors)
    {
      var functionErrorList, run :=
        TransformFunctionAt(assembly, policy, mapping, i, analyse, old(assembly.nextLabelId), old(assembly.namedLabels));
      errors := errors + functionErrorList;
      ConcatAppend(functionErrors, functionErrorList);
      runs := runs + [run];
      functionErrors := functionErrors + [functionErrorList];
    }
    assert mapping[..|mapping|] == mapping;
    ConcatOfEmpty(functionErrors);
  }

  /**
   * Transforms the main graph from its entry block, which is forced to start
   * from an empty stack, then transforms every function graph in iteration
   * order, and returns the stack errors of all these transforms in that order.
   * `analyse` stands for the liveness analysis of a graph.
   */
  method Run(assembly: AbstractAssembly, policy: UseNamedLabels, flow: ControlFlow, analyse: Cfg -> Liveness)
    returns (r: Result<seq<StackTooDeepError>, Fault>,
             ghost main: CodeTransform,
             ghost runs: seq<FunctionRun>,
             ghost functionErrors: seq<seq<StackTooDeepError>>)
    requires assembly.Valid()
    requires 0 < flow.mainGraph.NumBlocks()
    requires Covers(flow.mainGraph, analyse(flow.mainGraph))
    modifies assembly
    ensures assembly.Valid()
    // the main transform, entered at block 0 with an empty layout
    ensures main.cfg == flow.mainGraph && main.assembly == assembly
    ensures |main.blockData| == flow.mainGraph.NumBlocks()
    ensures main.blockData[0] == BlockData(Some(old(assembly.nextLabelId) + FunctionLabelCount(flow.mainGraph)), Some([]))
    ensures assembly.stackHeight == 0
    ensures r.Failure? <==> |flow.mainGraph.blocks[0].operations| != |analyse(flow.mainGraph).operationsLiveOut[0]|
    ensures r.Failure? ==> r.error == LivenessMismatch(0)
    ensures r.Success? ==>
      main.visits == Zip(flow.mainGraph.blocks[0].operations, analyse(flow.mainGraph).operationsLiveOut[0], [])
    ensures r.Failure? ==> main.visits == []
    // a fault of the main block ends the run before any function graph is transformed
    ensures r.Failure? ==>
      runs == [] && functionErrors == [] &&
      assembly.nextLabelId == old(assembly.nextLabelId) + FunctionLabelCount(flow.mainGraph) + 1
    // one transform per function graph, each handed its function
    ensures r.Success? ==>
      |runs| == |flow.functionGraphMapping| && |functionErrors| == |runs| &&
      forall i :: 0 <= i < |runs| ==>
        runs[i] == FunctionRun(flow.functionGraphMapping[i].1, analyse(flow.functionGraphMapping[i].1),
                               [flow.functionGraphMapping[i]], functionErrors[i])
    // the errors, in order; none are produced yet
    ensures r.Success? ==> r.value == main.stackErrors + Concat(functionErrors)
    ensures r.Success? ==> r.value == []
    // the labels: one per function graph and one for the main entry block, each defined or named once
    ensures assembly.log == old(assembly.log) + [LabelDefinition(main.blockData[0].labelId.value)]
    ensures r.Success? ==>
      assembly.nextLabelId == old(assembly.nextLabelId) + FunctionLabelCount(flow.mainGraph) + 1 +
        MappingLabelCount(flow.functionGraphMapping)
    // the names: the main graph's function label, then each function graph's, by the policy
    ensures r.Failure? ==>
      assembly.namedLabels == NameFunctionLabel(policy, flow.mainGraph, old(assembly.nextLabelId), old(assembly.namedLabels))
    ensures r.Success? ==>
      assembly.namedLabels ==
        MappingNamedLabels(policy, flow.functionGraphMapping, old(assembly.nextLabelId) + FunctionLabelCount(flow.mainGraph) + 1,
                           NameFunctionLabel(policy, flow.mainGraph, old(assembly.nextLabelId), old(assembly.namedLabels)))
    ensures KeepsNames(old(assembly.namedLabels), assembly.namedLabels)
  {
    var o, mainTransform := TransformMain(assembly, policy, flow.mainGraph, analyse);
    main := mainTransform;
    runs, functionErrors := [], [];
    if o.Fail? {
      DriverKeepsNames(policy, flow, old(assembly.nextLabelId), old(assembly.namedLabels));
      return Failure(o.error), main, runs, functionErrors;
    }

    // `run` moves the list only when it is not empty; taking an empty list is the same.
    var errors;
    errors, runs, functionErrors := TransformFunctions(assembly, policy, flow.functionGraphMapping, analyse);
    r := Success(mainTransform.stackErrors + errors);
    DriverKeepsNames(policy, flow, old(assembly.nextLabelId), old(assembly.namedLabels));
  }
}
