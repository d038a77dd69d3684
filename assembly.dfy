/**
 * The assembly the code transform writes into, reduced to what the transform
 * can observe: an append-only log of instructions and label definitions, a
 * counter from which fresh label ids are drawn, the names given to named
 * labels, and the last stack height that was reported.
 */
module Assembly {
  import opened Wrappers

  type LabelId = nat

  /** 2^32: the width of C++ `unsigned` and `int` on the targets the compiler runs on. */
  const Word: nat := 0x1_0000_0000

  /** 2^31: the least value that does not fit in a 32-bit C++ `int`. */
  const HalfWord: nat := 0x8000_0000

  /** The two instructions this part of the backend emits. SWAP(n) exchanges the top slot with the slot n below it. */
  datatype Opcode = POP | SWAP(depth: nat)

  datatype Item = Instruction(opcode: Opcode) | LabelDefinition(id: LabelId)

  /** What a named label records: the function name, its argument and return counts and its AST id. */
  datatype LabelName = LabelName(name: string, argumentCount: nat, returnCount: nat, astId: Option<nat>)

  /** `static_cast<unsigned>` of a `size_t`: reduction modulo 2^32. */
  function ToUnsigned(n: nat): (r: nat)
    ensures r < Word
    ensures n < Word ==> r == n
    ensures r % Word == n % Word
  {
    n % Word
  }

  /** `static_cast<int>` of a `size_t`: the low 32 bits read as a two's-complement number. */
  function ToInt(n: nat): (r: int)
    ensures -(HalfWord as int) <= r < HalfWord
    ensures n < HalfWord ==> r == n
    ensures r % Word == n % Word
  {
    var low := n % Word;
    if low < HalfWord then low else low - Word
  }

  class AbstractAssembly {
    var log: seq<Item>
    var nextLabelId: LabelId
    var namedLabels: map<LabelId, LabelName>
    var stackHeight: int

    /** Every label that was named was also handed out by the counter. */
    ghost predicate Valid()
      reads this`namedLabels, this`nextLabelId
    {
      forall l :: l in namedLabels ==> l < nextLabelId
    }

    constructor ()
      ensures Valid()
      ensures log == [] && nextLabelId == 0 && namedLabels == map[] && stackHeight == 0
    {
      log, nextLabelId, namedLabels, stackHeight := [], 0, map[], 0;
    }

    method AppendInstruction(opcode: Opcode)
      modifies this`log
      ensures log == old(log) + [Instruction(opcode)]
    {
      log := log + [Instruction(opcode)];
    }

    method AppendLabel(labelId: LabelId)
      modifies this`log
      ensures log == old(log) + [LabelDefinition(labelId)]
    {
      log := log + [LabelDefinition(labelId)];
    }

    /** A fresh anonymous label: larger than every label handed out before. */
    method NewLabelId() returns (labelId: LabelId)
      requires Valid()
      modifies this`nextLabelId
      ensures Valid()
      ensures labelId == old(nextLabelId) && nextLabelId == labelId + 1
      ensures labelId !in namedLabels
    {
      labelId := nextLabelId;
      nextLabelId := nextLabelId + 1;
    }

    /** A fresh label that also carries a name for diagnostics. */
    method NamedLabel(name: string, argumentCount: nat, returnCount: nat, astId: Option<nat>) returns (labelId: LabelId)
      requires Valid()
      modifies this`nextLabelId, this`namedLabels
      ensures Valid()
      ensures labelId == old(nextLabelId) && nextLabelId == labelId + 1
      ensures labelId !in old(namedLabels)
      ensures namedLabels == old(namedLabels)[labelId := LabelName(name, argumentCount, returnCount, astId)]
    {
      labelId := nextLabelId;
      nextLabelId := nextLabelId + 1;
      namedLabels := namedLabels[labelId := LabelName(name, argumentCount, returnCount, astId)];
    }

    method SetStackHeight(height: int)
      modifies this`stackHeight
      ensures stackHeight == height
    {
      stackHeight := height;
    }
  }
}
