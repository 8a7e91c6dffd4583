/**
 * An abstract stand-in for the LLVM IR builder the code generator drives:
 * functions, basic blocks holding instruction lists, an insertion cursor and
 * a counter that names each new value. Only the operations the generator
 * uses are modelled, as pure functions on a Builder value.
 */
module Ir {
  import opened Wrappers

  /** The LLVM types the generator creates. */
  datatype LType =
    | I1
    | I32
    | F32
    | I8Ptr
    | Named(name: string)
    | FuncT(params: seq<LType>, ret: LType)

  /** Instruction operands: constants, numbered values, function arguments and functions. */
  datatype Operand =
    | BoolConst(b: bool)
    | IntConst(bits: nat)
    | FloatConst(r: real)
    | Reg(id: nat)
    | Arg(fn: nat, index: nat)
    | FuncRef(fn: nat)

  /** Signed integer and ordered float comparison predicates. */
  datatype IPred = SLT | SLE | SGT | SGE | IEQ | INE
  datatype FPred = OLT | OLE | OGT | OGE | OEQ | ONE

  /** The binary instructions the operator table selects, named after the builder calls. */
  datatype Opcode =
    | Add | Sub | Mul | SDiv | Rem | AndOp | OrOp | XorOp | Shl | Shr
    | ICmp(ipred: IPred)
    | FAdd | FSub | FMul | FDiv | FRem
    | FCmp(fpred: FPred)

  datatype Instr =
    | Load(dst: nat, ptr: Operand)
    | Alloca(dst: nat, ty: LType)
    | Store(val: Operand, ptr: Operand)
    | GlobalString(dst: nat, text: string)
    | ElementPtr(dst: nat, base: Operand)
    | Arith(dst: nat, op: Opcode, lhs: Operand, rhs: Operand)
    | Not(dst: nat, arg: Operand)
    | Phi(dst: nat, ty: LType, incoming: seq<(Operand, nat)>)
    | CallInstr(dst: nat, callee: Operand, args: seq<Operand>)
    | Br(target: nat)
    | CondBr(cond: Operand, ifTrue: nat, ifFalse: nat)
    | Ret(v: Operand)
    | RetVoid

  /** A basic block: the function it belongs to (none for a detached block), a name and its instructions. */
  datatype Block = Block(fn: Option<nat>, name: string, instrs: seq<Instr>)

  /** The builder's state: the function signatures, every block, the insertion block and the next value number. */
  datatype Builder = Builder(funcs: seq<LType>, blocks: seq<Block>, cursor: nat, nextReg: nat)

  /** The insertion point names an existing block. */
  predicate HasCursor(b: Builder)
  {
    b.cursor < |b.blocks|
  }

  /** Appends `i` at the end of the insertion block. */
  function Emit(b: Builder, i: Instr): (r: Builder)
    requires HasCursor(b)
    ensures HasCursor(r)
    ensures r.cursor == b.cursor && r.nextReg == b.nextReg && r.funcs == b.funcs && |r.blocks| == |b.blocks|
    ensures r.blocks[b.cursor].instrs == b.blocks[b.cursor].instrs + [i]
    ensures r.blocks[b.cursor].fn == b.blocks[b.cursor].fn && r.blocks[b.cursor].name == b.blocks[b.cursor].name
    ensures forall j :: 0 <= j < |b.blocks| && j != b.cursor ==> r.blocks[j] == b.blocks[j]
  {
    var blk := b.blocks[b.cursor];
    b.(blocks := b.blocks[b.cursor := blk.(instrs := blk.instrs + [i])])
  }

  /** Reserves the next value number. */
  function Fresh(b: Builder): (r: Builder)
    ensures r.nextReg == b.nextReg + 1
    ensures r.cursor == b.cursor && r.blocks == b.blocks && r.funcs == b.funcs
  {
    b.(nextReg := b.nextReg + 1)
  }

  /** BasicBlock::Create: a new empty block, numbered after all existing ones. */
  function CreateBlock(b: Builder, fn: Option<nat>, name: string): (r: Builder)
    ensures r.blocks == b.blocks + [Block(fn, name, [])]
    ensures r.cursor == b.cursor && r.nextReg == b.nextReg && r.funcs == b.funcs
  {
    b.(blocks := b.blocks + [Block(fn, name, [])])
  }

  /** IRBuilder::SetInsertPoint. */
  function SetInsertPoint(b: Builder, blk: nat): (r: Builder)
    requires blk < |b.blocks|
    ensures HasCursor(r) && r.cursor == blk
    ensures r.blocks == b.blocks && r.nextReg == b.nextReg && r.funcs == b.funcs
  {
    b.(cursor := blk)
  }

  /** Function::Create: a new function of the given type, numbered after all existing ones. */
  function CreateFunction(b: Builder, ty: LType): (r: Builder)
    ensures r.funcs == b.funcs + [ty]
    ensures r.cursor == b.cursor && r.blocks == b.blocks && r.nextReg == b.nextReg
  {
    b.(funcs := b.funcs + [ty])
  }

  /** GetInsertBlock()->getParent(): the function the insertion block belongs to. */
  function CurrentFn(b: Builder): Option<nat>
    requires HasCursor(b)
  {
    b.blocks[b.cursor].fn
  }

  /** `s` ends with the instructions `t`, in order. */
  predicate EndsWith(s: seq<Instr>, t: seq<Instr>)
  {
    |t| <= |s| && s[|s| - |t|..] == t
  }

  /*
   * Control flow between blocks, for stating what the generator wires up
   */

  /** Where control goes after `i` ends a block, when a conditional branch's condition is `c`. */
  function NextBlock(i: Instr, c: bool): Option<nat>
  {
    match i
    case Br(t) => Some(t)
    case CondBr(_, t, f) => Some(if c then t else f)
    case _ => None
  }

  /** The block's last instruction, the one that ends it. */
  function Last(blk: Block): Option<Instr>
  {
    if blk.instrs == [] then None else Some(blk.instrs[|blk.instrs| - 1])
  }

  /** The value a phi's incoming list gives when control arrives from block `from` (its first entry for that block). */
  function Incoming(inc: seq<(Operand, nat)>, from: nat): Option<Operand>
  {
    if inc == [] then None
    else if inc[0].1 == from then Some(inc[0].0)
    else Incoming(inc[1..], from)
  }

  /**
   * The value the leading phi of the insertion block takes when control
   * leaves block `from` with condition `c`, going there directly or
   * through one intermediate block; None when control does not get there
   * that way or the block has no leading phi.
   */
  function Reaching(b: Builder, from: nat, c: bool): Option<Operand>
    requires HasCursor(b)
  {
    var join := b.blocks[b.cursor];
    if from >= |b.blocks| || Last(b.blocks[from]).None? || join.instrs == [] || !join.instrs[0].Phi? then None
    else match NextBlock(Last(b.blocks[from]).value, c)
      case None => None
      case Some(t) =>
        if t == b.cursor then Incoming(join.instrs[0].incoming, from)
        else if t < |b.blocks| && Last(b.blocks[t]).Some? && NextBlock(Last(b.blocks[t]).value, c) == Some(b.cursor)
        then Incoming(join.instrs[0].incoming, t)
        else None
  }
}
