/**
 * The operator tables of the code generator's Binary and Unary handlers
 * (codegen.h): which (operand type tag, operand type tag, operator)
 * combinations are lowered, to which instruction and result type.
 */
module Ops {
  import opened Wrappers
  import opened Ir

  /** The operators lowered when both operands are tagged "Int". */
  const IntOps: set<string> :=
    {"+", "-", "*", "/", "%", "&", "|", "^", "<<", ">>", "<", "<=", ">", ">=", "==", "!="}

  /** The operators lowered when both operands are tagged "Float": no bitwise or shift operator. */
  const FloatOps: set<string> := {"+", "-", "*", "/", "%", "<", "<=", ">", ">=", "==", "!="}

  const Comparisons: set<string> := {"<", "<=", ">", ">=", "==", "!="}

  /** The Int branch of the Binary handler: the instruction for each accepted operator. */
  function IntOpcode(op: string): (r: Option<Opcode>)
    ensures r.Some? <==> op in IntOps
    ensures op in Comparisons <==> r.Some? && r.value.ICmp?
  {
    match op
    case "+" => Some(Add)
    case "-" => Some(Sub)
    case "*" => Some(Mul)
    case "/" => Some(SDiv)
    case "%" => Some(Rem)
    case "&" => Some(AndOp)
    case "|" => Some(OrOp)
    case "^" => Some(XorOp)
    case "<<" => Some(Shl)
    case ">>" => Some(Shr)
    case "<" => Some(ICmp(SLT))
    case "<=" => Some(ICmp(SLE))
    case ">" => Some(ICmp(SGT))
    case ">=" => Some(ICmp(SGE))
    case "==" => Some(ICmp(IEQ))
    case "!=" => Some(ICmp(INE))
    case _ => None
  }

  /** The Float branch of the Binary handler: the instruction for each accepted operator. */
  function FloatOpcode(op: string): (r: Option<Opcode>)
    ensures r.Some? <==> op in FloatOps
    ensures op in Comparisons <==> r.Some? && r.value.FCmp?
  {
    match op
    case "+" => Some(FAdd)
    case "-" => Some(FSub)
    case "*" => Some(FMul)
    case "/" => Some(FDiv)
    case "%" => Some(FRem)
    case "<" => Some(FCmp(OLT))
    case "<=" => Some(FCmp(OLE))
    case ">" => Some(FCmp(OGT))
    case ">=" => Some(FCmp(OGE))
    case "==" => Some(FCmp(OEQ))
    case "!=" => Some(FCmp(ONE))
    case _ => None
  }

  /**
   * The Binary handler's dispatch on the left and right operands' type tags:
   * the LLVM type recorded for the result (the 32-bit integer type for every
   * Int operation and for Float comparisons, the float type for Float
   * arithmetic) and the instruction; None is the unsupported-operation error.
   */
  function BinaryDispatch(ltag: string, rtag: string, op: string): (r: Option<(LType, Opcode)>)
    ensures r.Some? <==>
              (ltag == "Int" && rtag == "Int" && op in IntOps)
              || (ltag == "Float" && rtag == "Float" && op in FloatOps)
    ensures r.Some? && ltag == "Int" ==> r.value.0 == I32
    ensures r.Some? && ltag == "Float" ==> r.value.0 == (if op in Comparisons then I32 else F32)
  {
    if rtag == "Int" && ltag == "Int" && IntOpcode(op).Some? then
      Some((I32, IntOpcode(op).value))
    else if rtag == "Float" && ltag == "Float" && FloatOpcode(op).Some? then
      Some((if FloatOpcode(op).value.FCmp? then I32 else F32, FloatOpcode(op).value))
    else
      None
  }

  /** Mixed Int/Float operands are never lowered, whatever the operator. */
  lemma MixedOperandsRejected(op: string)
    ensures BinaryDispatch("Int", "Float", op) == None
    ensures BinaryDispatch("Float", "Int", op) == None
  {
  }

  /** Float operands reject the bitwise and shift operators that Int operands accept. */
  lemma FloatRejectsBitwise(op: string)
    requires op in {"&", "|", "^", "<<", ">>"}
    ensures BinaryDispatch("Int", "Int", op).Some?
    ensures BinaryDispatch("Float", "Float", op) == None
  {
  }

  /** The two instructions of the Unary handler. */
  datatype UnaryOp = XorAllOnes | LogicalNot

  /**
   * The Unary handler's dispatch: "~" on an Int (an xor with all ones,
   * integer-typed) and "not" on a Bool (boolean-typed); None is the
   * unsupported-operation error.
   */
  function UnaryDispatch(tag: string, op: string): (r: Option<(LType, UnaryOp)>)
    ensures r.Some? <==> (tag == "Int" && op == "~") || (tag == "Bool" && op == "not")
    ensures r.Some? ==> r.value.0 == (if tag == "Int" then I32 else I1)
  {
    if tag == "Int" && op == "~" then Some((I32, XorAllOnes))
    else if tag == "Bool" && op == "not" then Some((I1, LogicalNot))
    else None
  }
}
