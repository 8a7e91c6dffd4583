/**
 * The code generator of codegen.h: a visitor over the AST that keeps
 *  - a stack of typed values, one pushed by each expression it lowers,
 *  - the scope environment (see module Scope),
 *  - paired stacks of continue and break targets for the enclosing loops,
 * and drives an IR builder (see module Ir). Every check the source makes,
 * with assert or with error(), stops lowering with a CgError.
 */
module Codegen {
  import opened Wrappers
  import opened AstTypes
  import AstNode
  import opened Ir
  import opened Scope
  import opened Ops
  import opened Syntax
  import opened Values

  /**
   * The LLVM type of a type name: the types the literal handlers use for
   * "Bool", "Int", "Float" and "String", and an opaque named type otherwise.
   */
  function Translate(tname: string): (t: LType)
    ensures t.Named? <==> tname !in {"Bool", "Int", "Float", "String"}
    ensures t.Named? ==> t.name == tname
  {
    match tname
    case "Bool" => I1
    case "Int" => I32
    case "Float" => F32
    case "String" => I8Ptr
    case _ => Named(tname)
  }

  /** The parameter types of a function prototype, in order. */
  function ParamTypes(ps: seq<Param>): (ts: seq<LType>)
    ensures |ts| == |ps|
    ensures forall i :: 0 <= i < |ps| ==> ts[i] == Translate(TypeName(ps[i].ty))
  {
    if ps == [] then [] else [Translate(TypeName(ps[0].ty))] + ParamTypes(ps[1..])
  }

  /** The parameters' type names (`targ->type_name()`), in order. */
  function ParamTags(ps: seq<Param>): (ts: seq<string>)
    ensures |ts| == |ps|
    ensures forall i :: 0 <= i < |ps| ==> ts[i] == TypeName(ps[i].ty)
  {
    if ps == [] then [] else [TypeName(ps[0].ty)] + ParamTags(ps[1..])
  }

  /**
   * The entry-block code of Function's parameter loop for the first `k`
   * parameters: for parameter j, an alloca of slot `n0 + j` of its type
   * and a store of argument j into it.
   */
  function ParamSlots(fid: nat, tys: seq<LType>, n0: nat, k: nat): (r: seq<Instr>)
    requires k <= |tys|
    ensures |r| == 2 * k
  {
    if k == 0 then []
    else ParamSlots(fid, tys, n0, k - 1) + [Alloca(n0 + k - 1, tys[k - 1]), Store(Arg(fid, k - 1), Reg(n0 + k - 1))]
  }

  /** The entry-block code of the parameter loop, instruction by instruction: even positions allocate, odd ones store the argument. */
  lemma {:induction false} ParamSlotsAt(fid: nat, tys: seq<LType>, n0: nat, k: nat)
    requires k <= |tys|
    ensures var r := ParamSlots(fid, tys, n0, k);
      forall j :: 0 <= j < |r| ==>
        r[j] == if j % 2 == 0 then Alloca(n0 + j / 2, tys[j / 2]) else Store(Arg(fid, j / 2), Reg(n0 + j / 2))
  {
    if k > 0 {
      ParamSlotsAt(fid, tys, n0, k - 1);
      var r := ParamSlots(fid, tys, n0, k);
      assert forall j :: 2 * (k - 1) <= j < |r| ==> j / 2 == k - 1;
    }
  }

  /** The parameters' names, in order. */
  function ParamNames(ps: seq<Param>): (ns: seq<string>)
    ensures |ns| == |ps|
    ensures forall i :: 0 <= i < |ps| ==> ns[i] == ps[i].name
  {
    if ps == [] then [] else [ps[0].name] + ParamNames(ps[1..])
  }

  /**
   * Frame `m` is frame `m0` with the first `count` parameters bound as
   * Function binds them: it holds exactly the old names and those
   * parameters' names, and a parameter whose name is neither an old name
   * nor an earlier parameter's is bound to its slot, numbered `n0 + j`,
   * tagged `tags[j]` and typed `tys[j]`.
   */
  ghost predicate ParamsBound(m0: map<string, Expr>, m: map<string, Expr>, names: seq<string>, tags: seq<string>, tys: seq<LType>, n0: nat, count: nat)
    requires count <= |names| == |tags| == |tys|
  {
    && (forall x :: x in m <==> x in m0 || x in names[..count])
    && (forall j :: 0 <= j < count && names[j] !in m0 && names[j] !in names[..j] ==>
          names[j] in m && m[names[j]] == Expr(tags[j], tys[j], Reg(n0 + j)))
  }

  /**
   * The frame the parameter loop leaves after `count` parameters: each
   * parameter inserted into `m0` in order as map::insert does, so a name
   * already present keeps its binding.
   */
  ghost function BoundFrame(m0: map<string, Expr>, names: seq<string>, tags: seq<string>, tys: seq<LType>, n0: nat, count: nat): map<string, Expr>
    requires count <= |names| == |tags| == |tys|
  {
    if count == 0 then m0
    else
      var m, name := BoundFrame(m0, names, tags, tys, n0, count - 1), names[count - 1];
      if name in m then m else m[name := Expr(tags[count - 1], tys[count - 1], Reg(n0 + count - 1))]
  }

  /** The folded frame names exactly the old names and the first `count` parameters. */
  lemma {:induction false} BoundFrameKeys(m0: map<string, Expr>, names: seq<string>, tags: seq<string>, tys: seq<LType>, n0: nat, count: nat, x: string)
    requires count <= |names| == |tags| == |tys|
    ensures x in BoundFrame(m0, names, tags, tys, n0, count) <==> x in m0 || x in names[..count]
  {
    if count > 0 {
      BoundFrameKeys(m0, names, tags, tys, n0, count - 1, x);
      assert names[..count] == names[..count - 1] + [names[count - 1]];
    }
  }

  /**
   * A parameter whose name is neither an old name nor an earlier
   * parameter's is bound to its own slot, and later parameters of the
   * same name do not replace it.
   */
  lemma {:induction false} BoundFrameSlot(m0: map<string, Expr>, names: seq<string>, tags: seq<string>, tys: seq<LType>, n0: nat, count: nat, j: nat)
    requires count <= |names| == |tags| == |tys| && j < count
    requires names[j] !in m0 && names[j] !in names[..j]
    ensures var m := BoundFrame(m0, names, tags, tys, n0, count);
      names[j] in m && m[names[j]] == Expr(tags[j], tys[j], Reg(n0 + j))
  {
    if j < count - 1 {
      BoundFrameSlot(m0, names, tags, tys, n0, count - 1, j);
    } else {
      BoundFrameKeys(m0, names, tags, tys, n0, j, names[j]);
    }
  }

  /** What the loop's frame holds: ParamsBound. */
  lemma BoundFrameBinds(m0: map<string, Expr>, names: seq<string>, tags: seq<string>, tys: seq<LType>, n0: nat, count: nat)
    requires count <= |names| == |tags| == |tys|
    ensures ParamsBound(m0, BoundFrame(m0, names, tags, tys, n0, count), names, tags, tys, n0, count)
  {
    forall x {
      BoundFrameKeys(m0, names, tags, tys, n0, count, x);
    }
    forall j | 0 <= j < count && names[j] !in m0 && names[j] !in names[..j] {
      BoundFrameSlot(m0, names, tags, tys, n0, count, j);
    }
  }

  const Two32: int := 0x1_0000_0000

  /** builder->getInt32(v): the low 32 bits of the 64-bit literal. */
  function Wrap32(v: int): (bits: nat)
    ensures bits < Two32 && (v - bits) % Two32 == 0
  {
    v % Two32
  }

  /** The two's complement reading of 32 bits. */
  function Signed32(bits: nat): int
    requires bits < Two32
  {
    if bits < Two32 / 2 then bits else bits - Two32
  }

  /** A literal that fits in 32 bits is represented exactly; a wider one is truncated. */
  lemma Wrap32Exact(v: int)
    requires -Two32 / 2 <= v < Two32 / 2
    ensures Signed32(Wrap32(v)) == v
  {
    if v < 0 {
      assert Wrap32(v) == v + Two32;
    }
  }

  class Generator {
    /** The value stack; its top is the last element. */
    var stack: seq<Expr>
    var env: Env<Expr>
    var continueBlocks: seq<nat>
    var breakBlocks: seq<nat>
    var ir: Builder

    /** Codegen::Codegen: no value, no scope, no loop, an empty module. */
    constructor ()
      ensures stack == [] && env == [] && continueBlocks == [] && breakBlocks == []
      ensures ir == Builder([], [], 0, 0)
    {
      stack, env := [], [];
      continueBlocks, breakBlocks := [], [];
      ir := Builder([], [], 0, 0);
    }

    ghost function Context(): Ctx
      reads this
    {
      Ctx(env, continueBlocks, breakBlocks, ir)
    }

    /**
     * The state lowering starts from and keeps: an open scope frame, an
     * insertion block, and as many continue targets as break targets.
     */
    ghost predicate Ready()
      reads this
    {
      |env| > 0 && HasCursor(ir) && |continueBlocks| == |breakBlocks|
    }

    /** The value-stack and scope discipline of a successful visit of `a` (see Step). */
    twostate predicate Disciplined(a: Ast)
      reads this
    {
      Step(old(Context()), old(stack), Context(), stack, a)
    }

    /*
     * The scope environment
     */

    /** getvar: scans the frames from the innermost outwards. */
    method GetVar(name: string) returns (r: Option<Expr>)
      ensures r == Lookup(env, name)
    {
      var i := |env|;
      assert env[..i] == env;
      while i > 0
        invariant 0 <= i <= |env|
        invariant Lookup(env[..i], name) == Lookup(env, name)
      {
        LookupPrefix(env, i, name);
        i := i - 1;
        if name in env[i] {
          return Some(env[i][name]);
        }
      }
      return None;
    }

    /** addvar: binds in the innermost frame, keeping an existing binding of the name. */
    method AddVar(name: string, v: Expr)
      requires |env| > 0
      modifies this`env
      ensures env == Bind(old(env), name, v)
    {
      var top := env[|env| - 1];
      if name !in top {
        env := env[..|env| - 1] + [top[name := v]];
      }
    }

    /** push_scope: opens an empty innermost frame. */
    method PushScope()
      modifies this`env
      ensures env == old(env) + [map[]]
    {
      env := env + [map[]];
    }

    /** pop_scope: drops the innermost frame. */
    method PopScope()
      requires |env| > 0
      modifies this`env
      ensures env == old(env)[..|old(env)| - 1]
    {
      env := env[..|env| - 1];
    }

    /** Takes the top of the value stack, or None when the stack is empty. */
    method Pop() returns (e: Option<Expr>)
      modifies this`stack
      ensures |old(stack)| == 0 ==> e.None? && stack == old(stack)
      ensures |old(stack)| > 0 ==> e == Some(old(stack)[|old(stack)| - 1]) && stack == old(stack)[..|old(stack)| - 1]
    {
      if |stack| == 0 {
        return None;
      }
      e := Some(stack[|stack| - 1]);
      stack := stack[..|stack| - 1];
    }


    /*
     * Dispatch
     */

    /** Node::accept: the visit handler of the node's kind. */
    method Lower(a: Ast) returns (o: Outcome<CgError>)
      requires Ready()
      modifies this
      ensures Ready()
      ensures o.Pass? ==> Disciplined(a)
      ensures o.Pass? && a.Function? ==>
                a.ret.Some? && |stack| > 0 && stack[|stack| - 1] == FunctionValue(a, |old(ir.funcs)|)
      decreases a, 3
    {
      match a
      case True => o := VisitBool(a);
      case False => o := VisitBool(a);
      case Integer(_) => o := VisitInteger(a);
      case Real(_) => o := VisitReal(a);
      case Str(_) => o := VisitString(a);
      case Variable(_) => o := VisitVariable(a);
      case VarDecl(_, _) =>
        ghost var v, slot;
        o, v, slot := VisitVarDecl(a);
      case FuncDecl(_, _) =>
        ghost var v;
        o, v := VisitFuncDecl(a);
      case Assign(_, _) => o := VisitAssign(a);
      case Unary(_, _) => o := VisitUnary(a);
      case Binary(_, _, _) => o := VisitBinary(a);
      case And(_, _) => o := VisitAnd(a);
      case Or(_, _) => o := VisitOr(a);
      case IfElse(_, _, _) => o := VisitIfElse(a);
      case While(_, _) => o := VisitWhile(a);
      case For(_, _, _) => o := VisitFor(a);
      case Break => o := VisitBreak(a);
      case Continue => o := VisitContinue(a);
      case Return(_) => o := VisitReturn(a);
      case Function(_, _, _) => o := VisitFunction(a);
      case Call(_, _) => o := VisitCall(a);
      case Stub => o := Pass;
    }

    /**
     * The pattern every handler uses for a child whose value it needs:
     * lower the child, then take the value it left on top of the stack.
     * For a well-formed expression the stack and the scopes end as they began.
     */
    method LowerValue(e: Ast) returns (r: Result<Expr, CgError>)
      requires Ready()
      modifies this
      ensures Ready()
      ensures r.Ok? ==> Kept(old(Context()), Context())
      ensures r.Ok? && WellFormed(e) && Net(e) == 1 ==> stack == old(stack) && env == old(env)
      ensures r.Ok? && e.Function? ==> e.ret.Some? && r.value == FunctionValue(e, |old(ir.funcs)|)
      decreases e, 4
    {
      ghost var s0 := stack;
      var o := Lower(e);
      if o.Fail? {
        return Err(o.error);
      }
      ghost var s1 := stack;
      var v := Pop();
      if v.None? {
        return Err(StackUnderflow);
      }
      if WellFormed(e) && Net(e) == 1 {
        assert stack == s1[..|s0|] == s0;
      }
      r := Ok(v.value);
    }

    /*
     * Literals and variables
     */

    /** True and False: push a constant tagged "Bool" with the 1-bit type. */
    method VisitBool(a: Ast) returns (o: Outcome<CgError>)
      requires a.True? || a.False?
      modifies this`stack
      ensures o.Pass? && stack == old(stack) + [Expr("Bool", I1, BoolConst(a.True?))]
      ensures Disciplined(a)
    {
      stack := stack + [Expr("Bool", I1, BoolConst(a.True?))];
      o := Pass;
    }

    /** Integer: pushes the literal's low 32 bits, tagged "Int" with the 32-bit type. */
    method VisitInteger(a: Ast) returns (o: Outcome<CgError>)
      requires a.Integer?
      modifies this`stack
      ensures o.Pass? && stack == old(stack) + [Expr("Int", I32, IntConst(Wrap32(a.ival as int)))]
      ensures Disciplined(a)
    {
      stack := stack + [Expr("Int", I32, IntConst(Wrap32(a.ival as int)))];
      o := Pass;
    }

    /** Real: pushes the constant, tagged "Float" with the float type. */
    method VisitReal(a: Ast) returns (o: Outcome<CgError>)
      requires a.Real?
      modifies this`stack
      ensures o.Pass? && stack == old(stack) + [Expr("Float", F32, FloatConst(a.rval))]
      ensures Disciplined(a)
    {
      stack := stack + [Expr("Float", F32, FloatConst(a.rval))];
      o := Pass;
    }

    /** String: a global string and a pointer to its first byte, tagged "String". */
    method VisitString(a: Ast) returns (o: Outcome<CgError>)
      requires a.Str? && Ready()
      modifies this`stack, this`ir
      ensures Ready() && o.Pass?
      ensures var n := old(ir.nextReg);
        && stack == old(stack) + [Expr("String", I8Ptr, Reg(n + 1))]
        && ir == Emit(Fresh(Emit(Fresh(old(ir)), GlobalString(n, a.sval))), ElementPtr(n + 1, Reg(n)))
      ensures Disciplined(a)
    {
      var g := ir.nextReg;
      ir := Emit(Fresh(ir), GlobalString(g, a.sval));
      var p := ir.nextReg;
      ir := Emit(Fresh(ir), ElementPtr(p, Reg(g)));
      stack := stack + [Expr("String", I8Ptr, Reg(p))];
      o := Pass;
    }

    /**
     * Variable: loads from the binding's value and pushes the result with
     * the binding's tag and type; an unbound name is an error.
     */
    method VisitVariable(a: Ast) returns (o: Outcome<CgError>)
      requires a.Variable? && Ready()
      modifies this`stack, this`ir
      ensures Ready()
      ensures Lookup(old(env), a.name).None? ==>
                o == Fail(VariableNotFound(a.name)) && stack == old(stack) && ir == old(ir)
      ensures Lookup(old(env), a.name).Some? ==>
                var b, n := Lookup(old(env), a.name).value, old(ir.nextReg);
                && o.Pass?
                && stack == old(stack) + [Expr(b.tag, b.ty, Reg(n))]
                && ir == Emit(Fresh(old(ir)), Load(n, b.val))
      ensures o.Pass? ==> Disciplined(a)
    {
      var b := GetVar(a.name);
      if b.None? {
        return Fail(VariableNotFound(a.name));
      }
      var n := ir.nextReg;
      ir := Emit(Fresh(ir), Load(n, b.value.val));
      stack := stack + [Expr(b.value.tag, b.value.ty, Reg(n))];
      o := Pass;
    }

    /*
     * Declarations and assignment
     */

    /**
     * VarDecl: lowers and pops the initializer's value `v`, and binds the
     * name to `slot`: the newest value number, allocated with `v`'s type
     * and holding `v`, tagged as `v` is.
     */
    method VisitVarDecl(a: Ast) returns (o: Outcome<CgError>, ghost v: Expr, ghost slot: Expr)
      requires a.VarDecl? && Ready()
      modifies this
      ensures Ready()
      ensures o.Pass? ==> Disciplined(a) && a.declName in env[|env| - 1]
      ensures o.Pass? && WellFormed(a) ==> env == Bind(old(env), a.declName, slot)
      ensures o.Pass? ==> ir.nextReg > 0 && slot == Expr(v.tag, v.ty, Reg(ir.nextReg - 1))
      ensures o.Pass? ==> EndsWith(ir.blocks[ir.cursor].instrs, [Alloca(ir.nextReg - 1, v.ty), Store(v.val, slot.val)])
      ensures o.Pass? && a.init.Function? ==> a.init.ret.Some? && v == FunctionValue(a.init, |old(ir.funcs)|)
      decreases a, 2
    {
      ghost var c0 := Context();
      var r := LowerValue(a.init);
      if r.Err? {
        v, slot := Expr("", I1, BoolConst(false)), Expr("", I1, BoolConst(false));
        return Fail(r.error), v, slot;
      }
      ghost var c1 := Context();
      v, slot := r.value, Expr(r.value.tag, r.value.ty, Reg(ir.nextReg));
      Declare(a.declName, r.value);
      KeptTrans(c0, c1, Context());
      o := Pass;
    }

    /** The end of VarDecl: a slot of the value's type, the value stored into it, the name bound to the slot. */
    method Declare(name: string, v: Expr)
      requires Ready()
      modifies this`ir, this`env
      ensures Ready() && Kept(old(Context()), Context())
      ensures var n := old(ir.nextReg);
        && ir == Emit(Emit(Fresh(old(ir)), Alloca(n, v.ty)), Store(v.val, Reg(n)))
        && env == Bind(old(env), name, Expr(v.tag, v.ty, Reg(n)))
    {
      var n := ir.nextReg;
      ir := Emit(Fresh(ir), Alloca(n, v.ty));
      ir := Emit(ir, Store(v.val, Reg(n)));
      BindExtends(env, name, Expr(v.tag, v.ty, Reg(n)));
      AddVar(name, Expr(v.tag, v.ty, Reg(n)));
    }

    /**
     * FuncDecl: lowers and pops the function, and binds the name to the
     * popped value `f`; for a Function node that is the new function.
     */
    method VisitFuncDecl(a: Ast) returns (o: Outcome<CgError>, ghost f: Expr)
      requires a.FuncDecl? && Ready()
      modifies this
      ensures Ready()
      ensures o.Pass? ==> Disciplined(a) && a.funcName in env[|env| - 1]
      ensures o.Pass? && WellFormed(a) ==> env == Bind(old(env), a.funcName, f)
      ensures o.Pass? && a.func.Function? ==> a.func.ret.Some? && f == FunctionValue(a.func, |old(ir.funcs)|)
      decreases a, 2
    {
      ghost var c0 := Context();
      var v := LowerValue(a.func);
      if v.Err? {
        f := Expr("", I1, BoolConst(false));
        return Fail(v.error), f;
      }
      f := v.value;
      ghost var c1 := Context();
      BindExtends(env, a.funcName, v.value);
      AddVar(a.funcName, v.value);
      KeptTrans(c0, c1, Context());
      o := Pass;
    }

    /**
     * Assign: lowers and pops the right-hand side once, then for each
     * target lowers and pops it, requires the right-hand side's type tag,
     * and stores the right-hand side into the target's value.
     */
    method VisitAssign(a: Ast) returns (o: Outcome<CgError>)
      requires a.Assign? && Ready()
      modifies this
      ensures Ready()
      ensures o.Pass? ==> Disciplined(a)
      decreases a, 2
    {
      ghost var c0, s0 := Context(), stack;
      var r := LowerValue(a.rhs);
      if r.Err? {
        return Fail(r.error);
      }
      ghost var c1 := Context();
      var i := 0;
      while i < |a.vars|
        invariant 0 <= i <= |a.vars|
        invariant Ready() && Kept(c1, Context())
        invariant WellFormed(a) ==> stack == s0 && env == c0.env
      {
        ghost var c2 := Context();
        var l := LowerValue(a.vars[i]);
        if l.Err? {
          return Fail(l.error);
        }
        o := StoreChecked(r.value, l.value);
        if o.Fail? {
          return;
        }
        KeptTrans(c1, c2, Context());
        i := i + 1;
      }
      KeptTrans(c0, c1, Context());
      o := Pass;
    }

    /** One target of Assign: its tag must be the right-hand side's; then the right-hand side is stored into it. */
    method StoreChecked(r: Expr, l: Expr) returns (o: Outcome<CgError>)
      requires Ready()
      modifies this`ir
      ensures Ready() && |ir.blocks| == old(|ir.blocks|)
      ensures l.tag != r.tag ==> o == Fail(TypeMismatch(r.tag, l.tag)) && ir == old(ir)
      ensures l.tag == r.tag ==> o.Pass? && ir == Emit(old(ir), Store(r.val, l.val))
    {
      if l.tag != r.tag {
        return Fail(TypeMismatch(r.tag, l.tag));
      }
      ir := Emit(ir, Store(r.val, l.val));
      o := Pass;
    }

    /*
     * Operators
     */

    /** Unary: lowers and pops the operand, then applies the operator table to it. */
    method VisitUnary(a: Ast) returns (o: Outcome<CgError>)
      requires a.Unary? && Ready()
      modifies this
      ensures Ready()
      ensures o.Pass? ==> Disciplined(a)
      decreases a, 2
    {
      ghost var c0 := Context();
      var v := LowerValue(a.down);
      if v.Err? {
        return Fail(v.error);
      }
      ghost var c1 := Context();
      o := ApplyUnary(v.value, a.uop);
      if o.Pass? {
        KeptTrans(c0, c1, Context());
      }
    }

    /**
     * The end of Unary: pushes the result of the operator the table selects
     * for the operand's tag, keeping the tag: an xor with all ones for "~"
     * on "Int", a logical not for "not" on "Bool"; any other pair is an error.
     */
    method ApplyUnary(v: Expr, op: string) returns (o: Outcome<CgError>)
      requires Ready()
      modifies this`stack, this`ir
      ensures Ready() && |ir.blocks| == old(|ir.blocks|)
      ensures var n := old(ir.nextReg);
        match UnaryDispatch(v.tag, op)
        case None => o == Fail(Unsupported(op)) && stack == old(stack) && ir == old(ir)
        case Some((ty, kind)) =>
          && o.Pass?
          && stack == old(stack) + [Expr(v.tag, ty, Reg(n))]
          && ir == Emit(Fresh(old(ir)),
                        if kind == XorAllOnes then Arith(n, XorOp, v.val, IntConst(Two32 - 1)) else Not(n, v.val))
    {
      match UnaryDispatch(v.tag, op)
      case None =>
        o := Fail(Unsupported(op));
      case Some((ty, kind)) =>
        var n := ir.nextReg;
        ir := Emit(Fresh(ir), if kind == XorAllOnes then Arith(n, XorOp, v.val, IntConst(Two32 - 1)) else Not(n, v.val));
        stack := stack + [Expr(v.tag, ty, Reg(n))];
        o := Pass;
    }

    /** Binary: lowers the left then the right operand, then applies the operator table to the top two values. */
    method VisitBinary(a: Ast) returns (o: Outcome<CgError>)
      requires a.Binary? && Ready()
      modifies this
      ensures Ready()
      ensures o.Pass? ==> Disciplined(a)
      decreases a, 2
    {
      ghost var c0, s0 := Context(), stack;
      o := LowerOperands(a);
      if o.Fail? {
        return;
      }
      if |stack| < 2 {
        return Fail(StackUnderflow);
      }
      ghost var c1, s1 := Context(), stack;
      o := ApplyBinary(a.bop);
      if o.Pass? {
        if WellFormed(a) {
          assert stack[..|s0|] == s1[..|s0|] == s0;
        }
        KeptTrans(c0, c1, Context());
      }
    }

    /** The operands of Binary, And and Or: the left one lowered, then the right one. */
    method LowerOperands(a: Ast) returns (o: Outcome<CgError>)
      requires (a.Binary? || a.And? || a.Or?) && Ready()
      modifies this
      ensures Ready()
      ensures o.Pass? ==> Kept(old(Context()), Context())
      ensures o.Pass? && WellFormed(a) ==> Pushed(old(stack), stack, 2) && env == old(env)
      decreases a, 1
    {
      ghost var c0, s0 := Context(), stack;
      o := Lower(a.left);
      if o.Fail? {
        return;
      }
      ghost var c1, s1 := Context(), stack;
      o := LowerRight(a);
      if o.Pass? {
        KeptTrans(c0, c1, Context());
        if WellFormed(a) {
          PushedTrans(s0, s1, stack, 1, 1);
        }
      }
    }

    /** The right operand of Binary, And and Or. */
    method LowerRight(a: Ast) returns (o: Outcome<CgError>)
      requires (a.Binary? || a.And? || a.Or?) && Ready()
      modifies this
      ensures Ready()
      ensures o.Pass? ==> Kept(old(Context()), Context())
      ensures o.Pass? && WellFormed(a) ==> Pushed(old(stack), stack, 1) && env == old(env)
      decreases a, 0
    {
      o := Lower(a.right);
    }

    /**
     * The end of Binary: pops the right operand (the top) and then the left
     * one, and pushes the result under the right operand's tag.
     */
    method ApplyBinary(op: string) returns (o: Outcome<CgError>)
      requires Ready() && |stack| >= 2
      modifies this`stack, this`ir
      ensures Ready() && |ir.blocks| == old(|ir.blocks|)
      ensures var r, l := old(stack)[|old(stack)| - 1], old(stack)[|old(stack)| - 2];
        var rest, n := old(stack)[..|old(stack)| - 2], old(ir.nextReg);
        match BinaryDispatch(l.tag, r.tag, op)
        case None => o == Fail(Unsupported(op)) && stack == rest && ir == old(ir)
        case Some((ty, opc)) =>
          o.Pass? && stack == rest + [Expr(r.tag, ty, Reg(n))] && ir == Emit(Fresh(old(ir)), Arith(n, opc, l.val, r.val))
    {
      var r, l := stack[|stack| - 1], stack[|stack| - 2];
      stack := stack[..|stack| - 2];
      match BinaryDispatch(l.tag, r.tag, op)
      case None =>
        o := Fail(Unsupported(op));
      case Some((ty, opc)) =>
        var n := ir.nextReg;
        ir := Emit(Fresh(ir), Arith(n, opc, l.val, r.val));
        stack := stack + [Expr(r.tag, ty, Reg(n))];
        o := Pass;
    }

    /** And: lowers both operands, then joins them with a branch and a phi (see Join). */
    method VisitAnd(a: Ast) returns (o: Outcome<CgError>)
      requires a.And? && Ready()
      modifies this
      ensures Ready()
      ensures o.Pass? ==> Disciplined(a)
      decreases a, 2
    {
      ghost var c0, s0 := Context(), stack;
      o := LowerOperands(a);
      if o.Fail? {
        return;
      }
      if |stack| < 2 {
        return Fail(StackUnderflow);
      }
      ghost var c1, s1 := Context(), stack;
      o := JoinLogical(true);
      if o.Pass? {
        if WellFormed(a) {
          assert stack[..|s0|] == s1[..|s0|] == s0;
          assert Pushed(s0, stack, Net(a)) && env == c0.env;
        }
        KeptTrans(c0, c1, Context());
      }
    }

    /** Or: lowers both operands, then joins them with a branch and a phi (see Join). */
    method VisitOr(a: Ast) returns (o: Outcome<CgError>)
      requires a.Or? && Ready()
      modifies this
      ensures Ready()
      ensures o.Pass? ==> Disciplined(a)
      decreases a, 2
    {
      ghost var c0, s0 := Context(), stack;
      o := LowerOperands(a);
      if o.Fail? {
        return;
      }
      if |stack| < 2 {
        return Fail(StackUnderflow);
      }
      ghost var c1, s1 := Context(), stack;
      o := JoinLogical(false);
      if o.Pass? {
        if WellFormed(a) {
          assert stack[..|s0|] == s1[..|s0|] == s0;
          assert Pushed(s0, stack, Net(a)) && env == c0.env;
        }
        KeptTrans(c0, c1, Context());
      }
    }

    /**
     * The end of And (isAnd) and Or: pops the top of the stack (the right
     * operand, as written) as `first` and then the left one as `second`,
     * requires both tagged "Bool", adds the blocks of Join and pushes its
     * phi, tagged "Bool".
     */
    method JoinLogical(isAnd: bool) returns (o: Outcome<CgError>)
      requires Ready() && |stack| >= 2
      modifies this`stack, this`ir
      ensures Ready() && |ir.blocks| >= old(|ir.blocks|)
      ensures var first, second := old(stack)[|old(stack)| - 1], old(stack)[|old(stack)| - 2];
        && (first.tag != "Bool" ==> o == Fail(NotBool(first.tag)) && ir == old(ir))
        && (first.tag == "Bool" && second.tag != "Bool" ==> o == Fail(NotBool(second.tag)) && ir == old(ir))
        && (first.tag == "Bool" && second.tag == "Bool" ==>
              && o.Pass?
              && stack == old(stack)[..|old(stack)| - 2] + [Expr("Bool", I1, Reg(old(ir.nextReg)))]
              && ir == Join(old(ir), isAnd, first.val, second.val))
    {
      var first := Pop();
      if first.value.tag != "Bool" {
        return Fail(NotBool(first.value.tag));
      }
      var second := Pop();
      if second.value.tag != "Bool" {
        return Fail(NotBool(second.value.tag));
      }
      var n := ir.nextReg;
      ir := Join(ir, isAnd, first.value.val, second.value.val);
      stack := stack + [Expr("Bool", I1, Reg(n))];
      o := Pass;
    }

    /*
     * Control flow
     */

    /**
     * Lowers a branch or loop body in its own scope frame, then ends the
     * block lowering stopped in with a branch to `next`.
     */
    method LowerScoped(body: Ast, next: nat) returns (o: Outcome<CgError>)
      requires Ready()
      modifies this
      ensures Ready()
      ensures o.Pass? ==> Kept(old(Context()), Context()) && env == old(env)
      ensures o.Pass? ==> Last(ir.blocks[ir.cursor]) == Some(Br(next))
      ensures o.Pass? && WellFormed(body) && Net(body) == 0 ==> stack == old(stack)
      decreases body, 4
    {
      ghost var e0 := env;
      PushScope();
      o := Lower(body);
      if o.Fail? {
        return;
      }
      ScopeRestores(e0, env);
      PopScope();
      ir := Emit(ir, Br(next));
    }

    /**
     * IfElse: lowers and pops the condition, which must be tagged "Bool",
     * then lowers the branches.
     */
    method VisitIfElse(a: Ast) returns (o: Outcome<CgError>)
      requires a.IfElse? && Ready()
      modifies this
      ensures Ready()
      ensures o.Pass? ==> Disciplined(a)
      decreases a, 2
    {
      ghost var c0 := Context();
      var c := LowerValue(a.cond);
      if c.Err? {
        return Fail(c.error);
      }
      o := CheckCond(c.value);
      if o.Fail? {
        return;
      }
      ghost var c1 := Context();
      ghost var exit;
      o, exit := Branches(a, c.value.val);
      if o.Pass? {
        KeptTrans(c0, c1, Context());
      }
    }

    /**
     * The branches of IfElse: the blocks of IfHead; each branch lowered in
     * its own scope frame and ending with a branch to the end block;
     * lowering goes on in the end block.
     */
    method Branches(a: Ast, cond: Operand) returns (o: Outcome<CgError>, ghost exit: nat)
      requires a.IfElse? && Ready()
      modifies this
      ensures Ready()
      ensures o.Pass? ==> Kept(old(Context()), Context()) && env == old(env)
      ensures o.Pass? && WellFormed(a) ==> stack == old(stack)
      ensures o.Pass? ==> ir.cursor == old(|ir.blocks|) + (if a.orelse.Some? then 2 else 1)
      ensures o.Pass? ==> exit < |ir.blocks| && Last(ir.blocks[exit]) == Some(Br(ir.cursor))
      decreases a, 1
    {
      exit := 0;
      ghost var c0 := Context();
      var t := |ir.blocks|;
      ir := IfHead(ir, cond, a.orelse.Some?);
      var end := |ir.blocks| - 1;
      ghost var c1 := Context();
      o := LowerScoped(a.body, end);
      if o.Fail? {
        return;
      }
      exit := ir.cursor;
      KeptTrans(c0, c1, Context());
      if a.orelse.Some? {
        ir := SetInsertPoint(ir, t + 1);
        ghost var c2 := Context();
        o := LowerScoped(a.orelse.value, end);
        if o.Fail? {
          return;
        }
        exit := ir.cursor;
        KeptTrans(c0, c2, Context());
      }
      ir := SetInsertPoint(ir, end);
    }

    /**
     * While, as written: lowers and pops the condition once, before the
     * loop, requiring it tagged "Bool", then builds the loop.
     */
    method VisitWhile(a: Ast) returns (o: Outcome<CgError>)
      requires a.While? && Ready()
      modifies this
      ensures Ready()
      ensures o.Pass? ==> Disciplined(a)
      decreases a, 2
    {
      ghost var c0 := Context();
      var c := LowerValue(a.cond);
      if c.Err? {
        return Fail(c.error);
      }
      o := CheckCond(c.value);
      if o.Fail? {
        return;
      }
      ghost var c1 := Context();
      ghost var backEdge;
      o, backEdge := Loop(a, c.value.val);
      if o.Pass? {
        KeptTrans(c0, c1, Context());
      }
    }

    /**
     * The loop of While: the blocks of LoopHead, with the start block pushed
     * as continue target and the end block as break target; the body
     * lowered in its own scope frame, ending with a branch back to the
     * start block; lowering goes on in the end block, both targets popped.
     */
    method Loop(a: Ast, cond: Operand) returns (o: Outcome<CgError>, ghost backEdge: nat)
      requires a.While? && Ready()
      modifies this
      ensures Ready()
      ensures o.Pass? ==> Kept(old(Context()), Context()) && env == old(env)
      ensures o.Pass? && WellFormed(a) ==> stack == old(stack)
      ensures o.Pass? ==> ir.cursor == old(|ir.blocks|) + 2
      ensures o.Pass? ==> backEdge < |ir.blocks| && Last(ir.blocks[backEdge]) == Some(Br(old(|ir.blocks|)))
      decreases a, 1
    {
      backEdge := 0;
      var start := |ir.blocks|;
      ir := LoopHead(ir, cond);
      ghost var cont0, brk0 := continueBlocks, breakBlocks;
      continueBlocks := continueBlocks + [start];
      breakBlocks := breakBlocks + [start + 2];
      o := LowerLoopBody(a.body, start, cont0, brk0);
      if o.Fail? {
        return;
      }
      backEdge := ir.cursor;
      ir := SetInsertPoint(ir, start + 2);
      continueBlocks := continueBlocks[..|continueBlocks| - 1];
      breakBlocks := breakBlocks[..|breakBlocks| - 1];
    }

    /**
     * The body of While, lowered while this loop's targets are the innermost
     * ones: `start` ("while_start") on top of the continue stack and
     * `start + 2` ("while_end") on top of the break stack. Every visit keeps
     * both stacks (Kept), so a Break anywhere in the body, outside a nested
     * loop, branches to "while_end", and so does a Continue, as written.
     */
    method LowerLoopBody(body: Ast, start: nat, ghost cont0: seq<nat>, ghost brk0: seq<nat>) returns (o: Outcome<CgError>)
      requires Ready() && continueBlocks == cont0 + [start] && breakBlocks == brk0 + [start + 2]
      modifies this
      ensures Ready()
      ensures o.Pass? ==> continueBlocks == cont0 + [start] && breakBlocks == brk0 + [start + 2]
      ensures o.Pass? ==> Kept(old(Context()), Context()) && env == old(env)
      ensures o.Pass? && WellFormed(body) && Net(body) == 0 ==> stack == old(stack)
      ensures o.Pass? ==> Last(ir.blocks[ir.cursor]) == Some(Br(start))
      decreases body, 5
    {
      o := LowerScoped(body, start);
    }

    /**
     * For: a loop variable already bound in any frame is an error; otherwise
     * lowers the iterable and leaves it on the stack. The loop itself is
     * compiled out in the source.
     */
    method VisitFor(a: Ast) returns (o: Outcome<CgError>)
      requires a.For? && Ready()
      modifies this
      ensures Ready()
      ensures Lookup(old(env), a.vname).Some? ==>
                o == Fail(Shadowed(a.vname)) && stack == old(stack) && Context() == old(Context())
      ensures o.Pass? ==> Lookup(old(env), a.vname).None? && Disciplined(a)
      decreases a, 2
    {
      var b := GetVar(a.vname);
      if b.Some? {
        return Fail(Shadowed(a.vname));
      }
      o := Lower(a.iterable);
      if o.Fail? {
        return;
      }
      if |stack| < 1 {
        return Fail(StackUnderflow);
      }
    }

    /** Break: branches to the innermost break target; outside a loop it is an error. */
    method VisitBreak(a: Ast) returns (o: Outcome<CgError>)
      requires a.Break? && Ready()
      modifies this`ir
      ensures Ready()
      ensures |breakBlocks| == 0 ==> o == Fail(NoEnclosingLoop) && ir == old(ir)
      ensures |breakBlocks| > 0 ==> o.Pass? && ir == Emit(old(ir), Br(breakBlocks[|breakBlocks| - 1]))
      ensures o.Pass? ==> Disciplined(a)
    {
      if |breakBlocks| == 0 {
        return Fail(NoEnclosingLoop);
      }
      ir := Emit(ir, Br(breakBlocks[|breakBlocks| - 1]));
      o := Pass;
    }

    /**
     * Continue, as written: requires an enclosing loop but branches to the
     * innermost break target, not to the continue target.
     */
    method VisitContinue(a: Ast) returns (o: Outcome<CgError>)
      requires a.Continue? && Ready()
      modifies this`ir
      ensures Ready()
      ensures |continueBlocks| == 0 ==> o == Fail(NoEnclosingLoop) && ir == old(ir)
      ensures |continueBlocks| > 0 ==> o.Pass? && ir == Emit(old(ir), Br(breakBlocks[|breakBlocks| - 1]))
      ensures o.Pass? ==> Disciplined(a)
    {
      if |continueBlocks| == 0 {
        return Fail(NoEnclosingLoop);
      }
      ir := Emit(ir, Br(breakBlocks[|breakBlocks| - 1]));
      o := Pass;
    }

    /** Return: lowers and pops the value and returns it (unchecked against the signature), or returns void. */
    method VisitReturn(a: Ast) returns (o: Outcome<CgError>)
      requires a.Return? && Ready()
      modifies this
      ensures Ready()
      ensures a.e.None? ==> o.Pass? && ir == Emit(old(ir), RetVoid) && stack == old(stack) && env == old(env)
      ensures a.e.Some? && o.Pass? ==> Last(ir.blocks[ir.cursor]).Some? && Last(ir.blocks[ir.cursor]).value.Ret?
      ensures o.Pass? ==> Disciplined(a)
      decreases a, 2
    {
      if a.e.None? {
        ir := Emit(ir, RetVoid);
        return Pass;
      }
      var v := LowerValue(a.e.value);
      if v.Err? {
        return Fail(v.error);
      }
      ir := Emit(ir, Ret(v.value.val));
      o := Pass;
    }

    /*
     * Functions and calls
     */

    /**
     * Function: a prototype without a return type is an error. Otherwise
     * opens the function (see OpenFunction), lowers the body, closes the
     * parameters' scope frame and pushes the function, tagged with the
     * prototype's type name and typed with its translated types. The
     * insertion point stays in the function.
     */
    method VisitFunction(a: Ast) returns (o: Outcome<CgError>)
      requires a.Function? && Ready()
      modifies this
      ensures Ready()
      ensures a.ret.None? ==> o == Fail(NoReturnType) && stack == old(stack) && Context() == old(Context())
      ensures o.Pass? ==> a.ret.Some? && Disciplined(a)
      ensures o.Pass? ==> |stack| > 0 && stack[|stack| - 1] == FunctionValue(a, |old(ir.funcs)|)
      decreases a, 2
    {
      if a.ret.None? {
        return Fail(NoReturnType);
      }
      ghost var c0, s0 := Context(), stack;
      var fty := FuncT(ParamTypes(a.params), Translate(TypeName(a.ret.value)));
      var fid;
      o, fid := LowerFunctionBody(a, fty);
      if o.Fail? {
        return;
      }
      stack := stack + [Expr(TypeName(FuncType(a.params, a.ret)), fty, FuncRef(fid))];
      Settled(c0, s0, Context(), stack, a);
    }

    /**
     * The function `fid` of Function: opened with its parameters bound (see
     * OpenFunction), its body lowered in the parameters' scope frame, which
     * is then closed.
     */
    method LowerFunctionBody(a: Ast, fty: LType) returns (o: Outcome<CgError>, fid: nat)
      requires a.Function? && Ready() && fty.FuncT? && fty.params == ParamTypes(a.params)
      modifies this
      ensures Ready() && fid == |old(ir.funcs)|
      ensures o.Pass? ==> Kept(old(Context()), Context()) && env == old(env)
      ensures o.Pass? && WellFormed(a) ==> stack == old(stack)
      decreases a, 1
    {
      ghost var e0 := env;
      fid := OpenFunction(fty, a.params);
      ghost var c1 := Context();
      o := Lower(a.body);
      if o.Fail? {
        return;
      }
      ExtendsTrans(e0 + [map[]], c1.env, env);
      ScopeRestores(e0, env);
      PopScope();
    }

    /**
     * The start of Function: a new function of type `fty` with an entry
     * block, the insertion point moved there, a new scope frame, and each
     * parameter bound in it to a slot of its translated type holding its
     * argument, tagged with the parameter's type name.
     */
    method OpenFunction(fty: LType, ps: seq<Param>) returns (fid: nat)
      requires Ready() && fty.FuncT? && fty.params == ParamTypes(ps)
      modifies this`ir, this`env
      ensures Ready() && fid == |old(ir.funcs)| && ir.funcs == old(ir.funcs) + [fty]
      ensures ir.blocks[ir.cursor] == Block(Some(fid), "entry", ir.blocks[ir.cursor].instrs)
      ensures |ir.blocks| == old(|ir.blocks|) + 1
      ensures ir.blocks[ir.cursor].instrs == ParamSlots(fid, fty.params, old(ir.nextReg), |ps|)
      ensures ir.nextReg == old(ir.nextReg) + |ps|
      ensures Extends(old(env) + [map[]], env)
      ensures forall i :: 0 <= i < |ps| ==> ps[i].name in env[|env| - 1]
      ensures env[|env| - 1] == BoundFrame(map[], ParamNames(ps), ParamTags(ps), fty.params, old(ir.nextReg), |ps|)
    {
      fid := |ir.funcs|;
      ir := CreateFunction(ir, fty);
      var entry := |ir.blocks|;
      ir := CreateBlock(ir, Some(fid), "entry");
      ir := SetInsertPoint(ir, entry);
      PushScope();
      BindParams(fid, ParamNames(ps), ParamTags(ps), fty.params);
    }

    /** The parameter loop of Function. */
    method BindParams(fid: nat, names: seq<string>, tags: seq<string>, tys: seq<LType>)
      requires Ready() && |names| == |tags| == |tys|
      modifies this`ir, this`env
      ensures Ready() && Extends(old(env), env)
      ensures ir.funcs == old(ir.funcs) && ir.cursor == old(ir.cursor) && |ir.blocks| == old(|ir.blocks|)
      ensures ir.blocks[ir.cursor].fn == old(ir.blocks[ir.cursor].fn) && ir.blocks[ir.cursor].name == old(ir.blocks[ir.cursor].name)
      ensures ir.blocks[ir.cursor].instrs == old(ir.blocks[ir.cursor].instrs) + ParamSlots(fid, tys, old(ir.nextReg), |names|)
      ensures ir.nextReg == old(ir.nextReg) + |names|
      ensures forall j :: 0 <= j < |ir.blocks| && j != ir.cursor ==> ir.blocks[j] == old(ir.blocks[j])
      ensures forall i :: 0 <= i < |names| ==> names[i] in env[|env| - 1]
      ensures env[|env| - 1] == BoundFrame(old(env[|env| - 1]), names, tags, tys, old(ir.nextReg), |names|)
      ensures ParamsBound(old(env[|env| - 1]), env[|env| - 1], names, tags, tys, old(ir.nextReg), |names|)
    {
      ghost var n0, blk0, m0 := ir.nextReg, ir.blocks[ir.cursor], env[|env| - 1];
      for i := 0 to |names|
        invariant Ready() && Extends(old(env), env)
        invariant ir.funcs == old(ir.funcs) && ir.cursor == old(ir.cursor) && |ir.blocks| == old(|ir.blocks|)
        invariant ir.blocks[ir.cursor] == blk0.(instrs := blk0.instrs + ParamSlots(fid, tys, n0, i))
        invariant ir.nextReg == n0 + i
        invariant forall j :: 0 <= j < |ir.blocks| && j != ir.cursor ==> ir.blocks[j] == old(ir.blocks[j])
        invariant env[|env| - 1] == BoundFrame(m0, names, tags, tys, n0, i)
      {
        ghost var e := env;
        BindParam(fid, names, tags, tys, i, n0, blk0, m0);
        ExtendsTrans(old(env), e, env);
      }
      BoundFrameBinds(m0, names, tags, tys, n0, |names|);
      assert names[..|names|] == names;
    }

    /**
     * One iteration of the parameter loop, for parameter `i`: a slot of
     * type `tys[i]`, argument `i` stored there, and the parameter's name
     * bound to the slot tagged `tags[i]`; the entry block and the frame go
     * from the first `i` parameters to the first `i + 1`.
     */
    method BindParam(fid: nat, names: seq<string>, tags: seq<string>, tys: seq<LType>, i: nat,
                     ghost n0: nat, ghost blk0: Block, ghost m0: map<string, Expr>)
      requires Ready() && i < |names| == |tags| == |tys|
      requires ir.nextReg == n0 + i && ir.blocks[ir.cursor] == blk0.(instrs := blk0.instrs + ParamSlots(fid, tys, n0, i))
      requires env[|env| - 1] == BoundFrame(m0, names, tags, tys, n0, i)
      modifies this`ir, this`env
      ensures Ready() && Extends(old(env), env)
      ensures ir.funcs == old(ir.funcs) && ir.cursor == old(ir.cursor) && |ir.blocks| == old(|ir.blocks|)
      ensures ir.nextReg == n0 + i + 1 && ir.blocks[ir.cursor] == blk0.(instrs := blk0.instrs + ParamSlots(fid, tys, n0, i + 1))
      ensures env[|env| - 1] == BoundFrame(m0, names, tags, tys, n0, i + 1)
      ensures forall j :: 0 <= j < |ir.blocks| && j != ir.cursor ==> ir.blocks[j] == old(ir.blocks[j])
    {
      var n := ir.nextReg;
      ir := Emit(Fresh(ir), Alloca(n, tys[i]));
      ir := Emit(ir, Store(Arg(fid, i), Reg(n)));
      assert blk0.instrs + ParamSlots(fid, tys, n0, i + 1)
          == (blk0.instrs + ParamSlots(fid, tys, n0, i)) + [Alloca(n0 + i, tys[i]), Store(Arg(fid, i), Reg(n0 + i))];
      BindExtends(env, names[i], Expr(tags[i], tys[i], Reg(n)));
      AddVar(names[i], Expr(tags[i], tys[i], Reg(n)));
    }

    /**
     * Call: lowers and pops the callee, which must have a function type
     * with as many parameters as there are arguments (see CheckCallee);
     * lowers and pops the arguments (see LowerArgs); then calls the callee.
     */
    method VisitCall(a: Ast) returns (o: Outcome<CgError>)
      requires a.Call? && Ready()
      modifies this
      ensures Ready()
      ensures o.Pass? ==> Disciplined(a)
      decreases a, 2
    {
      ghost var c0, s0 := Context(), stack;
      var callee := LowerValue(a.callee);
      if callee.Err? {
        return Fail(callee.error);
      }
      o := CheckCallee(callee.value, |a.args|);
      if o.Fail? {
        return;
      }
      ghost var c1 := Context();
      o := CallWith(a, callee.value);
      if o.Pass? {
        KeptTrans(c0, c1, Context());
      }
    }

    /** The arguments and the call itself, once the callee has passed CheckCallee. */
    method CallWith(a: Ast, callee: Expr) returns (o: Outcome<CgError>)
      requires a.Call? && Ready() && CheckCallee(callee, |a.args|).Pass?
      modifies this
      ensures Ready()
      ensures o.Pass? ==> Kept(old(Context()), Context())
      ensures o.Pass? && WellFormed(a) ==> Pushed(old(stack), stack, 1) && env == old(env)
      decreases a, 1
    {
      ghost var c0 := Context();
      var args := LowerArgs(a, callee.ty.params);
      if args.Err? {
        return Fail(args.error);
      }
      ghost var c1 := Context();
      FinishCall(callee, args.value);
      KeptTrans(c0, c1, Context());
      o := Pass;
    }

    /**
     * The argument loop of Call: each argument lowered and popped in order;
     * the first whose LLVM type is not the parameter's stops lowering. On
     * success the values are the arguments', each of its parameter's type.
     */
    method LowerArgs(a: Ast, want: seq<LType>) returns (r: Result<seq<Expr>, CgError>)
      requires a.Call? && Ready() && |want| == |a.args|
      modifies this
      ensures Ready()
      ensures r.Ok? ==> |r.value| == |want| && forall i :: 0 <= i < |want| ==> r.value[i].ty == want[i]
      ensures r.Ok? ==> Kept(old(Context()), Context())
      ensures r.Ok? && WellFormed(a) ==> stack == old(stack) && env == old(env)
      decreases a, 0
    {
      ghost var c0 := Context();
      var vals: seq<Expr> := [];
      var i := 0;
      while i < |a.args|
        invariant 0 <= i <= |a.args| && |vals| == i
        invariant forall j :: 0 <= j < i ==> vals[j].ty == want[j]
        invariant Ready() && Kept(c0, Context())
        invariant WellFormed(a) ==> stack == old(stack) && env == old(env)
      {
        ghost var c1 := Context();
        var v := LowerValue(a.args[i]);
        if v.Err? {
          return Err(v.error);
        }
        KeptTrans(c0, c1, Context());
        if v.value.ty != want[i] {
          return Err(ArgumentType(i));
        }
        vals := vals + [v.value];
        i := i + 1;
      }
      r := Ok(vals);
    }

    /**
     * The end of Call: the call instruction, and its result pushed with the
     * return type name recovered from the callee's tag and the callee's
     * return type.
     */
    method FinishCall(callee: Expr, args: seq<Expr>)
      requires Ready() && callee.ty.FuncT?
      modifies this`stack, this`ir
      ensures Ready() && Kept(old(Context()), Context())
      ensures var n := old(ir.nextReg);
        && stack == old(stack) + [Expr(ReturnTypeName(callee.tag), callee.ty.ret, Reg(n))]
        && ir == Emit(Fresh(old(ir)), CallInstr(n, callee.val, Vals(args)))
    {
      var n := ir.nextReg;
      ir := Emit(Fresh(ir), CallInstr(n, callee.val, Vals(args)));
      stack := stack + [Expr(ReturnTypeName(callee.tag), callee.ty.ret, Reg(n))];
    }
  }

  /**
   * The value Function pushes for the function numbered `fid`: tagged with
   * the prototype's type name, typed with the translated parameter and
   * return types.
   */
  function FunctionValue(a: Ast, fid: nat): (v: Expr)
    requires a.Function? && a.ret.Some?
    ensures v.ty.FuncT? && |v.ty.params| == |a.params| && v.val == FuncRef(fid)
    ensures PlainList(a.params) ==> ReturnTypeName(v.tag) == TypeName(a.ret.value)
  {
    var v := Expr(TypeName(FuncType(a.params, a.ret)), FuncT(ParamTypes(a.params), Translate(TypeName(a.ret.value))), FuncRef(fid));
    assert PlainList(a.params) ==> ReturnTypeName(v.tag) == TypeName(a.ret.value) by {
      if PlainList(a.params) {
        ReturnTypeNameOfFuncType(a.params, a.ret);
      }
    }
    v
  }

  /** The check IfElse and While make on their condition: it must be tagged "Bool". */
  function CheckCond(cond: Expr): (o: Outcome<CgError>)
    ensures o.Pass? <==> cond.tag == "Bool"
    ensures o.Fail? ==> o.error == NotBool(cond.tag)
  {
    if cond.tag == "Bool" then Pass else Fail(NotBool(cond.tag))
  }

  /**
   * The checks Call makes on its callee: a function type, with as many
   * parameters as the call has arguments.
   */
  function CheckCallee(callee: Expr, nargs: nat): (o: Outcome<CgError>)
    ensures o.Pass? <==> callee.ty.FuncT? && |callee.ty.params| == nargs
    ensures !callee.ty.FuncT? ==> o == Fail(NotAFunction)
    ensures callee.ty.FuncT? && |callee.ty.params| != nargs ==> o == Fail(ArityMismatch(|callee.ty.params|, nargs))
  {
    if !callee.ty.FuncT? then Fail(NotAFunction)
    else if |callee.ty.params| != nargs then Fail(ArityMismatch(|callee.ty.params|, nargs))
    else Pass
  }

  /** The IR values of a list of stack values, in order. */
  function Vals(es: seq<Expr>): (vs: seq<Operand>)
    ensures |vs| == |es| && forall i :: 0 <= i < |es| ==> vs[i] == es[i].val
  {
    if es == [] then [] else [es[0].val] + Vals(es[1..])
  }

  /**
   * The blocks And (isAnd) and Or add once both operands are lowered: the
   * current block `lhs` ends with a conditional branch on `first` (to a new
   * rhs block, or to a new end block, in And's order or Or's); the rhs
   * block only branches to the end block; the end block, where lowering
   * goes on, starts with a 1-bit phi of `first` from `lhs` and `second`
   * from the rhs block. And's end block belongs to no function. No other
   * block changes.
   */
  function Join(b: Builder, isAnd: bool, first: Operand, second: Operand): (r: Builder)
    requires HasCursor(b)
    ensures HasCursor(r) && |r.blocks| == |b.blocks| + 2
  {
    var lhs, rhs, end := b.cursor, |b.blocks|, |b.blocks| + 1;
    var fn := CurrentFn(b);
    var branch := if isAnd then CondBr(first, rhs, end) else CondBr(first, end, rhs);
    Builder(
      b.funcs,
      b.blocks[lhs := b.blocks[lhs].(instrs := b.blocks[lhs].instrs + [branch])]
        + [Block(fn, if isAnd then "and_rhs" else "or_rhs", [Br(end)]),
           Block(if isAnd then None else fn, if isAnd then "and_end" else "or_end",
                 [Phi(b.nextReg, I1, [(first, lhs), (second, rhs)])])],
      end,
      b.nextReg + 1)
  }

  /**
   * The blocks IfElse adds before its branches: new "if_true", "if_false"
   * (with an else branch only) and "if_end" blocks of the current function,
   * numbered in that order after the existing ones; the current block ends
   * with a conditional branch on `cond` to "if_true" or else to "if_false"
   * (to "if_end" without an else branch); lowering goes on in "if_true".
   */
  function IfHead(b: Builder, cond: Operand, hasElse: bool): (r: Builder)
    requires HasCursor(b)
    ensures HasCursor(r) && r.cursor == |b.blocks| && |r.blocks| == |b.blocks| + (if hasElse then 3 else 2)
  {
    var t, blk, fn := |b.blocks|, b.blocks[b.cursor], CurrentFn(b);
    Builder(
      b.funcs,
      b.blocks[b.cursor := blk.(instrs := blk.instrs + [CondBr(cond, t, t + 1)])]
        + [Block(fn, "if_true", [])]
        + (if hasElse then [Block(fn, "if_false", [])] else [])
        + [Block(fn, "if_end", [])],
      t,
      b.nextReg)
  }

  /**
   * The blocks While adds, as written: new "while_start", "while_body" and
   * "while_end" blocks of the current function; the start block holds a
   * conditional branch on `cond` to the body block or the end block; the
   * current block is left as it was (no branch into the start block);
   * lowering goes on in the body block.
   */
  function LoopHead(b: Builder, cond: Operand): (r: Builder)
    requires HasCursor(b)
    ensures HasCursor(r) && r.cursor == |b.blocks| + 1 && |r.blocks| == |b.blocks| + 3
  {
    var start, fn := |b.blocks|, CurrentFn(b);
    Builder(
      b.funcs,
      b.blocks + [Block(fn, "while_start", [CondBr(cond, start + 1, start + 2)]),
                  Block(fn, "while_body", []),
                  Block(fn, "while_end", [])],
      start + 1,
      b.nextReg)
  }

  /**
   * What the blocks of Join compute: leaving the old insertion block with
   * `first` true or false, the phi yields `second` or `first` for And, and
   * `first` or `second` for Or; that is, the value of `first && second` and
   * `first || second`. Only the branch on `first` decides (it is the right
   * operand, as written), after both operands were lowered.
   */
  lemma JoinSelects(b: Builder, isAnd: bool, first: Operand, second: Operand, c: bool)
    requires HasCursor(b)
    ensures var r := Join(b, isAnd, first, second);
      Reaching(r, b.cursor, c) == Some(if c == isAnd then second else first)
    ensures forall i :: 0 <= i < |b.blocks| && i != b.cursor ==> Join(b, isAnd, first, second).blocks[i] == b.blocks[i]
  {
    var r := Join(b, isAnd, first, second);
    var lhs, rhs, end := b.cursor, |b.blocks|, |b.blocks| + 1;
    assert Last(r.blocks[lhs]) == Some(if isAnd then CondBr(first, rhs, end) else CondBr(first, end, rhs));
    assert r.blocks[rhs].instrs == [Br(end)];
    var inc := [(first, lhs), (second, rhs)];
    assert r.cursor == end && r.blocks[end].instrs[0] == Phi(b.nextReg, I1, inc);
    assert Incoming(inc, lhs) == Some(first);
    assert Incoming(inc, rhs) == Some(second) by {
      assert inc[1..] == [(second, rhs)];
    }
  }

  /**
   * The branch IfHead ends the old insertion block with: on a true
   * condition to "if_true", where lowering goes on; on a false one to
   * "if_false", or to "if_end" without an else branch; "if_end" is the
   * last block. No older block changes except for that branch.
   */
  lemma IfHeadBranches(b: Builder, cond: Operand, hasElse: bool)
    requires HasCursor(b)
    ensures var r := IfHead(b, cond, hasElse);
      && NextBlock(Last(r.blocks[b.cursor]).value, true) == Some(r.cursor)
      && r.blocks[r.cursor].name == "if_true"
      && (var f := NextBlock(Last(r.blocks[b.cursor]).value, false).value;
          f < |r.blocks| && r.blocks[f].name == (if hasElse then "if_false" else "if_end"))
      && r.blocks[|r.blocks| - 1].name == "if_end"
      && r.blocks[b.cursor].instrs[..|b.blocks[b.cursor].instrs|] == b.blocks[b.cursor].instrs
      && forall i :: 0 <= i < |b.blocks| && i != b.cursor ==> r.blocks[i] == b.blocks[i]
  {
    var r := IfHead(b, cond, hasElse);
    var t := |b.blocks|;
    assert Last(r.blocks[b.cursor]) == Some(CondBr(cond, t, t + 1));
  }

  /**
   * The blocks of LoopHead, as written: "while_start" branches to
   * "while_body" (where lowering goes on) on a true condition and to
   * "while_end" on a false one, but every older block is left as it was,
   * so nothing branches into "while_start" until the body's back edge.
   */
  lemma LoopHeadBranches(b: Builder, cond: Operand)
    requires HasCursor(b)
    ensures var r, start := LoopHead(b, cond), |b.blocks|;
      && r.blocks[start].name == "while_start"
      && NextBlock(Last(r.blocks[start]).value, true) == Some(r.cursor)
      && r.blocks[r.cursor].name == "while_body"
      && NextBlock(Last(r.blocks[start]).value, false) == Some(start + 2)
      && r.blocks[start + 2].name == "while_end"
      && r.blocks[..start] == b.blocks
  {
    var r, start := LoopHead(b, cond), |b.blocks|;
    assert r.blocks[start].instrs == [CondBr(cond, start + 1, start + 2)];
  }
}
