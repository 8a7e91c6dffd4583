/**
 * The values and contexts of the code generator (codegen.h): the typed
 * values on its stack, the reasons lowering stops, and the relations
 * between the state before and after a visit that every handler keeps.
 */
module Values {
  import opened Ir
  import opened Scope
  import opened Syntax

  /** codegen.h's Expr: a value with its type tag (a type name) and its LLVM type. */
  datatype Expr = Expr(tag: string, ty: LType, val: Operand)

  /** Why lowering stopped. */
  datatype CgError =
    | VariableNotFound(name: string)
    | StackUnderflow
    | TypeMismatch(expected: string, found: string)
    | NotBool(found: string)
    | Unsupported(op: string)
    | Shadowed(name: string)
    | NoEnclosingLoop
    | NotAFunction
    | ArityMismatch(params: nat, args: nat)
    | ArgumentType(index: nat)
    | NoReturnType

  /** The environment, loop stacks and IR builder of a generator at one moment. */
  datatype Ctx = Ctx(env: Env<Expr>, cont: seq<nat>, brk: seq<nat>, ir: Builder)

  /**
   * What every successful visit keeps: both loop stacks exactly as they
   * were, the environment changed only by bindings into its innermost
   * frame, and no block removed.
   */
  ghost predicate Kept(c0: Ctx, c1: Ctx)
  {
    c1.cont == c0.cont && c1.brk == c0.brk && Extends(c0.env, c1.env) && |c0.ir.blocks| <= |c1.ir.blocks|
  }

  lemma KeptTrans(c0: Ctx, c1: Ctx, c2: Ctx)
    requires Kept(c0, c1) && Kept(c1, c2)
    ensures Kept(c0, c2)
  {
    ExtendsTrans(c0.env, c1.env, c2.env);
  }

  lemma KeptTrans3(c0: Ctx, c1: Ctx, c2: Ctx, c3: Ctx)
    requires Kept(c0, c1) && Kept(c1, c2) && Kept(c2, c3)
    ensures Kept(c0, c3)
  {
    KeptTrans(c0, c1, c2);
    KeptTrans(c0, c2, c3);
  }

  /** `s1` is `s0` with `n` more values on top. */
  predicate Pushed(s0: seq<Expr>, s1: seq<Expr>, n: nat)
  {
    |s1| == |s0| + n && s1[..|s0|] == s0
  }

  /**
   * A visit of `a` from context `c0` and stack `s0` to `c1` and `s1` keeps
   * Kept, and when `a` is well formed pushes exactly Net(a) values over the
   * untouched old stack and leaves the environment as it was unless `a` is
   * a declaration.
   */
  ghost predicate Step(c0: Ctx, s0: seq<Expr>, c1: Ctx, s1: seq<Expr>, a: Ast)
  {
    && Kept(c0, c1)
    && (WellFormed(a) ==> Pushed(s0, s1, Net(a)) && (!Binds(a) ==> c1.env == c0.env))
  }

  /** Step from its parts, for handlers whose proof of it is long. */
  lemma Settled(c0: Ctx, s0: seq<Expr>, c1: Ctx, s1: seq<Expr>, a: Ast)
    requires Kept(c0, c1)
    requires WellFormed(a) ==> Pushed(s0, s1, Net(a)) && (!Binds(a) ==> c1.env == c0.env)
    ensures Step(c0, s0, c1, s1, a)
  {
  }

  lemma PushedTrans(s0: seq<Expr>, s1: seq<Expr>, s2: seq<Expr>, n: nat, m: nat)
    requires Pushed(s0, s1, n) && Pushed(s1, s2, m)
    ensures Pushed(s0, s2, n + m)
  {
    assert s2[..|s0|] == s2[..|s1|][..|s0|];
  }
}
