/**
 * The AST as the code generator sees it: each node kind it dispatches on,
 * with the children its visit handler reads. Kinds whose handler is empty
 * (arrays, subscripts, attributes, expression statements, expression and
 * statement lists, records, unions and type nodes) are one `Stub` kind.
 */
module Syntax {
  import opened Wrappers
  import opened AstNode
  import opened AstTypes

  datatype Ast =
    | True
    | False
    | Integer(ival: Int64)
    | Real(rval: real)
    | Str(sval: string)
    | Variable(name: string)
    | VarDecl(declName: string, init: Ast)
    | FuncDecl(funcName: string, func: Ast)
    | Assign(vars: seq<Ast>, rhs: Ast)
    | Unary(uop: string, down: Ast)
    | Binary(bop: string, left: Ast, right: Ast)
    | And(left: Ast, right: Ast)
    | Or(left: Ast, right: Ast)
    | IfElse(cond: Ast, body: Ast, orelse: Option<Ast>)
    | While(cond: Ast, body: Ast)
    | For(vname: string, iterable: Ast, body: Ast)
    | Break
    | Continue
    | Return(e: Option<Ast>)
    | Function(params: seq<Param>, ret: Option<Ty>, body: Ast)
    | Call(callee: Ast, args: seq<Ast>)
    | Stub

  /**
   * How many values a successful visit leaves on the value stack: one for
   * an expression, none for a statement, and one for For, which leaves its
   * iterable there.
   */
  function Net(a: Ast): nat
  {
    match a
    case True | False | Integer(_) | Real(_) | Str(_) | Variable(_) => 1
    case Unary(_, _) | Binary(_, _, _) | And(_, _) | Or(_, _) => 1
    case Function(_, _, _) | Call(_, _) | For(_, _, _) => 1
    case _ => 0
  }

  /**
   * Every child a handler pops a value for is an expression (Net 1), and
   * every child lowered as a statement (bodies, branches) leaves nothing.
   */
  predicate WellFormed(a: Ast)
  {
    match a
    case VarDecl(_, init) => Net(init) == 1 && WellFormed(init)
    case FuncDecl(_, func) => Net(func) == 1 && WellFormed(func)
    case Assign(vars, rhs) =>
      && Net(rhs) == 1 && WellFormed(rhs)
      && forall i :: 0 <= i < |vars| ==> Net(vars[i]) == 1 && WellFormed(vars[i])
    case Unary(_, down) => Net(down) == 1 && WellFormed(down)
    case Binary(_, l, r) => Net(l) == 1 && WellFormed(l) && Net(r) == 1 && WellFormed(r)
    case And(l, r) => Net(l) == 1 && WellFormed(l) && Net(r) == 1 && WellFormed(r)
    case Or(l, r) => Net(l) == 1 && WellFormed(l) && Net(r) == 1 && WellFormed(r)
    case IfElse(c, body, orelse) =>
      && Net(c) == 1 && WellFormed(c)
      && Net(body) == 0 && WellFormed(body)
      && (orelse.Some? ==> Net(orelse.value) == 0 && WellFormed(orelse.value))
    case While(c, body) => Net(c) == 1 && WellFormed(c) && Net(body) == 0 && WellFormed(body)
    case For(_, it, _) => Net(it) == 1 && WellFormed(it)
    case Return(e) => e.Some? ==> Net(e.value) == 1 && WellFormed(e.value)
    case Function(_, _, body) => Net(body) == 0 && WellFormed(body)
    case Call(callee, args) =>
      && Net(callee) == 1 && WellFormed(callee)
      && forall i :: 0 <= i < |args| ==> Net(args[i]) == 1 && WellFormed(args[i])
    case _ => true
  }

  /** The two declarations, the only kinds whose visit adds a binding to the innermost frame. */
  predicate Binds(a: Ast)
  {
    a.VarDecl? || a.FuncDecl?
  }
}
