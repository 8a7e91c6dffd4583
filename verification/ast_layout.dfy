/**
 * The node constructors of ast.h. Each one builds a fresh node, takes
 * ownership of the strings it was given and appends its sub-nodes with
 * Node::appendChild; the order of those calls fixes the child layout that
 * every later pass relies on. Optional sub-nodes (a null pointer in the
 * source) are appended only when present.
 */
module AstLayout {
  import opened AstNode

  /** No node occurs twice in `kids`. */
  predicate Distinct(kids: seq<Node>)
  {
    forall i, j :: 0 <= i < j < |kids| ==> kids[i] != kids[j]
  }

  /**
   * `n` is a valid root of the given kind that owns exactly `strs` and has
   * exactly `kids` as children, in this order.
   */
  ghost predicate Shaped(n: Node, kind: NodeKind, strs: seq<string>, kids: seq<Node>)
    reads n, n.childNodes
  {
    && n.kind == kind && n.Valid()
    && n.parentNode == null && n.nextSibling == null
    && n.slist == strs && n.childNodes == kids
  }

  /** `n` uses none of the per-class vectors of TypeList and Assign. */
  ghost predicate Plain(n: Node)
    reads n
  {
    n.names == [] && n.types == [] && n.vars == []
  }

  /** The list of the optional sub-node: empty for a null pointer. */
  function Optional(c: Node?): (r: seq<Node>)
    ensures c == null ==> r == []
    ensures c != null ==> r == [c]
  {
    if c == null then [] else [c]
  }

  /**
   * The shared shape of the constructors: a fresh node of `kind` that owns
   * `strs` (Node::addString) and gets `kids` appended in order (Node::appendChild).
   */
  method Build(kind: NodeKind, strs: seq<string>, kids: seq<Node>) returns (n: Node)
    requires Distinct(kids)
    modifies kids`parentNode, kids`nextSibling
    ensures fresh(n) && Shaped(n, kind, strs, kids) && Plain(n)
  {
    n := new Node(kind);
    var i := 0;
    while i < |strs|
      invariant 0 <= i <= |strs|
      invariant n.slist == strs[..i] && n.childNodes == [] && n.Valid()
      invariant n.parentNode == null && n.nextSibling == null && Plain(n)
    {
      n.AddString(strs[i]);
      i := i + 1;
    }
    i := 0;
    while i < |kids|
      invariant 0 <= i <= |kids|
      invariant n.Valid() && n.childNodes == kids[..i] && n.slist == strs
      invariant n.parentNode == null && n.nextSibling == null && Plain(n)
    {
      assert kids[i] !in kids[..i];
      n.AppendChild(kids[i]);
      i := i + 1;
    }
  }

  /*
   * Type classes
   */

  /** TypeList(): no children and no names yet. */
  method NewTypeList() returns (n: Node)
    ensures fresh(n) && Shaped(n, TypeListK, [], []) && Plain(n)
    ensures TypeListAligned(n)
  {
    n := Build(TypeListK, [], []);
  }

  /**
   * The invariant TypeList::appendNamedChild keeps: one name per type, index
   * by index, the types being the node's children and the names its strings.
   */
  ghost predicate TypeListAligned(list: Node)
    reads list
  {
    && |list.names| == |list.types|
    && list.types == list.childNodes
    && list.names == list.slist
  }

  /**
   * TypeList::appendNamedChild: pushes the name and the type onto the two
   * vectors, takes ownership of the name and appends the type as last child.
   */
  method AppendNamedChild(list: Node, name: string, t: Node)
    requires list.kind == TypeListK && list.Valid() && TypeListAligned(list)
    requires t != list && t !in list.childNodes
    modifies list`names, list`types, list`slist
    modifies list`firstChild, list`lastChild, list`numChildren, list`childNodes
    modifies t`parentNode, t`nextSibling, (if list.lastChild == null then {} else {list.lastChild})`nextSibling
    ensures list.Valid() && TypeListAligned(list)
    ensures list.names == old(list.names) + [name]
    ensures list.types == old(list.types) + [t]
    ensures list.childNodes == old(list.childNodes) + [t] && list.lastChild == t
    ensures t.parentNode == list
    ensures list.parentNode == old(list.parentNode) && list.nextSibling == old(list.nextSibling)
  {
    list.names := list.names + [name];
    list.types := list.types + [t];
    list.AddString(name);
    list.AppendChild(t);
  }

  /** SimpleType(tname): owns its name, no children. */
  method NewSimpleType(tname: string) returns (n: Node)
    ensures fresh(n) && Shaped(n, SimpleTypeK(tname), [tname], []) && Plain(n)
  {
    n := Build(SimpleTypeK(tname), [tname], []);
  }

  /** RefType(base): the base type is the only child. */
  method NewRefType(base: Node) returns (n: Node)
    modifies base`parentNode, base`nextSibling
    ensures fresh(n) && Shaped(n, RefTypeK, [], [base]) && Plain(n)
  {
    n := Build(RefTypeK, [], [base]);
  }

  /** PtrType(base): the base type is the only child. */
  method NewPtrType(base: Node) returns (n: Node)
    modifies base`parentNode, base`nextSibling
    ensures fresh(n) && Shaped(n, PtrTypeK, [], [base]) && Plain(n)
  {
    n := Build(PtrTypeK, [], [base]);
  }

  /** ArrayType(base): the base type is the only child. */
  method NewArrayType(base: Node) returns (n: Node)
    modifies base`parentNode, base`nextSibling
    ensures fresh(n) && Shaped(n, ArrayTypeK, [], [base]) && Plain(n)
  {
    n := Build(ArrayTypeK, [], [base]);
  }

  /** MapType(key, val): children [key, val]. */
  method NewMapType(key: Node, val: Node) returns (n: Node)
    requires key != val
    modifies key`parentNode, key`nextSibling, val`parentNode, val`nextSibling
    ensures fresh(n) && Shaped(n, MapTypeK, [], [key, val]) && Plain(n)
  {
    n := Build(MapTypeK, [], [key, val]);
  }

  /** TupleType(base): the base type is the only child. */
  method NewTupleType(base: Node) returns (n: Node)
    modifies base`parentNode, base`nextSibling
    ensures fresh(n) && Shaped(n, TupleTypeK, [], [base]) && Plain(n)
  {
    n := Build(TupleTypeK, [], [base]);
  }

  /** FuncType(params, ret): the parameter list, then the return type only when there is one. */
  method NewFuncType(params: Node, ret: Node?) returns (n: Node)
    requires ret != params
    modifies params`parentNode, params`nextSibling, Optional(ret)`parentNode, Optional(ret)`nextSibling
    ensures fresh(n) && Shaped(n, FuncTypeK, [], [params] + Optional(ret)) && Plain(n)
    ensures ret == null ==> n.childNodes == [params]
    ensures ret != null ==> n.childNodes == [params, ret]
  {
    n := Build(FuncTypeK, [], [params] + Optional(ret));
  }

  /*
   * Literals
   */

  /** True(): a leaf. */
  method NewTrue() returns (n: Node)
    ensures fresh(n) && Shaped(n, TrueK, [], []) && Plain(n)
  {
    n := Build(TrueK, [], []);
  }

  /** False(): a leaf. */
  method NewFalse() returns (n: Node)
    ensures fresh(n) && Shaped(n, FalseK, [], []) && Plain(n)
  {
    n := Build(FalseK, [], []);
  }

  /** Integer(val): a leaf carrying its 64-bit value. */
  method NewInteger(val: Int64) returns (n: Node)
    ensures fresh(n) && Shaped(n, IntegerK(val), [], []) && Plain(n)
  {
    n := Build(IntegerK(val), [], []);
  }

  /** Real(val): a leaf carrying its value. */
  method NewReal(val: real) returns (n: Node)
    ensures fresh(n) && Shaped(n, RealK(val), [], []) && Plain(n)
  {
    n := Build(RealK(val), [], []);
  }

  /** String(val): owns the literal's text, no children. */
  method NewString(val: string) returns (n: Node)
    ensures fresh(n) && Shaped(n, StringK(val), [val], []) && Plain(n)
  {
    n := Build(StringK(val), [val], []);
  }

  /*
   * Expressions
   */

  /** Variable(val): owns the name, no children. */
  method NewVariable(name: string) returns (n: Node)
    ensures fresh(n) && Shaped(n, VariableK(name), [name], []) && Plain(n)
  {
    n := Build(VariableK(name), [name], []);
  }

  /** Binary(op, left, right): children [left, right]. */
  method NewBinary(op: string, left: Node, right: Node) returns (n: Node)
    requires left != right
    modifies left`parentNode, left`nextSibling, right`parentNode, right`nextSibling
    ensures fresh(n) && Shaped(n, BinaryK(op), [], [left, right]) && Plain(n)
  {
    n := Build(BinaryK(op), [], [left, right]);
  }

  /** Unary(op, down): the operand is the only child. */
  method NewUnary(op: string, down: Node) returns (n: Node)
    modifies down`parentNode, down`nextSibling
    ensures fresh(n) && Shaped(n, UnaryK(op), [], [down]) && Plain(n)
  {
    n := Build(UnaryK(op), [], [down]);
  }

  /** And(left, right): children [left, right]. */
  method NewAnd(left: Node, right: Node) returns (n: Node)
    requires left != right
    modifies left`parentNode, left`nextSibling, right`parentNode, right`nextSibling
    ensures fresh(n) && Shaped(n, AndK, [], [left, right]) && Plain(n)
  {
    n := Build(AndK, [], [left, right]);
  }

  /** Or(left, right): children [left, right]. */
  method NewOr(left: Node, right: Node) returns (n: Node)
    requires left != right
    modifies left`parentNode, left`nextSibling, right`parentNode, right`nextSibling
    ensures fresh(n) && Shaped(n, OrK, [], [left, right]) && Plain(n)
  {
    n := Build(OrK, [], [left, right]);
  }

  /** Function(proto, body): children [proto, body]. */
  method NewFunction(proto: Node, body: Node) returns (n: Node)
    requires proto != body
    modifies proto`parentNode, proto`nextSibling, body`parentNode, body`nextSibling
    ensures fresh(n) && Shaped(n, FunctionK, [], [proto, body]) && Plain(n)
  {
    n := Build(FunctionK, [], [proto, body]);
  }

  /** Return(e): the returned expression is a child only when there is one. */
  method NewReturn(e: Node?) returns (n: Node)
    modifies Optional(e)`parentNode, Optional(e)`nextSibling
    ensures fresh(n) && Shaped(n, ReturnK, [], Optional(e)) && Plain(n)
    ensures |n.childNodes| == (if e == null then 0 else 1)
  {
    n := Build(ReturnK, [], Optional(e));
  }

  /** Call(parent, params): children [callee, argument list]. */
  method NewCall(parent: Node, params: Node) returns (n: Node)
    requires parent != params
    modifies parent`parentNode, parent`nextSibling, params`parentNode, params`nextSibling
    ensures fresh(n) && Shaped(n, CallK, [], [parent, params]) && Plain(n)
  {
    n := Build(CallK, [], [parent, params]);
  }

  /** Array(elems): the element list is the only child. */
  method NewArray(elems: Node) returns (n: Node)
    modifies elems`parentNode, elems`nextSibling
    ensures fresh(n) && Shaped(n, ArrayK, [], [elems]) && Plain(n)
  {
    n := Build(ArrayK, [], [elems]);
  }

  /** Subscript(var, idx): children [var, idx]. */
  method NewSubscript(v: Node, idx: Node) returns (n: Node)
    requires v != idx
    modifies v`parentNode, v`nextSibling, idx`parentNode, idx`nextSibling
    ensures fresh(n) && Shaped(n, SubscriptK, [], [v, idx]) && Plain(n)
  {
    n := Build(SubscriptK, [], [v, idx]);
  }

  /** Attribute(var, aname): owns the attribute name; the object is the only child. */
  method NewAttribute(v: Node, aname: string) returns (n: Node)
    modifies v`parentNode, v`nextSibling
    ensures fresh(n) && Shaped(n, AttributeK(aname), [aname], [v]) && Plain(n)
  {
    n := Build(AttributeK(aname), [aname], [v]);
  }

  /** Expr(e): an expression statement; the expression is the only child. */
  method NewExpr(e: Node) returns (n: Node)
    modifies e`parentNode, e`nextSibling
    ensures fresh(n) && Shaped(n, ExprK, [], [e]) && Plain(n)
  {
    n := Build(ExprK, [], [e]);
  }

  /** ExprList(): starts empty (filled later by the parser). */
  method NewExprList() returns (n: Node)
    ensures fresh(n) && Shaped(n, ExprListK, [], []) && Plain(n)
  {
    n := Build(ExprListK, [], []);
  }

  /** StmtList(): starts empty (filled later by the parser). */
  method NewStmtList() returns (n: Node)
    ensures fresh(n) && Shaped(n, StmtListK, [], []) && Plain(n)
  {
    n := Build(StmtListK, [], []);
  }

  /**
   * Assign(var, expr): the right-hand side comes first among the children,
   * then the target; `vars` holds exactly that one target.
   */
  method NewAssign(v: Node, expr: Node) returns (n: Node)
    requires v != expr
    modifies v`parentNode, v`nextSibling, expr`parentNode, expr`nextSibling
    ensures fresh(n) && Shaped(n, AssignK, [], [expr, v])
    ensures n.vars == [v] && n.names == [] && n.types == []
  {
    n := Build(AssignK, [], [expr, v]);
    n.vars := [v];
  }

  /** IfElse(expr, body, ifelse): [expr, body], then the else branch only when there is one. */
  method NewIfElse(expr: Node, body: Node, ifelse: Node?) returns (n: Node)
    requires expr != body && ifelse != expr && ifelse != body
    modifies expr`parentNode, expr`nextSibling, body`parentNode, body`nextSibling, Optional(ifelse)`parentNode, Optional(ifelse)`nextSibling
    ensures fresh(n) && Shaped(n, IfElseK, [], [expr, body] + Optional(ifelse)) && Plain(n)
    ensures ifelse == null ==> n.childNodes == [expr, body]
    ensures ifelse != null ==> n.childNodes == [expr, body, ifelse]
  {
    n := Build(IfElseK, [], [expr, body] + Optional(ifelse));
  }

  /** For(vname, iterable, body): owns the loop variable's name; children [iterable, body]. */
  method NewFor(vname: string, iterable: Node, body: Node) returns (n: Node)
    requires iterable != body
    modifies iterable`parentNode, iterable`nextSibling, body`parentNode, body`nextSibling
    ensures fresh(n) && Shaped(n, ForK(vname), [vname], [iterable, body]) && Plain(n)
  {
    n := Build(ForK(vname), [vname], [iterable, body]);
  }

  /** While(expr, body): children [expr, body]. */
  method NewWhile(expr: Node, body: Node) returns (n: Node)
    requires expr != body
    modifies expr`parentNode, expr`nextSibling, body`parentNode, body`nextSibling
    ensures fresh(n) && Shaped(n, WhileK, [], [expr, body]) && Plain(n)
  {
    n := Build(WhileK, [], [expr, body]);
  }

  /** Break(): a leaf. */
  method NewBreak() returns (n: Node)
    ensures fresh(n) && Shaped(n, BreakK, [], []) && Plain(n)
  {
    n := Build(BreakK, [], []);
  }

  /** Continue(): a leaf. */
  method NewContinue() returns (n: Node)
    ensures fresh(n) && Shaped(n, ContinueK, [], []) && Plain(n)
  {
    n := Build(ContinueK, [], []);
  }

  /** VarDecl(name, expr): owns the name; the initializer is the only child. */
  method NewVarDecl(name: string, expr: Node) returns (n: Node)
    modifies expr`parentNode, expr`nextSibling
    ensures fresh(n) && Shaped(n, VarDeclK(name), [name], [expr]) && Plain(n)
  {
    n := Build(VarDeclK(name), [name], [expr]);
  }

  /** FuncDecl(name, func): owns the name; the function is the only child. */
  method NewFuncDecl(name: string, func: Node) returns (n: Node)
    modifies func`parentNode, func`nextSibling
    ensures fresh(n) && Shaped(n, FuncDeclK(name), [name], [func]) && Plain(n)
  {
    n := Build(FuncDeclK(name), [name], [func]);
  }

  /** RecordDef(name, decl_list): owns the name; the declaration list is the only child. */
  method NewRecordDef(name: string, declList: Node) returns (n: Node)
    modifies declList`parentNode, declList`nextSibling
    ensures fresh(n) && Shaped(n, RecordDefK(name), [name], [declList]) && Plain(n)
  {
    n := Build(RecordDefK(name), [name], [declList]);
  }

  /** UnionItem(name, type_spec): owns the name; the type is a child only when there is one. */
  method NewUnionItem(name: string, typeSpec: Node?) returns (n: Node)
    modifies Optional(typeSpec)`parentNode, Optional(typeSpec)`nextSibling
    ensures fresh(n) && Shaped(n, UnionItemK(name), [name], Optional(typeSpec)) && Plain(n)
  {
    n := Build(UnionItemK(name), [name], Optional(typeSpec));
  }

  /** UnionList(): starts empty (filled later by the parser). */
  method NewUnionList() returns (n: Node)
    ensures fresh(n) && Shaped(n, UnionListK, [], []) && Plain(n)
  {
    n := Build(UnionListK, [], []);
  }

  /** UnionDef(name, type_list): owns the name; the type list is the only child. */
  method NewUnionDef(name: string, typeList: Node) returns (n: Node)
    modifies typeList`parentNode, typeList`nextSibling
    ensures fresh(n) && Shaped(n, UnionDefK(name), [name], [typeList]) && Plain(n)
  {
    n := Build(UnionDefK(name), [name], [typeList]);
  }
}
