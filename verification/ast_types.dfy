/**
 * The type classes of ast.h as values and their `type_name()` renderings:
 * a type list is its element names joined by commas, `&T`, `*T`, `[T]`,
 * `[K:V]`, `(T)`, and a function type `(P)->R` with `R` empty when the
 * function returns nothing.
 */
module AstTypes {
  import opened Wrappers

  /** A named entry of a TypeList (the names and types vectors, index by index). */
  datatype Param = Param(name: string, ty: Ty)

  datatype Ty =
    | SimpleType(tname: string)
    | RefType(base: Ty)
    | PtrType(base: Ty)
    | ArrayType(base: Ty)
    | MapType(key: Ty, val: Ty)
    | TupleType(base: Ty)
    | FuncType(params: seq<Param>, ret: Option<Ty>)
    | TypeList(items: seq<Param>)

  /** The `type_name()` of each type class. */
  function TypeName(t: Ty): string
    decreases t, 1
  {
    match t
    case SimpleType(n) => n
    case RefType(b) => "&" + TypeName(b)
    case PtrType(b) => "*" + TypeName(b)
    case ArrayType(b) => "[" + TypeName(b) + "]"
    case MapType(k, v) => "[" + TypeName(k) + ":" + TypeName(v) + "]"
    case TupleType(b) => "(" + TypeName(b) + ")"
    case FuncType(ps, r) => "(" + Commas(ps) + ")->" + (if r.Some? then TypeName(r.value) else "")
    case TypeList(ps) => Commas(ps)
  }

  /** The element type names of a list joined by ",", with no trailing comma. */
  function Commas(ps: seq<Param>): string
    decreases ps, 0
  {
    if |ps| == 0 then ""
    else if |ps| == 1 then TypeName(ps[0].ty)
    else Commas(ps[..|ps| - 1]) + "," + TypeName(ps[|ps| - 1].ty)
  }

  /**
   * TypeList::type_name as the loop it is: appends each element's name and a
   * comma after every element but the last.
   */
  method TypeListTypeName(ps: seq<Param>) returns (ret: string)
    ensures ret == Commas(ps)
    ensures |ps| == 0 ==> ret == ""
    ensures |ps| > 0 ==> ret[|ret| - |TypeName(ps[|ps| - 1].ty)|..] == TypeName(ps[|ps| - 1].ty)
  {
    ret := "";
    if |ps| != 0 {
      for i := 0 to |ps|
        invariant ret == if i == 0 then "" else Commas(ps[..i]) + (if i < |ps| then "," else "")
      {
        assert ps[..i + 1][..i] == ps[..i];
        ret := ret + TypeName(ps[i].ty);
        if i + 1 < |ps| {
          ret := ret + ",";
        }
      }
      assert ps[..|ps|] == ps;
    }
  }

  /*
   * Parenthesis depth. The code generator recovers a callee's return type
   * name from the function type's rendering (the helper `getreturntype`,
   * called in codegen.h but declared in none of its files): the text after
   * the ")->" that closes the opening parenthesis.
   */

  function Delta(c: char): int
  {
    if c == '(' then 1 else if c == ')' then -1 else 0
  }

  /** Opening minus closing parentheses in `s`. */
  function Depth(s: string): int
  {
    if s == [] then 0 else Delta(s[0]) + Depth(s[1..])
  }

  /** Scanning `s` from depth `d` never brings the depth down to zero. */
  predicate Stays(s: string, d: int)
  {
    s == [] || (d + Delta(s[0]) != 0 && Stays(s[1..], d + Delta(s[0])))
  }

  /** The index in `s` at which the depth, starting from `d`, first reaches zero. */
  function Close(s: string, d: int): (r: Option<nat>)
    ensures r.Some? ==> r.value < |s|
  {
    if s == [] then None
    else if d + Delta(s[0]) == 0 then Some(0)
    else Shift(Close(s[1..], d + Delta(s[0])), 1)
  }

  /** An index found in a suffix, as an index of the whole. */
  function Shift(o: Option<nat>, n: nat): Option<nat>
  {
    match o
    case None => None
    case Some(j) => Some(j + n)
  }

  /**
   * The return type name inside a function type's name: what follows the
   * "->" right after the parenthesis that closes the leading one, and ""
   * when the name has no such shape.
   */
  function ReturnTypeName(s: string): (r: string)
  {
    if |s| > 0 && s[0] == '(' then
      match Close(s[1..], 1)
      case Some(c) =>
        if c + 4 <= |s| && s[c + 1..c + 4] == ")->" then s[c + 4..] else ""
      case None => ""
    else ""
  }

  /** No SimpleType name in `t` contains a parenthesis. */
  predicate PlainNames(t: Ty)
    decreases t, 1
  {
    match t
    case SimpleType(n) => forall i :: 0 <= i < |n| ==> n[i] != '(' && n[i] != ')'
    case RefType(b) => PlainNames(b)
    case PtrType(b) => PlainNames(b)
    case ArrayType(b) => PlainNames(b)
    case MapType(k, v) => PlainNames(k) && PlainNames(v)
    case TupleType(b) => PlainNames(b)
    case FuncType(ps, r) => PlainList(ps) && (r.Some? ==> PlainNames(r.value))
    case TypeList(ps) => PlainList(ps)
  }

  predicate PlainList(ps: seq<Param>)
    decreases ps, 0
  {
    forall i :: 0 <= i < |ps| ==> PlainNames(ps[i].ty)
  }

  lemma {:induction false} DepthConcat(a: string, b: string)
    ensures Depth(a + b) == Depth(a) + Depth(b)
  {
    if a != [] {
      assert (a + b)[0] == a[0] && (a + b)[1..] == a[1..] + b;
      DepthConcat(a[1..], b);
    } else {
      assert a + b == b;
    }
  }

  lemma {:induction false} StaysConcat(a: string, b: string, d: int)
    requires Stays(a, d) && Stays(b, d + Depth(a))
    ensures Stays(a + b, d)
  {
    if a != [] {
      assert (a + b)[0] == a[0] && (a + b)[1..] == a[1..] + b;
      StaysConcat(a[1..], b, d + Delta(a[0]));
    } else {
      assert a + b == b;
    }
  }

  /** A string without parentheses keeps the depth where it is. */
  lemma {:induction false} FlatText(s: string, d: int)
    requires forall i :: 0 <= i < |s| ==> s[i] != '(' && s[i] != ')'
    requires d != 0
    ensures Depth(s) == 0 && Stays(s, d)
  {
    if s != [] {
      FlatText(s[1..], d);
    }
  }

  /** Scanning past a stretch that stays above zero adds its length to the closing index. */
  lemma {:induction false} CloseAfter(a: string, b: string, d: int)
    requires Stays(a, d)
    ensures Close(a + b, d) == Shift(Close(b, d + Depth(a)), |a|)
  {
    if a != [] {
      assert (a + b)[0] == a[0] && (a + b)[1..] == a[1..] + b;
      CloseAfter(a[1..], b, d + Delta(a[0]));
    } else {
      assert a + b == b;
    }
  }

  /** Parentheses in `s` net to zero and, scanned from depth `d`, never close below it. */
  predicate Balanced(s: string, d: int)
  {
    Depth(s) == 0 && Stays(s, d)
  }

  /**
   * Every type name with plain SimpleType names is balanced from any depth
   * of at least one.
   */
  lemma {:induction false} TypeNameBalanced(t: Ty, d: int)
    requires PlainNames(t) && d >= 1
    ensures Balanced(TypeName(t), d)
    decreases t, 1
  {
    match t
    case SimpleType(n) =>
      FlatText(n, d);
    case RefType(b) =>
      TypeNameBalanced(b, d);
      Prefixed("&", TypeName(b), d);
    case PtrType(b) =>
      TypeNameBalanced(b, d);
      Prefixed("*", TypeName(b), d);
    case ArrayType(b) =>
      TypeNameBalanced(b, d);
      Prefixed("[", TypeName(b), d);
      Suffixed("[" + TypeName(b), "]", d);
    case MapType(k, v) =>
      TypeNameBalanced(k, d);
      TypeNameBalanced(v, d);
      Prefixed("[", TypeName(k), d);
      Suffixed("[" + TypeName(k), ":", d);
      Cat("[" + TypeName(k) + ":", TypeName(v), d);
      Suffixed("[" + TypeName(k) + ":" + TypeName(v), "]", d);
    case TupleType(b) =>
      TypeNameBalanced(b, d + 1);
      InParens(TypeName(b), ")", d);
    case FuncType(ps, r) =>
      CommasBalanced(ps, d + 1);
      InParens(Commas(ps), ")->", d);
      if r.Some? {
        TypeNameBalanced(r.value, d);
        Cat("(" + Commas(ps) + ")->", TypeName(r.value), d);
      } else {
        Suffixed("(" + Commas(ps) + ")->", "", d);
      }
    case TypeList(ps) =>
      CommasBalanced(ps, d);
  }

  lemma {:induction false} CommasBalanced(ps: seq<Param>, d: int)
    requires PlainList(ps) && d >= 1
    ensures Balanced(Commas(ps), d)
    decreases ps, 0
  {
    if |ps| == 1 {
      TypeNameBalanced(ps[0].ty, d);
    } else if |ps| > 1 {
      var init, last := ps[..|ps| - 1], ps[|ps| - 1];
      CommasBalanced(init, d);
      TypeNameBalanced(last.ty, d);
      Suffixed(Commas(init), ",", d);
      Cat(Commas(init) + ",", TypeName(last.ty), d);
    }
  }

  /** Balanced texts concatenate to a balanced text. */
  lemma Cat(a: string, b: string, d: int)
    requires Balanced(a, d) && Balanced(b, d)
    ensures Balanced(a + b, d)
  {
    DepthConcat(a, b);
    StaysConcat(a, b, d);
  }

  /** A parenthesis-free prefix keeps a text balanced. */
  lemma Prefixed(pre: string, b: string, d: int)
    requires pre == "&" || pre == "*" || pre == "["
    requires Balanced(b, d) && d >= 1
    ensures Balanced(pre + b, d)
  {
    FlatText(pre, d);
    Cat(pre, b, d);
  }

  /** A parenthesis-free suffix keeps a text balanced. */
  lemma Suffixed(a: string, post: string, d: int)
    requires post == "]" || post == ":" || post == "," || post == ""
    requires Balanced(a, d) && d >= 1
    ensures Balanced(a + post, d)
  {
    FlatText(post, d);
    Cat(a, post, d);
  }

  /** A text balanced one level deeper, inside "(" and a closing ")" or ")->". */
  lemma InParens(mid: string, close: string, d: int)
    requires close == ")" || close == ")->"
    requires Balanced(mid, d + 1) && d >= 1
    ensures Balanced("(" + mid + close, d)
  {
    assert Depth("(") == 1 && Stays("(", d);
    assert ")->"[1..] == "->";
    FlatText("->", d);
    assert Depth(close) == -1 && Stays(close, d + 1);
    DepthConcat("(", mid);
    StaysConcat("(", mid, d);
    DepthConcat("(" + mid, close);
    StaysConcat("(" + mid, close, d);
  }

  /**
   * The round trip the code generator relies on: the return type name
   * recovered from a function type's rendering is the name of its return
   * type, or "" when it has none.
   */
  lemma ReturnTypeNameOfFuncType(ps: seq<Param>, r: Option<Ty>)
    requires PlainList(ps)
    ensures ReturnTypeName(TypeName(FuncType(ps, r))) == (if r.Some? then TypeName(r.value) else "")
  {
    var rn := if r.Some? then TypeName(r.value) else "";
    assert TypeName(FuncType(ps, r)) == "(" + Commas(ps) + ")->" + rn;
    CommasBalanced(ps, 1);
    ReturnAfterBalanced(Commas(ps), rn);
  }

  /** Whatever follows the ")->" that closes a balanced parameter text is the return type name. */
  lemma ReturnAfterBalanced(j: string, rn: string)
    requires Balanced(j, 1)
    ensures ReturnTypeName("(" + j + ")->" + rn) == rn
  {
    var tail := ")->" + rn;
    var s := "(" + j + ")->" + rn;
    assert s[1..] == j + tail;
    assert tail[0] == ')';
    assert Close(tail, 1) == Some(0);
    CloseAfter(j, tail, 1);
    assert s[|j| + 1..|j| + 4] == ")->";
    assert s[|j| + 4..] == rn;
  }
}
