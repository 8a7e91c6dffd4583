/**
 * The generic tree node of ast.cc: every AST node keeps its children twice,
 * as the owned vector `childNodes` (with the counter `num_children`) and as the
 * chain `firstChild -> nextSibling -> ... -> lastChild`, each child pointing
 * back to its parent through `parentNode`.
 */
module AstNode {

  /** ast.h's `integer_t`: a signed 64-bit integer. */
  newtype Int64 = x: int | -0x8000_0000_0000_0000 <= x < 0x8000_0000_0000_0000

  /** Which class of ast.h a node was constructed as, with its scalar payload. */
  datatype NodeKind =
    | TypeListK
    | SimpleTypeK(tname: string)
    | RefTypeK
    | PtrTypeK
    | ArrayTypeK
    | MapTypeK
    | TupleTypeK
    | FuncTypeK
    | TrueK
    | FalseK
    | IntegerK(ival: Int64)
    | RealK(rval: real)
    | StringK(sval: string)
    | VariableK(name: string)
    | BinaryK(bop: string)
    | UnaryK(uop: string)
    | AndK
    | OrK
    | FunctionK
    | ReturnK
    | CallK
    | ArrayK
    | SubscriptK
    | AttributeK(aname: string)
    | ExprK
    | ExprListK
    | StmtListK
    | AssignK
    | IfElseK
    | ForK(vname: string)
    | WhileK
    | BreakK
    | ContinueK
    | VarDeclK(declName: string)
    | FuncDeclK(funcName: string)
    | RecordDefK(recordName: string)
    | UnionItemK(itemName: string)
    | UnionListK
    | UnionDefK(unionName: string)

  class Node {
    const kind: NodeKind
    var parentNode: Node?
    var nextSibling: Node?
    var firstChild: Node?
    var lastChild: Node?
    var numChildren: nat
    var childNodes: seq<Node>
    /** The strings the node owns (released with it). */
    var slist: seq<string>
    /** The parameter names and types of a TypeList node (empty for every other kind). */
    var names: seq<string>
    var types: seq<Node>
    /** The assignment targets of an Assign node (empty for every other kind). */
    var vars: seq<Node>

    /**
     * The two views of the children agree: the counter is the vector's length,
     * the vector holds distinct nodes other than this one, each of them has this
     * node as parent, and the sibling chain from `firstChild` runs through the
     * vector in order and ends at `lastChild` with a null `nextSibling`.
     */
    ghost predicate Valid()
      reads this, childNodes
    {
      && numChildren == |childNodes|
      && this !in childNodes
      && (forall i, j :: 0 <= i < j < |childNodes| ==> childNodes[i] != childNodes[j])
      && (forall i :: 0 <= i < |childNodes| ==> childNodes[i].parentNode == this)
      && (forall i :: 0 <= i < |childNodes| - 1 ==> childNodes[i].nextSibling == childNodes[i + 1])
      && (childNodes == [] ==> firstChild == null && lastChild == null)
      && (childNodes != [] ==>
            && firstChild == childNodes[0]
            && lastChild == childNodes[|childNodes| - 1]
            && lastChild.nextSibling == null)
    }

    /** Node::Node: no parent, no sibling, no children in either view. */
    constructor (kind: NodeKind)
      ensures this.kind == kind
      ensures parentNode == null && nextSibling == null
      ensures firstChild == null && lastChild == null
      ensures numChildren == 0 && childNodes == [] && slist == []
      ensures names == [] && types == [] && vars == []
      ensures Valid()
    {
      this.kind := kind;
      parentNode, nextSibling := null, null;
      firstChild, lastChild := null, null;
      numChildren, childNodes, slist := 0, [], [];
      names, types, vars := [], [], [];
    }

    /**
     * Node::appendChild: links `n` after the last child (or makes it the first
     * one), makes it the last child, re-parents it and ends the chain at it.
     * The caller must not append a node that is already a child of this one.
     */
    method AppendChild(n: Node)
      requires Valid()
      requires n != this && n !in childNodes
      modifies this`firstChild, this`lastChild, this`numChildren, this`childNodes
      modifies n`parentNode, n`nextSibling, (if lastChild == null then {} else {lastChild})`nextSibling
      ensures Valid()
      ensures childNodes == old(childNodes) + [n]
      ensures numChildren == old(numChildren) + 1
      ensures firstChild == (if old(firstChild) == null then n else old(firstChild))
      ensures lastChild == n && n.parentNode == this && n.nextSibling == null
      ensures old(lastChild) != null ==> old(lastChild).nextSibling == n
      ensures parentNode == old(parentNode) && nextSibling == old(nextSibling)
      ensures slist == old(slist) && names == old(names) && types == old(types) && vars == old(vars)
    {
      if firstChild != null {
        lastChild.nextSibling := n;
      } else {
        firstChild := n;
      }
      lastChild := n;
      n.parentNode := this;
      n.nextSibling := null;
      numChildren := numChildren + 1;
      childNodes := childNodes + [n];
    }

    /** Node::addString: takes ownership of one more string and changes nothing else. */
    method AddString(s: string)
      modifies this`slist
      ensures slist == old(slist) + [s]
    {
      slist := slist + [s];
    }

    /**
     * The walk along the sibling chain that Node::~Node and Node::extend do:
     * starting at `firstChild` and following `nextSibling` visits exactly the
     * children of the vector view, in order, and then stops.
     */
    method ChildrenByLinks() returns (kids: seq<Node>)
      requires Valid()
      ensures kids == childNodes
    {
      kids := [];
      var c := firstChild;
      while c != null
        invariant |kids| <= |childNodes|
        invariant kids == childNodes[..|kids|]
        invariant c == if |kids| < |childNodes| then childNodes[|kids|] else null
        decreases |childNodes| - |kids|
      {
        kids := kids + [c];
        c := c.nextSibling;
      }
    }

    /**
     * Node::extend: walks the sibling chain of `src`, appending each child to
     * this node in order (which re-parents it), then empties the linked view of
     * `src` (its `firstChild` and `num_children`). As in the source, the vector
     * and `lastChild` of `src` are left as they were; `src` is deleted next.
     * The caller passes a node that is neither this one, nor a child of it, nor
     * its parent.
     */
    method Extend(src: Node)
      requires Valid() && src.Valid()
      requires src != this && src !in childNodes && this !in src.childNodes
      modifies this`firstChild, this`lastChild, this`numChildren, this`childNodes
      modifies src`firstChild, src`numChildren
      modifies childNodes`nextSibling, src.childNodes`parentNode, src.childNodes`nextSibling
      ensures Valid()
      ensures childNodes == old(childNodes) + old(src.childNodes)
      ensures numChildren == old(numChildren) + old(src.numChildren)
      ensures forall c :: c in old(src.childNodes) ==> c.parentNode == this
      ensures src.firstChild == null && src.numChildren == 0
      ensures src.childNodes == old(src.childNodes) && src.lastChild == old(src.lastChild)
      ensures parentNode == old(parentNode) && nextSibling == old(nextSibling) && slist == old(slist)
      ensures names == old(names) && types == old(types) && vars == old(vars)
      ensures src.parentNode == old(src.parentNode) && src.nextSibling == old(src.nextSibling) && src.slist == old(src.slist)
      ensures src.names == old(src.names) && src.types == old(src.types) && src.vars == old(src.vars)
    {
      ghost var mine, moved := childNodes, src.childNodes;
      assert src !in mine && src !in moved && this !in mine && this !in moved;
      AdoptChain(src);
      ParentOfTail(mine, moved);
      src.firstChild := null;
      src.numChildren := 0;
    }

    /** Every node of a tail of the children has this node as parent. */
    lemma ParentOfTail(mine: seq<Node>, moved: seq<Node>)
      requires Valid() && childNodes == mine + moved
      ensures forall c :: c in moved ==> c.parentNode == this
    {
      forall c | c in moved
        ensures c.parentNode == this
      {
        var j :| 0 <= j < |moved| && moved[j] == c;
        assert childNodes[|mine| + j] == c;
      }
    }

    /** The loop of Node::extend: appends every node of the sibling chain of `src`, in order. */
    method AdoptChain(src: Node)
      requires Valid() && src.Valid()
      requires src != this && src !in childNodes && this !in src.childNodes
      modifies this`firstChild, this`lastChild, this`numChildren, this`childNodes
      modifies childNodes`nextSibling, src.childNodes`parentNode, src.childNodes`nextSibling
      ensures Valid()
      ensures childNodes == old(childNodes) + old(src.childNodes)
    {
      ghost var moved := src.childNodes;
      ghost var mine := childNodes;
      assert forall j :: 0 <= j < |moved| ==> moved[j] != this && moved[j] !in mine;
      assert forall i, j :: 0 <= i < j < |moved| ==> moved[i] != moved[j];
      var c := src.firstChild;
      ghost var k := 0;
      while c != null
        invariant k <= |moved| && Valid() && childNodes == mine + moved[..k]
        invariant c == (if k < |moved| then moved[k] else null) && PendingChain(moved, k, src)
        decreases |moved| - k
      {
        assert lastChild == null || lastChild in mine || lastChild in moved;
        c := AdoptNext(c, moved, mine, k, src);
        k := k + 1;
      }
    }

    /** The children of `src` not yet moved still form its sibling chain. */
    ghost predicate PendingChain(moved: seq<Node>, k: nat, src: Node)
      reads moved
    {
      && (forall j :: k <= j < |moved| ==> moved[j].parentNode == src)
      && (forall i, j :: k <= i && j == i + 1 < |moved| ==> moved[i].nextSibling == moved[j])
      && (k < |moved| ==> moved[|moved| - 1].nextSibling == null)
    }

    /** One step of Node::extend: appends the next chained child and returns its old sibling. */
    method AdoptNext(c: Node, ghost moved: seq<Node>, ghost mine: seq<Node>, ghost k: nat, src: Node) returns (next: Node?)
      requires Valid() && k < |moved| && c == moved[k] && src != this
      requires childNodes == mine + moved[..k]
      requires forall j :: 0 <= j < |moved| ==> moved[j] != this && moved[j] !in mine
      requires forall i, j :: 0 <= i < j < |moved| ==> moved[i] != moved[j]
      requires PendingChain(moved, k, src)
      modifies this`firstChild, this`lastChild, this`numChildren, this`childNodes
      modifies c`parentNode, c`nextSibling, (if lastChild == null then {} else {lastChild})`nextSibling
      ensures Valid()
      ensures childNodes == mine + moved[..k + 1]
      ensures next == if k + 1 < |moved| then moved[k + 1] else null
      ensures PendingChain(moved, k + 1, src)
    {
      next := c.nextSibling;
      ghost var last := lastChild;
      assert last != null ==> last in mine + moved[..k];
      AppendChild(c);
      assert mine + moved[..k] + [moved[k]] == mine + moved[..k + 1];
    }
  }
}
