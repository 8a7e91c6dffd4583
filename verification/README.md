# Mamba front end: AST nodes, type names and the code generator

This project models three connected pieces of the Mamba compiler front end
and proves properties about them.

- **The AST tree** (`ast.cc`). Every `Node` keeps its children twice: as the
  owned vector `childNodes` with its counter `num_children`, and as the chain
  `firstChild -> nextSibling -> ... -> lastChild`, where every child points
  back to its parent. `AstNode.Node` is a class with these fields. Its
  `Valid()` predicate says the two views agree. `appendChild`, `addString` and
  `extend` are methods that keep `Valid()`.
- **AST shapes and type names** (`ast.h`). `AstLayout` has one constructor
  method per node class. Each fixes the order of the children, including the
  optional ones (the else branch, the return expression, the return type).
  A constructor may change only the parent and sibling links of the nodes
  it adopts, so their own children and strings stay as they were.
  `AstLayout.AppendNamedChild` keeps a type list's `names` and `types` aligned.
  `AstTypes.TypeName` renders a type the way the `type_name()` methods do
  (ast.h:57-156), and `AstTypes.Commas` joins a parameter list's names with
  ",". `AstTypes.ReturnTypeName` is the code generator's `getreturntype`,
  which reads a function's return type name back out of the function type's
  name; `AstTypes.ReturnTypeNameOfFuncType` proves that it does.
- **The code generator** (`codegen.h`). `Codegen.Generator` is a visitor with:
  - a stack of typed values (`Values.Expr`);
  - the scope environment, a list of name→value frames searched innermost
    first (`Scope`);
  - paired stacks of continue and break targets;
  - an IR builder.

  The LLVM builder is replaced by an abstract IR (`Ir`): a `Builder` value
  holding the function signatures, numbered blocks of instructions (each
  with its function, or none, and its name), the insertion cursor and a
  counter for new values. `Ir.Emit` appends one instruction at the cursor,
  and the model emits one for every `builder->Create...` call, including the
  calls LLVM's IRBuilder would fold into a constant or place at module level
  instead (see "## Left out"). `Fresh`, `CreateBlock`, `SetInsertPoint`
  and `CreateFunction` are plain record updates standing for
  `BasicBlock::Create`, `SetInsertPoint` and `Function::Create`. `Reaching`
  reads a block's final branch and the incoming edges of a leading phi, so
  that the control flow built by And, Or, IfElse and While can be stated. The binary
  and unary operator tables are in `Ops`. Each visit handler is a method. It
  either stops with a `CgError` wherever the source asserts or reports an
  error, or it succeeds. On success it keeps `Disciplined(a)`, which means:
  - both loop stacks are unchanged;
  - bindings are only added to the innermost frame;
  - for a well-formed node, exactly `Net(a)` values are pushed over the
    untouched old stack.

## Behaviour as written

The model follows the code where it does something a reader might not
expect:

- **Continue** checks that `continue_blocks` is not empty, but then branches
  to the top of the *break* stack (codegen.h:533-536,
  `Codegen.Generator.VisitContinue`).
- **And and Or are not short-circuit.** Both operands are lowered before any
  branch is built (codegen.h:336-337, 368-369). The branch tests the value on
  top of the stack, which is the *right* operand. `Codegen.JoinSelects` shows
  that the phi still computes the conjunction or disjunction of the two
  values. And's `and_end` block belongs to no function (codegen.h:352).
- **While** lowers its condition once, before the loop. No block branches
  into `while_start` until the body's back edge (codegen.h:444-465,
  `Codegen.LoopHeadBranches`).
- **Binary** results carry the right operand's type tag. The comparisons and
  all Int operations record the 32-bit integer type, so a comparison is tagged
  "Int" or "Float" and typed `i32` (codegen.h:210-324).
- **Assign** lowers each target as an expression and stores into the value
  that the target's lowering produced. For a variable, that value is the
  result of a load (codegen.h:162-170).
- **Return** is not checked against the signature (codegen.h:538-550).
- **For** rejects a loop variable that is already bound, then lowers the
  iterable and leaves it on the stack. Its loop body is compiled out
  (codegen.h:474-526).
- **VarDecl** of a name already bound in the innermost frame keeps the old
  binding, because `map::insert` does not overwrite (codegen.h:93-95).
- **Function** leaves the insertion point inside the new function
  (codegen.h:572-591).
- Where codegen.h does not compile, the model follows the evident intent:
  - the missing braces in the `else if` chains (codegen.h:215-274, 299-322);
  - `method_name`, read as the node's operator (codegen.h:179, 185);
  - `Binary` and `Unary` store the operator as `int op` (ast.h:214, 225),
    but the generator compares `v->opname` with strings (codegen.h:191,
    211); the model keeps the operator as a string;
  - `break_block`, read as `break_blocks` (codegen.h:530, 535);
  - the missing semicolons.

## Model

| member | source | states |
|---|---|---|
| AstNode.Node.constructor | ast.cc:5-7 | a new node has no parent, no sibling, no first or last child, zero children and no strings, and is Valid |
| AstNode.Node.AppendChild | ast.cc:22-33 | `n` becomes the last element of `childNodes` and the earlier ones stay; `num_children` goes up by one; `firstChild` becomes `n` on an empty node; otherwise the old last child's `nextSibling` becomes `n`; `n.parentNode` is this node, `lastChild` is `n` and `n.nextSibling` is null; Valid is kept (the two views agree); only this node's child fields, `n`'s parent and sibling links and the old last child's sibling link may change, so this node's strings and parent, and `n`'s own children, are untouched |
| AstNode.Node.AddString | ast.cc:35-37 | appends the string to `slist` and changes no other field |
| AstNode.Node.ChildrenByLinks | ast.cc:10-15 | on a Valid node, walking `nextSibling` from `firstChild` visits exactly `childNodes`, in order |
| AstNode.Node.Extend | ast.cc:46-56 | this node's children become its old children followed by all of `src`'s chained children, in order; the counter grows by theirs; every moved child has this node as parent; `src` ends with `firstChild` null and `num_children` 0; Valid is kept; this node's and `src`'s parent, sibling and strings are unchanged, and the moved children change only their parent and sibling links |
| AstNode.Node.AdoptChain | ast.cc:47-52 | the loop of extend appends the sibling chain of `src` in order and keeps Valid |
| AstNode.Node.AdoptNext | ast.cc:48-51 | one iteration: appends the next chained child and returns its old `nextSibling`, the next child still to move |
| AstLayout.NewTypeList | ast.h:49 | an empty type list whose names and types are aligned |
| AstLayout.AppendNamedChild | ast.h:51-56 | appends the name to `names`, the type to `types` and the type as the last child (and parent-links it); names and types stay the same length and index-aligned with the children; `t` changes only its parent and sibling links, so its own subtree is untouched |
| AstLayout.NewSimpleType | ast.h:73-75 | owns its name; no children |
| AstLayout.NewRefType | ast.h:85-87 | the base type is the only child |
| AstLayout.NewPtrType | ast.h:97-99 | the base type is the only child |
| AstLayout.NewArrayType | ast.h:109-111 | the base type is the only child |
| AstLayout.NewMapType | ast.h:122-126 | children `[key, val]` |
| AstLayout.NewTupleType | ast.h:136-138 | the base type is the only child |
| AstLayout.NewFuncType | ast.h:149-152 | children `[params]`, or `[params, ret]` when there is a return type |
| AstLayout.NewTrue | ast.h:166 | no children, no strings |
| AstLayout.NewFalse | ast.h:172 | no children, no strings |
| AstLayout.NewInteger | ast.h:179 | carries the 64-bit value; no children |
| AstLayout.NewReal | ast.h:186 | carries the value; no children |
| AstLayout.NewString | ast.h:193-195 | owns the text; no children |
| AstLayout.NewVariable | ast.h:206-208 | owns the name; no children |
| AstLayout.NewBinary | ast.h:216-219 | children `[left, right]` |
| AstLayout.NewUnary | ast.h:227-229 | the operand is the only child |
| AstLayout.NewAnd | ast.h:236-239 | children `[left, right]` |
| AstLayout.NewOr | ast.h:246-249 | children `[left, right]` |
| AstLayout.NewFunction | ast.h:257-260 | children `[proto, body]` |
| AstLayout.NewReturn | ast.h:267-270 | one child when there is an expression, none otherwise |
| AstLayout.NewCall | ast.h:277-280 | children `[callee, arguments]` |
| AstLayout.NewArray | ast.h:287-289 | the element list is the only child |
| AstLayout.NewSubscript | ast.h:296-299 | children `[var, idx]` |
| AstLayout.NewAttribute | ast.h:307-310 | owns the attribute name; the object is the only child |
| AstLayout.NewExpr | ast.h:318-320 | the expression is the only child |
| AstLayout.NewExprList | ast.h:326 | empty |
| AstLayout.NewStmtList | ast.h:332 | empty |
| AstLayout.NewAssign | ast.h:340-344 | children `[expr, var]` and `vars == [var]` |
| AstLayout.NewIfElse | ast.h:352-357 | children `[expr, body]`, or `[expr, body, ifelse]` when there is an else branch |
| AstLayout.NewFor | ast.h:372-376 | owns the variable name; children `[iterable, body]` |
| AstLayout.NewWhile | ast.h:383-386 | children `[expr, body]` |
| AstLayout.NewBreak | ast.h:392 | no children |
| AstLayout.NewContinue | ast.h:398 | no children |
| AstLayout.NewVarDecl | ast.h:406-409 | owns the name; the initializer is the only child |
| AstLayout.NewFuncDecl | ast.h:417-420 | owns the name; the function is the only child |
| AstLayout.NewRecordDef | ast.h:428-431 | owns the name; the declaration list is the only child |
| AstLayout.NewUnionItem | ast.h:439-443 | owns the name; the type is a child only when present |
| AstLayout.NewUnionList | ast.h:449 | empty |
| AstLayout.NewUnionDef | ast.h:457-460 | owns the name; the type list is the only child |
| AstTypes.TypeListTypeName | ast.h:57-67 | the loop's result is the element names joined by "," (Commas): "" for an empty list, and ending in the last element's name, with no trailing comma |
| AstTypes.TypeNameBalanced | ast.h:77-156 | every type name rendered from plain SimpleType names (`&T`, `*T`, `[T]`, `[K:V]`, `(T)`, `(P)->R`) has balanced parentheses |
| AstTypes.CommasBalanced | ast.h:57-67 | a comma-joined list of such names is balanced |
| AstTypes.ReturnTypeNameOfFuncType | ast.h:154-156 | reading the return type back out of a function type's name gives the return type's name, or "" with no return type |
| AstTypes.ReturnAfterBalanced | ast.h:155 | whatever follows the `)->` that closes a balanced parameter text is the return type name |
| AstTypes.CloseAfter | ast.h:155 | the closing-parenthesis search skips a stretch that never closes, shifted by its length |
| AstTypes.DepthConcat | ast.h:155 | parenthesis depth adds up over concatenation |
| AstTypes.StaysConcat | ast.h:155 | two stretches that never close do not close together |
| AstTypes.FlatText | ast.h:78 | a name without parentheses does not change the depth |
| AstTypes.Cat | ast.h:60-64 | balanced texts concatenate to a balanced text |
| AstTypes.Prefixed | ast.h:90-114 | the prefixes `&`, `*`, `[` keep a name balanced |
| AstTypes.Suffixed | ast.h:114-129 | the suffixes `]`, `:`, `,` keep a name balanced |
| AstTypes.InParens | ast.h:141-155 | `(` + a text balanced one level deeper + `)` or `)->` is balanced |
| AstTypes.Close | ast.h:155 | the closing index found is inside the text |
| Ir.Emit | codegen.h:141-142 | an instruction goes at the end of the insertion block: that block keeps its function, its name and its earlier instructions, and every other block, the function list, the cursor and the value counter are unchanged |
| Scope.Lookup | codegen.h:83-91 | finds a binding if and only if some frame has the name, and then it is the value in the innermost such frame |
| Scope.LookupPrefix | codegen.h:84-89 | scanning frames from frame i-1 outwards: frame i-1 first, then the outer ones |
| Scope.LookupInnermost | codegen.h:83-91 | the innermost binding frame is unique: if frame i binds the name and no inner frame does, lookup returns frame i's value |
| Scope.Bind | codegen.h:93-95 | only the innermost frame changes; it gains the name unless it already had it, in which case nothing changes |
| Scope.BindLookup | codegen.h:93-95 | after a bind the name resolves to the new value unless the innermost frame already had it; every other name resolves as before |
| Scope.BindExtends | codegen.h:93-95 | a bind only adds to the innermost frame |
| Scope.ExtendsTrans | codegen.h:93-95 | successive binds only add to the innermost frame |
| Scope.ScopeRestores | codegen.h:97-103 | push_scope, binds into the new frame, pop_scope: the frames are exactly the old ones, so every name (shadowed or not) resolves as before |
| Scope.InnerShadows | codegen.h:97-99 | while the inner frame is open, its names hide the outer bindings |
| Ops.IntOpcode | codegen.h:210-274 | Int×Int accepts exactly `+ - * / % & \| ^ << >> < <= > >= == !=`; the six comparisons are the integer comparisons |
| Ops.FloatOpcode | codegen.h:278-322 | Float×Float accepts exactly `+ - * / %` and the six comparisons; the comparisons are the float comparisons |
| Ops.BinaryDispatch | codegen.h:210-326 | an operation is lowered if and only if both tags are "Int" with an Int operator or both are "Float" with a Float operator; its LLVM type is i32 for Int operations and Float comparisons and float for Float arithmetic; anything else is the error |
| Ops.MixedOperandsRejected | codegen.h:210-326 | mixed Int/Float operands are rejected for every operator |
| Ops.FloatRejectsBitwise | codegen.h:210-322 | the bitwise and shift operators are accepted on Int operands and rejected on Float operands |
| Ops.UnaryDispatch | codegen.h:179-191 | accepts exactly ("Int", "~"), typed i32, and ("Bool", "not"), typed i1 |
| Values.KeptTrans | codegen.h:37-42 | the per-visit invariant on scopes, loop stacks and blocks is transitive |
| Values.KeptTrans3 | codegen.h:37-42 | the same invariant over three successive visits |
| Values.PushedTrans | codegen.h:38 | pushing n values and then m values pushes n+m over the untouched old stack |
| Codegen.Translate | codegen.h:554 | the four built-in type names map to i1, i32, float and i8*; every other name is an opaque type of that name |
| Codegen.ParamTypes | codegen.h:556-560 | one translated type per parameter, in order |
| Codegen.Wrap32 | codegen.h:114 | `getInt32` keeps the literal's value modulo 2^32, as a value below 2^32 |
| Codegen.Wrap32Exact | codegen.h:114 | a literal that fits in 32 bits is kept exactly |
| Codegen.CheckCallee | codegen.h:599-601 | the callee passes if and only if it has a function type with as many parameters as arguments; otherwise it is not a function, or the arity is wrong |
| Codegen.Vals | codegen.h:612 | the argument values, in order |
| Codegen.Join | codegen.h:349-363 | And and Or add exactly two blocks and keep an insertion block |
| Codegen.JoinSelects | codegen.h:349-363 | leaving the left-hand block with the branch value true or false, the phi yields `second` or `first` for And, and `first` or `second` for Or: the value of `first && second` or `first \|\| second`; no other older block changes |
| Codegen.IfHead | codegen.h:407-432 | IfElse adds three blocks with an else branch and two without, and continues in the first new one |
| Codegen.IfHeadBranches | codegen.h:407-432 | the old block ends with a branch to "if_true" on true and to "if_false" (or "if_end" without an else) on false; "if_end" is the last block; nothing else older changes |
| Codegen.LoopHead | codegen.h:453-463 | While adds three blocks and continues in the body block |
| Codegen.LoopHeadBranches | codegen.h:453-463 | "while_start" branches to "while_body" on true and "while_end" on false, and the older blocks stay as they were: nothing enters "while_start" before the back edge |
| Codegen.Generator.constructor | codegen.h:37-71 | no value, no frame, no loop and an empty module |
| Codegen.Generator.GetVar | codegen.h:83-91 | the loop's result is Lookup: the innermost binding, or none |
| Codegen.Generator.AddVar | codegen.h:93-95 | the environment becomes Bind of the old one |
| Codegen.Generator.PushScope | codegen.h:97-99 | appends an empty frame |
| Codegen.Generator.PopScope | codegen.h:101-103 | removes the innermost frame |
| Codegen.Generator.Pop | codegen.h:38 | takes the top value off the stack, or reports an empty stack |
| Codegen.Generator.Lower | codegen.h:105-637 | dispatch to the node's handler: on success Disciplined (loop stacks unchanged, bindings only added to the innermost frame, and for a well-formed node Net(a) values pushed over the untouched stack, with the environment unchanged unless the node is a declaration); Ready is kept |
| Codegen.Generator.LowerValue | codegen.h:136-139 | lowers a child and pops its value; a well-formed expression leaves the stack and scopes as they were; for a function the popped value is the new function's value (`FunctionValue`) |
| Codegen.Generator.VisitBool | codegen.h:105-111 | pushes the constant, tagged "Bool" with type i1 |
| Codegen.Generator.VisitInteger | codegen.h:113-115 | pushes the literal's low 32 bits, tagged "Int" with type i32 |
| Codegen.Generator.VisitReal | codegen.h:117-119 | pushes the constant, tagged "Float" with type float |
| Codegen.Generator.VisitString | codegen.h:121-124 | emits a global string and a pointer to it, and pushes the pointer tagged "String" |
| Codegen.Generator.VisitVariable | codegen.h:126-133 | an unbound name fails with nothing changed; a bound one emits a load of the binding's value and pushes it with the binding's tag and type |
| Codegen.Generator.VisitVarDecl | codegen.h:135-145 | on success the initializer's value `v` is popped; the insertion block ends with an alloca of `v`'s type into the newest value number and a store of `v` into it; the name is bound as map::insert binds it (`Bind`: an existing binding in the innermost frame stays) to that slot, tagged and typed as `v`; a function initializer's `v` is its `FunctionValue` |
| Codegen.Generator.Declare | codegen.h:140-144 | emits a slot of the value's type and a store of the value into it, and binds the name to the slot with the value's tag |
| Codegen.Generator.VisitFuncDecl | codegen.h:147-154 | lowers the function and binds the name in the innermost frame: for a well-formed declaration the environment is exactly the old one with that single bind, and when the child is a `Function` node the bound value is the new function's value, numbered after all existing functions |
| Codegen.Generator.VisitAssign | codegen.h:156-171 | on success (right-hand side lowered once, then each target with StoreChecked): Disciplined, so the stack and the environment end as they began and the loop stacks are unchanged |
| Codegen.Generator.StoreChecked | codegen.h:168-169 | a target whose tag differs from the right-hand side's is a type mismatch with nothing emitted; otherwise one store of the right-hand side into the target |
| Codegen.Generator.VisitUnary | codegen.h:173-197 | on success (operand lowered, then ApplyUnary): Disciplined, exactly one value pushed over the old stack, environment unchanged |
| Codegen.Generator.ApplyUnary | codegen.h:179-191 | "~" on Int emits an xor with all ones and "not" on Bool a not; the result keeps the operand's tag; anything else is an unsupported operation with nothing changed |
| Codegen.Generator.VisitBinary | codegen.h:199-207 | on success (left, then right, then ApplyBinary): Disciplined, exactly one value pushed over the old stack, environment unchanged |
| Codegen.Generator.LowerOperands | codegen.h:200-201 | both operands are lowered, pushing two values |
| Codegen.Generator.LowerRight | codegen.h:201 | the right operand pushes one value |
| Codegen.Generator.ApplyBinary | codegen.h:204-326 | pops the right then the left value; a pair the table accepts pushes the result under the right operand's tag with one arithmetic instruction on (left, right); otherwise an unsupported operation, nothing emitted |
| Codegen.Generator.VisitAnd | codegen.h:335-365 | on success (both operands, then JoinLogical): Disciplined, exactly one value pushed over the old stack, environment unchanged |
| Codegen.Generator.VisitOr | codegen.h:367-397 | on success (both operands, then JoinLogical): Disciplined, exactly one value pushed over the old stack, environment unchanged |
| Codegen.Generator.JoinLogical | codegen.h:338-364 | the top value, then the next, must be tagged "Bool" (otherwise an error naming the tag and nothing emitted); then the blocks of Join and a "Bool" i1 result replace both |
| Codegen.Generator.LowerScoped | codegen.h:415-419 | a body lowered in a fresh frame that is then dropped: the environment is exactly the old one, the loop stacks are unchanged, a well-formed statement body leaves the stack as it was, and the block lowering stopped in ends with a branch to `next` |
| Codegen.Generator.VisitIfElse | codegen.h:399-441 | on success (condition lowered, popped and accepted by `CheckCond`, then Branches): Disciplined, the stack and the environment as before, the loop stacks unchanged |
| Codegen.Generator.Branches | codegen.h:409-440 | both branches in their own frames; the scopes and the stack end as they began; lowering goes on in "if_end", the last new block, and the block the last branch ended in ends with a branch to it |
| Codegen.Generator.VisitWhile | codegen.h:443-472 | on success (condition lowered, popped and accepted by `CheckCond`, then Loop): Disciplined, the stack and the environment as before, and the continue and break stacks as they were before the loop |
| Codegen.Generator.Loop | codegen.h:453-471 | one continue target and one break target pushed around the body (by `LowerLoopBody`) and both popped: both loop stacks end as they began, lowering continues in the third new block, `while_end`, and the block the body ended in ends with the back edge, a branch to `while_start` |
| Codegen.Generator.LowerLoopBody | codegen.h:459-467 | while the body is lowered, `while_start` is on top of the continue stack and `while_end` on top of the break stack, over the enclosing loops' targets; on success they are still there, the scopes are as before, a well-formed statement body leaves the stack as it was, and the block the body ended in ends with a branch to `while_start` |
| Codegen.Generator.VisitFor | codegen.h:474-482 | a loop variable bound in any frame is an error with nothing changed; success implies it was unbound, and leaves the iterable on the stack |
| Codegen.Generator.VisitBreak | codegen.h:528-531 | outside a loop it is an error; otherwise one branch to the innermost break target |
| Codegen.Generator.VisitContinue | codegen.h:533-536 | outside a loop it is an error; otherwise one branch to the innermost *break* target, as written |
| Codegen.Generator.VisitReturn | codegen.h:538-550 | without an expression one `ret void` and nothing else changes; with one, a successful visit ends the insertion block with a `ret` and leaves the stack as it was |
| Codegen.Generator.VisitFunction | codegen.h:552-591 | no return type is an error with nothing changed; on success the function value (`FunctionValue`, numbered after the existing functions) is on top, and the scopes are as before |
| Codegen.FunctionValue | codegen.h:554-590 | the pushed value has a function type with one parameter per declared parameter and refers to the new function; for plain type names the return type name read back from its tag is the declared return type's name |
| Codegen.CheckCond | codegen.h:443-449 | a condition (codegen.h:403 and 447) is accepted if and only if it is tagged "Bool"; otherwise the error names the tag found |
| Codegen.Generator.LowerFunctionBody | codegen.h:563-588 | the function is the next function number; it is opened (OpenFunction) and its body lowered in the parameters' frame, which is then dropped: the environment is the one before the function, the loop stacks are unchanged, and a well-formed body leaves the stack as it was |
| Codegen.Generator.OpenFunction | codegen.h:563-584 | one new function of the prototype's type; a new "entry" block of it as insertion point, holding exactly an alloca and a store of argument `i` for each parameter `i`, into value number `n + i` (`ParamSlots`); a new frame that binds every parameter name and is exactly `BoundFrame` of the empty frame over the parameters' names, `TypeName` tags and translated types, so (by `BoundFrameBinds`) the first parameter of each name is bound to its own slot with that tag and type |
| Codegen.Generator.BindParams | codegen.h:577-584 | the insertion block gains exactly `ParamSlots` and the value counter grows by the number of parameters; other blocks and the cursor stay; the innermost frame grows (`Extends`) to hold every parameter name, each first occurrence of a new name bound to its own slot with its tag and type (`ParamsBound`); the frame is exactly the insertion fold `BoundFrame` |
| Codegen.Generator.BindParam | codegen.h:579-582 | one iteration: an alloca for parameter `i` into the next value number, a store of argument `i` into it, and the name inserted as map::insert does; the block and the frame go from `i` parameters to `i + 1` |
| Codegen.ParamSlotsAt | codegen.h:578-583 | instruction `2i` of the parameter code is parameter `i`'s alloca of its type into value number `n + i`, and instruction `2i + 1` the store of argument `i` into it |
| Codegen.ParamTags | codegen.h:579-582 | one tag per parameter: the `type_name()` of its type |
| Codegen.BoundFrameKeys | codegen.h:578-584 | after the loop the frame holds exactly the names it held before and the parameter names |
| Codegen.BoundFrameSlot | codegen.h:578-584 | a parameter whose name was not yet bound is bound to its own slot, and a later parameter of the same name does not replace it |
| Codegen.BoundFrameBinds | codegen.h:578-584 | the frame the parameter loop builds satisfies `ParamsBound` |
| Codegen.Generator.VisitCall | codegen.h:593-619 | on success (callee, CheckCallee, CallWith): Disciplined, exactly one value pushed over the old stack, environment unchanged |
| Codegen.Generator.CallWith | codegen.h:603-618 | arguments and call push exactly one value |
| Codegen.Generator.LowerArgs | codegen.h:605-614 | on success one value per parameter, each of its parameter's type, in order |
| Codegen.Generator.FinishCall | codegen.h:616-618 | one call instruction on the argument values, and its result pushed with the return type name read from the callee's tag and the callee's return type |

## Left out

- The LLVM machinery is left out: the module, JIT engine and pass manager setup, and `dump` (codegen.h:47-77). Instructions, blocks and functions are abstract values. Value names ("cast", "nottmp", ...) and argument names are dropped.
- Floating-point arithmetic is left out. Float constants are `real` and float operations are only opcodes.
- `Node::~Node` and memory freeing are left out (ast.cc:9-20). Dafny is garbage-collected.
- `extend` ends with `delete n`, which the model does not do. `src` keeps its vector and `lastChild`, as the source leaves them just before the delete.
- `error()` in codegen.h prints a message and returns, leaving no value, and a failed `assert` aborts. Both are modelled as stopping lowering with a `CgError`.
- The `#if 0` iterator body of For (codegen.h:484-525) is left out. It is disabled in the source.
- The empty stub visitors for arrays, subscripts, attributes, expression statements, lists, records, unions and type nodes (codegen.h:621-637) are one `Stub` node that does nothing.
- `Codegen.Generator.Lower` requires `Ready`: an open frame, an insertion block and paired loop stacks. The source never opens the outermost frame or an insertion block itself; its caller is expected to.
- `translate_type`, `getreturntype` and `IntNot` are used in codegen.h but declared in none of its files:
  - `translate_type` is modelled as `Codegen.Translate`;
  - `getreturntype` as `AstTypes.ReturnTypeName`;
  - `IntNot` as the all-ones 32-bit constant.
- AstTypes.ReturnTypeNameOfFuncType: proved only for types whose SimpleType names contain no parentheses. A name with a parenthesis in it could confuse the reading.
- The type-list rendering of a `Function` prototype uses the parameter types of `Syntax.Ast`. Type nodes are values there, not `AstNode.Node` objects, and the parser that builds them is not part of this model.
- Codegen.Generator.VisitString: the global string is an instruction of the current block, and the call always succeeds. In LLVM, `CreateGlobalString` (codegen.h:122) adds a module-level global, and the pointer to its first byte (codegen.h:123) is a folded constant, not an instruction. `CreateGlobalString` reaches the module through the insertion block's function. A function built by Function has no module (codegen.h:564), so a string literal inside a function body dereferences a null module in the source, while the model lowers it.
- IRBuilder's constant folding is not modelled: a `builder->Create...` call whose operands are all constants (`1 + 2`, `~5`, `not true`) yields a constant in LLVM and appends nothing, while the model always emits the instruction (`Ir.Emit`).
- Codegen.Generator.OpenFunction: parameters are bound under their names as written. The source names each LLVM argument after its parameter (codegen.h:568) and binds the argument's name (codegen.h:582). LLVM keeps the names in a function unique and renames a repeated one, so in the source a second parameter `x` is bound under a new name such as `x1`. The model binds it under `x`, where map::insert keeps the first parameter's binding, and has no `x1`. LLVM's renaming scheme is not part of this model. With distinct parameter names the two agree.
- Codegen.Generator.BindParams: binds the names it is given as written, so for repeated parameter names its frame lacks the LLVM-renamed bindings (see OpenFunction above).
- Codegen.Generator.BindParam: inserts the parameter's name as written with map::insert, where the source inserts LLVM's unique argument name (see OpenFunction above).
- Codegen.BoundFrameKeys: the key set it states is the old names and the parameter names as written; for repeated parameter names the source's frame holds LLVM-renamed keys instead (see OpenFunction above).
- Codegen.BoundFrameBinds: `ParamsBound`'s exact key set is that of the names as written, so it does not hold the source's renamed keys for repeated names (see OpenFunction above).
- Codegen.Generator.Declare: the slot's type is the value's recorded LLVM type, while the source asks the LLVM value itself for its type (codegen.h:141). The two differ in two cases: a comparison is recorded as `i32` but is an `i1` value (codegen.h:252-253, 300-301), and a function value is recorded with the function type but is a pointer to the function (codegen.h:590). For `var b = x < y` the source allocates an `i1` slot and the model an `i32` slot. The same holds for the slot `Codegen.Generator.VisitVarDecl` allocates, which it takes from `Declare`.
- Codegen.Generator.VisitFunction: the prototype must have a return type. The source dereferences a missing one (codegen.h:553), and the model reports `NoReturnType`.
- Codegen.Generator.VisitAssign: the contract states the discipline. The tag check and the store for each target are stated by `StoreChecked`, not by this contract, and the exact list of stores is not stated.
- Codegen.Generator.VisitIfElse: the contract states the discipline. The "Bool" check on the condition (codegen.h:403) is stated by `CheckCond`, and the blocks by `IfHead` and `IfHeadBranches`.
- Codegen.Generator.VisitWhile: the contract states the discipline. The "Bool" check on the condition (codegen.h:447) is stated by `CheckCond`, and the blocks by `LoopHead`, `LoopHeadBranches` and `Loop`.
- Codegen.Generator.Branches: with an else branch, the contract names only the else branch's exit block as ending with a branch to "if_end". The then branch's exit ends that way when `LowerScoped` returns (its contract says so), but the visitors' contracts do not say which older blocks a later visit leaves alone, so that fact is not carried past the else branch.
- Codegen.Generator.VisitUnary: the contract states the discipline. The operator table and the instruction are stated by `ApplyUnary`.
- Codegen.Generator.VisitBinary: the contract states the discipline. The operator table and the instruction are stated by `ApplyBinary`.
- Codegen.Generator.VisitAnd: the contract states the discipline. The "Bool" checks and the blocks are stated by `JoinLogical`, `Join` and `JoinSelects`.
- Codegen.Generator.VisitOr: as VisitAnd.
- Codegen.Generator.VisitReturn: with an expression, the contract says the block ends in a `ret` but not which value it returns.
- Codegen.Generator.VisitCall: the contract states the discipline. The callee and argument checks are stated by `CheckCallee` and `LowerArgs`, and the argument type check compares LLVM types, as the source does (codegen.h:611).
- Integer literals are 64-bit (`AstNode.Int64`) and are truncated to 32 bits by `Codegen.Wrap32`. Integer arithmetic in the generated code is not evaluated.
- typeclass.h, float32.h, mamba_context.cc/.h and main.cc (the parser driver and I/O) are not part of this model.
