# human_pyteal, modelled in Dafny

human_pyteal turns a module of restricted, type-annotated Python functions
into a PyTeal program. It does this in three steps:

1. **The collector** (`PyTealVisitor`) starts from a target function. It walks the
   definitions of the module, target first, in one pass. For every definition
   whose name has already been called, it checks the signature and records
   `(parameters, return type)`. It also collects the bare names called in that
   definition.
2. **The lowerer** (`PyTealTransformer`) rewrites the body of every reachable
   definition into PyTeal builder calls:
   - literals become `Int`/`Bytes`;
   - `print`/`len`/`int`/`bytes` become `Log`/`Len`/`Btoi`/`Itob`;
   - `not`/`and`/`or` become `Not`/`And`/`Or`;
   - `+` on byte strings becomes `Concat`;
   - `if`/`while`/`raise`/`assert`/`return` become `If(..).Then(..)`, `While(..).Do(..)`, `Err`, `Assert` and `Return`.

   Assignments whose type is known become scratch slots
   (`x = ScratchVar(TealType.t)` declared once, `x.store(v)` inline, `x.load()` on
   reads). Each function body is then reassembled as: hoisted assignments, then
   slot declarations, then one `Return(Seq(...))`.
3. **The helpers** (`utility.py`) map annotations to Teal types, pick out
   `Bytes(...)` literals, build `Load` names, and turn `if`/`elif`/`else` into an
   `If(..).Then(..).ElseIf(..).Then(..).Else(..)` chain.

The project is organised by module:

| module | file | what it holds |
|---|---|---|
| `Wrappers` | `wrappers.dfy` | `Option`, `Result` |
| `PyAst` | `pyast.dfy` | the restricted Python syntax tree; one `Node` type holds statements and expressions, because the lowerer splices statements into call arguments. Also sizes and well-formedness predicates. |
| `Container` | `container.dfy` | signatures (`TealFunction`) and scratch slots (`Variable`), with their lookups |
| `Utility` | `utility.dfy` | the helpers of `utility.py`, plus a decoder that reads an `If` chain back |
| `Lowering` | `lowering.dfy` | the lowerer as pure functions that thread a state `LState(slots, hoisted)` through the tree |
| `Transformer` | `transformer.dfy` | the class `Transformer`, whose fields the methods update as `PyTealTransformer` does; every method is proved to agree with `Lowering` |
| `LoweringFacts` | `lowering_facts.dfy` | properties of whole lowerings, and a worked example |
| `Visitor` | `visitor.dfy` | the collector, as specification functions and as the class `Collector` with its `calls` set and `functions` map; also the driver's ordering |
| `Reachability` | `reachability.dfy` | the two findings below, with concrete inputs and the corrected collection |

## Model

| member | source | states |
|---|---|---|
| `Utility.AnnotationTealType` | human_pyteal/utility.py:9-20 | The constant `None` gives `none`. The names `int` and `bool` give `uint64`. `str` gives `bytes`. Everything else gives nothing, including a missing annotation and `bytes`. Each case is an if-and-only-if. |
| `Utility.BytesValue` | human_pyteal/utility.py:23-27 | Some value exactly when the item is a call to the bare name `Bytes` with an argument. The value is the first argument. Otherwise, including for no item, nothing. |
| `PyAst.CreateName` | human_pyteal/utility.py:30-31 | A `Name` with the given id and `Load` context. |
| `Utility.EnsureList` | human_pyteal/utility.py:34-35 | A list is returned as it is; a single node becomes a one-element list. |
| `Utility.TransformIfRoundTrip` | human_pyteal/utility.py:38-55 | Decoding the built chain gives back each test and body unchanged, then every `ElseIf` in source order. Each `Else` holds exactly the non-conditional items of its level, in order, and is present exactly when there are some. |
| `Utility.TransformIfDecode` | human_pyteal/utility.py:38-55 | The same, when the chain extends an earlier one through `ElseIf`. The earlier chain is kept as the prefix. |
| `Utility.DecodeHead` | human_pyteal/utility.py:39-42 | The head is `If(test).Then(*body)`, or `prev.ElseIf(test).Then(*body)`, and decodes to that link. |
| `Utility.DecodeElse` | human_pyteal/utility.py:51-53 | Appending `.Else(*items)` adds one final link with exactly those items. |
| `Utility.ChainOrelseDecode` | human_pyteal/utility.py:43-53 | The loop over `orelse` extends the chain once per conditional item, recursively and in order. It collects the other items, in order, as the else arguments. |
| `Utility.ChainOrelseDecodeConditional` | human_pyteal/utility.py:46-47 | One loop step on an `If`/`IfExp`: the chain grows by that item's links. |
| `Utility.ChainOrelseDecodeOther` | human_pyteal/utility.py:48-49 | One loop step on any other item: the chain is unchanged and the item is appended to the else arguments. |
| `Utility.ChainHeadFacts` | human_pyteal/utility.py:39-42 | Termination support for the lowering of conditionals: the head `If(test).Then(*body)` holds fewer `if` nodes than the input. It stays well formed, and introduces no assignment. |
| `Utility.TransformIfPreserves` | human_pyteal/utility.py:38-55 | Termination support, not a promise of the source: the chain has fewer `if` nodes than the input. It is well formed, and holds an assignment only where the input did. This is why lowering the chain, as `visit_If` does at human_pyteal/pyteal_transformer.py:140-146, terminates. |
| `Utility.ChainOrelsePreserves` | human_pyteal/utility.py:43-53 | Termination support: the same facts for the loop over `orelse`. |
| `Utility.ElseFacts` | human_pyteal/utility.py:51-53 | Termination support: the same facts for the `.Else(...)` step. |
| `Container.ArgType` | human_pyteal/pyteal_transformer.py:32-34 | The type of a parameter of the current function, found exactly when a parameter has that name. |
| `Container.SlotType` | human_pyteal/pyteal_transformer.py:30-31 | The type of a slot, found exactly when a slot has that name. |
| `Container.SlotTypeUnique` | human_pyteal/pyteal_transformer.py:107-110 | With distinct names, the slot of a name is the one found. |
| `Container.SlotTypeExtend` | human_pyteal/pyteal_transformer.py:107-110 | Appending slots to a table leaves the type of every name that already had a slot as it was. |
| `Container.SlotTypeAppend` | human_pyteal/pyteal_transformer.py:107-110 | Appending the slot of a name that has none yet: that name is then found with the new slot's type, and every other name is found as before. |
| `Container.SlotTypePrefix` | human_pyteal/pyteal_transformer.py:107-110 | A slot found in a table is found, with the same type, in every extension of it. |
| `Lowering.TealTypeOf` | human_pyteal/pyteal_transformer.py:25-42 | A fixed priority: (1) a call to a function with a recorded signature gives its return type; (2) a slot name gives the slot's type; (3) a parameter of the current function gives its declared type; (4) anything else gives the fallback, which may answer nothing. |
| `Lowering.RewriteName` | human_pyteal/pyteal_transformer.py:76-83 | A name is changed exactly when it is read (`Load`) and has a slot. It then becomes `x.load()`. |
| `Lowering.RewriteConstant` | human_pyteal/pyteal_transformer.py:164-176 | `True`/`False` become `Int(1)`/`Int(0)` and any other int `n` becomes `Int(n)`. A string becomes `Bytes(s)`. Any other constant is kept. |
| `Lowering.BuiltinRename` | human_pyteal/pyteal_transformer.py:128-136 | `print` becomes `Log`, `len` becomes `Len`, `int` becomes `Btoi` and `bytes` becomes `Itob`. Every other name is kept. |
| `Lowering.RewriteCall` | human_pyteal/pyteal_transformer.py:125-138 | Arguments and keywords are kept. A bare callee is renamed by `BuiltinRename`. Any other call is unchanged. |
| `Lowering.RewriteBinOp` | human_pyteal/pyteal_transformer.py:197-207 | `+` with a `Concat(...)` left operand becomes `Concat(*left.args, right)`. Otherwise, `+` with a left operand typed `bytes` becomes `Concat(left, right)`. Any other `+`, such as integer addition, and every other operator are kept unchanged. |
| `Lowering.RewriteUnaryOp` | human_pyteal/pyteal_transformer.py:178-184 | `not x` becomes `Not(x)`. Other unary operators are kept. |
| `Lowering.RewriteBoolOp` | human_pyteal/pyteal_transformer.py:186-195 | `and`/`or` become `And(...)`/`Or(...)` over the same operands, in order. |
| `Lowering.RewriteExprStmt` | human_pyteal/pyteal_transformer.py:67-74 | The statement is kept exactly when its value is a call to `Log`, or to a function recorded as returning `none`. Otherwise it is wrapped as `Pop(stmt)`. |
| `Lowering.RewriteWhile` | human_pyteal/pyteal_transformer.py:148-153 | `While(test).Do(*body)`, with the body in order. |
| `Lowering.RewriteJump` | human_pyteal/pyteal_transformer.py:155-162 | `continue`, `break` and `pass` become `Continue()`, `Break()` and `Seq()`. |
| `Lowering.RewriteRaise` | human_pyteal/pyteal_transformer.py:209-218 | `Err()`. When the exception is a `Bytes(...)` literal, `Comment(msg, Err())` instead. |
| `Lowering.RewriteAssert` | human_pyteal/pyteal_transformer.py:220-229 | `Assert(test)`. The keyword `comment=msg` is added exactly when the message is a `Bytes(...)` literal. |
| `Lowering.RewriteReturn` | human_pyteal/pyteal_transformer.py:231-233 | `Return(value)`, or `Return()` for a bare `return`. |
| `Lowering.AssignTargetRule` | human_pyteal/pyteal_transformer.py:91-113 | For one target, exactly one assignment or store is made, inline or hoisted. See the list after this table. |
| `Lowering.AssignTargetsGrows` | human_pyteal/pyteal_transformer.py:91-115 | The loop over all targets only appends to slots and hoisted statements. It keeps slot names distinct and declarations well formed. Inline plus hoisted outputs number exactly the targets. |
| `Lowering.AssignTargetsKnownType` | human_pyteal/pyteal_transformer.py:107-113 | With a known type, the inline output is exactly `x.store(value)` for each name target `x`, in order, and nothing else. Afterwards every name target has a slot: of its earlier type if it already had one, of the value's type otherwise. |
| `Lowering.AssignTargetsUnknownType` | human_pyteal/pyteal_transformer.py:91-105 | With no type, no slot is created and nothing is stored. Every inline output is a plain `target = value` for one of the targets. |
| `Lowering.DesugarSmaller` | human_pyteal/pyteal_transformer.py:117-121 | Termination support: the assignment `x = x op e` made from `x op= e` has as many conditionals as the original, is smaller, and is well formed when the original is. So lowering it in place of the original terminates. |
| `Lowering.Lower` | human_pyteal/pyteal_transformer.py:67-233 | The dispatch of `NodeTransformer.visit`: every node lowers to one node, except that an assignment may lower to several or none. The state only grows. Lowering a tree without assignments leaves it unchanged. |
| `Lowering.LowerExpression` | human_pyteal/pyteal_transformer.py:178-207 | Unary, boolean and binary operators, and also calls (lines 125-138), attributes and comparisons: children first, then the node's rule. The state only grows, and a tree without assignments leaves it unchanged. |
| `Lowering.LowerStatement` | human_pyteal/pyteal_transformer.py:67-74 | Expression statements and `return`: children first, then the rule. The state only grows, and a tree without assignments leaves it unchanged. |
| `Lowering.LowerWhile` | human_pyteal/pyteal_transformer.py:148-153 | Test, body and `else` are lowered in turn. The state only grows, and a loop without assignments leaves it unchanged. |
| `Lowering.LowerAssign` | human_pyteal/pyteal_transformer.py:85-115 | Targets, then value, then the target loop with the value's inferred type. The state only grows: slots and hoisted statements are only appended, slot names stay distinct and declarations stay well formed. |
| `Lowering.LowerAugAssign` | human_pyteal/pyteal_transformer.py:117-123 | A name target lowers as the desugared assignment, and the state only grows. The exact equation is `LoweringFacts.AugAssignAsAssign`. |
| `Lowering.LowerConditional` | human_pyteal/pyteal_transformer.py:140-146 | `transform_if`, then the children of the chain are lowered. The state only grows, and a conditional without assignments leaves it unchanged. |
| `Lowering.LowerList` | human_pyteal/pyteal_transformer.py:115 | A list field, where each result is spliced in. The state only grows. A list without assignments leaves it unchanged. A list without assignment statements keeps its length. |
| `Lowering.Decorators` | human_pyteal/pyteal_transformer.py:48-50 | The definition's own decorators, in order, followed by `Subroutine(TealType.<ret>)` exactly when the name is not the target. |
| `Lowering.LowerFunction` | human_pyteal/pyteal_transformer.py:44-65 | See the list after this table. |
| `LoweringFacts.SlotTypeFixed` | human_pyteal/pyteal_transformer.py:107-110 | Once a name has a slot, lowering any node leaves that slot's type unchanged. A reassignment never re-declares or retypes it. |
| `LoweringFacts.SlotTypeFixedList` | human_pyteal/pyteal_transformer.py:107-110 | The same over a statement list such as a function body. |
| `LoweringFacts.AugAssignAsAssign` | human_pyteal/pyteal_transformer.py:117-123 | `x op= e` on a name lowers exactly as `x = x op e`. Any other target is returned untouched, and the state is unchanged. |
| `LoweringFacts.ExprCallStatement` | human_pyteal/pyteal_transformer.py:67-74 | A statement calling a plain name lowers to one node, renamed as a builtin. It is bare exactly when the renamed callee is `Log` or a `none` function; otherwise it is `Pop(...)`. |
| `LoweringFacts.PrintStaysBare` | human_pyteal/pyteal_transformer.py:129-130 | `print(...)` as a statement becomes a bare `Log(...)` statement, never a popped one. |
| `LoweringFacts.ExampleValue` | human_pyteal/pyteal_transformer.py:164-171 | The parameter read `x + 1` lowers to `x + Int(1)`, with the state unchanged. |
| `LoweringFacts.ExampleStore` | human_pyteal/pyteal_transformer.py:107-113 | The first integer assignment to `y` declares one slot and emits `y.store(value)`. |
| `LoweringFacts.ExampleAssign` | human_pyteal/pyteal_transformer.py:85-115 | The statement `y = x + 1` lowers to the store, and the slot is declared. |
| `LoweringFacts.ExampleReturn` | human_pyteal/pyteal_transformer.py:231-233 | `return y` lowers to `Return(y.load())`. |
| `LoweringFacts.ExampleBody` | human_pyteal/pyteal_transformer.py:60 | The body `y = x + 1; return y` lowers to `[y.store(x + Int(1)), Return(y.load())]`, with one slot. |
| `LoweringFacts.WorkedExample` | human_pyteal/pyteal_transformer.py:44-65 | The complete target function lowers to one slot declaration, then `Return(Seq(store, return))`. The parameter annotation is cleared and no decorator is added. |
| `LoweringFacts.BytesLiteral` | human_pyteal/pyteal_transformer.py:173-174 | A string literal lowers to `Bytes(s)`. |
| `LoweringFacts.ConcatInner` | human_pyteal/pyteal_transformer.py:204-205 | `x + "a"` with `x` a `str` parameter lowers to `Concat(x, Bytes("a"))`. |
| `LoweringFacts.ConcatFlattens` | human_pyteal/pyteal_transformer.py:197-207 | `x + "a" + "b"` lowers to the flat `Concat(x, Bytes("a"), Bytes("b"))`. |
| `Transformer.Transformer.constructor` | human_pyteal/pyteal_transformer.py:16-23 | No slots, no hoisted statements, no current function. |
| `Transformer.Transformer.VisitFunctionDef` | human_pyteal/pyteal_transformer.py:44-65 | The returned definition and the new fields are exactly `LowerFunction`'s, and the current function is the one visited. |
| `Transformer.Transformer.DropAnnotations` | human_pyteal/pyteal_transformer.py:45-46 | The loop that clears every positional-only annotation, keeping names and order. |
| `Transformer.Transformer.Visit` | human_pyteal/pyteal_transformer.py:67-233 | The dispatch over node kinds, including `continue`/`break`/`pass`. Result and new fields are those of `Lowering.Lower`. |
| `Transformer.Transformer.VisitOne` | human_pyteal/pyteal_transformer.py:67-233 | An expression position: result and fields are those of `Lowering.LowerOne`. |
| `Transformer.Transformer.VisitList` | human_pyteal/pyteal_transformer.py:115 | A list field: the loop splices each result, and agrees with `Lowering.LowerList`. |
| `Transformer.Transformer.VisitKeywords` | human_pyteal/pyteal_transformer.py:126 | The keyword arguments of a call, lowered in order. |
| `Transformer.Transformer.VisitOpt` | human_pyteal/pyteal_transformer.py:232 | An optional child, lowered when present. |
| `Transformer.Transformer.VisitChildren` | human_pyteal/pyteal_transformer.py:126 | `generic_visit` of a call: callee, arguments and keywords. |
| `Transformer.Transformer.GenericVisit` | human_pyteal/pyteal_transformer.py:142 | `generic_visit` of any node, per `Lowering.LowerChildren`. |
| `Transformer.Transformer.VisitName` | human_pyteal/pyteal_transformer.py:76-83 | Agrees with `Lowering.Lower`. |
| `Transformer.Transformer.VisitConstant` | human_pyteal/pyteal_transformer.py:164-176 | Agrees with `Lowering.Lower`. |
| `Transformer.Transformer.VisitCall` | human_pyteal/pyteal_transformer.py:125-138 | Agrees with `Lowering.Lower`. |
| `Transformer.Transformer.VisitConditional` | human_pyteal/pyteal_transformer.py:140-146 | Agrees with `Lowering.Lower`. |
| `Transformer.Transformer.VisitExpr` | human_pyteal/pyteal_transformer.py:67-74 | Agrees with `Lowering.Lower`. |
| `Transformer.Transformer.VisitAssign` | human_pyteal/pyteal_transformer.py:85-115 | Agrees with `Lowering.Lower`. |
| `Transformer.Transformer.AssignAll` | human_pyteal/pyteal_transformer.py:91-113 | The loop over the targets, which updates the slot table and the hoisted list, agrees with `Lowering.AssignTargets`. |
| `Transformer.Transformer.AssignTargetStep` | human_pyteal/pyteal_transformer.py:92-113 | One iteration agrees with `Lowering.AssignTarget`. |
| `Transformer.Transformer.VisitAugAssign` | human_pyteal/pyteal_transformer.py:117-123 | Agrees with `Lowering.Lower`. |
| `Transformer.Transformer.VisitWhile` | human_pyteal/pyteal_transformer.py:148-153 | Agrees with `Lowering.Lower`. |
| `Transformer.Transformer.VisitUnaryOp` | human_pyteal/pyteal_transformer.py:178-184 | Agrees with `Lowering.Lower`. |
| `Transformer.Transformer.VisitBoolOp` | human_pyteal/pyteal_transformer.py:186-195 | Agrees with `Lowering.Lower`. |
| `Transformer.Transformer.VisitBinOp` | human_pyteal/pyteal_transformer.py:197-207 | Agrees with `Lowering.Lower`. |
| `Transformer.Transformer.VisitRaise` | human_pyteal/pyteal_transformer.py:209-218 | Agrees with `Lowering.Lower`. |
| `Transformer.Transformer.VisitAssert` | human_pyteal/pyteal_transformer.py:220-229 | Agrees with `Lowering.Lower`. |
| `Transformer.Transformer.VisitReturn` | human_pyteal/pyteal_transformer.py:231-233 | Agrees with `Lowering.Lower`. |
| `Visitor.ResolveParams` | human_pyteal/pyteal_visitor.py:27-33 | Succeeds exactly when every parameter resolves to a type other than `none`. The result pairs each parameter with its type, in declaration order. Otherwise the error names the first bad parameter. |
| `Visitor.SignatureOf` | human_pyteal/pyteal_visitor.py:17-35 | See the list after this table. |
| `Visitor.CollectDef` | human_pyteal/pyteal_visitor.py:15-36 | See the list after this table. |
| `Visitor.CallNamesGrow` | human_pyteal/pyteal_visitor.py:38-40 | The names seen without searching call arguments are a subset of those seen with it. |
| `Visitor.CallNamesComplete` | human_pyteal/pyteal_visitor.py:38-40 | Searching call arguments finds the callee of every call, wherever it is nested (the corrected half of finding A). |
| `Visitor.CollectPassKeeps` | human_pyteal/__init__.py:30-31 | A pass only adds called names and signatures. If every recorded name was called before the pass, it still is after. |
| `Visitor.CollectPassVisits` | human_pyteal/pyteal_visitor.py:15-36 | A definition already called when its turn comes gets its signature recorded, and its calls are collected. |
| `Visitor.RecordedAreCalled` | human_pyteal/__init__.py:27-31 | After the driver's pass, the target is called, and only called names have signatures. |
| `Visitor.DriverOrderPermutes` | human_pyteal/__init__.py:17-25 | The driver's list is a permutation of the module's functions. |
| `Visitor.DriverOrderTargetFirst` | human_pyteal/__init__.py:22-23 | The target function, when present, comes first. |
| `Visitor.DriverOrderKeepsOthers` | human_pyteal/__init__.py:24-25 | The other functions keep their listed order. |
| `Visitor.Collector.constructor` | human_pyteal/pyteal_visitor.py:11-13 | An empty call set and an empty signature table. |
| `Visitor.Collector.VisitCall` | human_pyteal/pyteal_visitor.py:38-40 | The callee's name is added exactly when it is a bare name. The signature table is unchanged. |
| `Visitor.Collector.ResolveArguments` | human_pyteal/pyteal_visitor.py:25-33 | The loop over the parameters agrees with `Visitor.ResolveParams`. |
| `Visitor.Collector.VisitFunctionDef` | human_pyteal/pyteal_visitor.py:15-36 | The new fields are exactly `CollectDef`'s. On an error, the error is returned and both fields are unchanged. |
| `Visitor.Collector.VisitAll` | human_pyteal/__init__.py:30-31 | The loop over the definitions agrees with one `CollectPass`, stopping at the first error. |
| `Visitor.RunCollector` | human_pyteal/__init__.py:27-31 | A fresh collector, seeded with the target, visits the driver's order; the result is `Collect`'s. |
| `Reachability.NestedCallMissed` | human_pyteal/pyteal_visitor.py:38-40 | For `return f(g())`, the collector as written sees only `f`; searching arguments sees `f` and `g` (finding A, as written). |
| `Reachability.ExampleOrder` | human_pyteal/__init__.py:17-25 | Functions `a`, `b`, `main` with target `main` are visited as `main`, `a`, `b`. |
| `Reachability.SinglePassMissesCallee` | human_pyteal/pyteal_visitor.py:15-16 | With `main` calling `b` and `b` calling `a`, the single pass succeeds, but `a` is called and has no signature (finding B, as written). |
| `Reachability.CollectFixpointClosed` | human_pyteal/pyteal_visitor.py:15-40 | Collecting until nothing changes records the target. Every called definition gets a signature, and its calls are collected too. Only called names get a signature (the corrected half of finding B). |
| `Reachability.FixpointRecordsOnlyCalled` | human_pyteal/pyteal_visitor.py:15-16 | Repeated passes never record a signature for a name that is not called. |
| `Reachability.FixpointRecordsCallee` | human_pyteal/pyteal_visitor.py:15-36 | On the module of finding B, collecting to a fixpoint records `a`. |
| `Reachability.FixpointSucceeds` | human_pyteal/pyteal_visitor.py:17-33 | When every definition has a valid signature, collecting to a fixpoint cannot fail. |

The rows that say "see the list after this table" state the following.

`Lowering.AssignTargetRule`:
- A non-name target is always hoisted as `target = value`.
- Without a type, a name that has a slot stays inline as `target = value`, and a new name is hoisted.
- With type `t`, the output is `target.store(value)` inline. If the name has no slot, exactly one slot is appended: of type `t`, declared `target = ScratchVar(TealType.t)`. Otherwise the slots are unchanged.
- A name that already has a slot keeps it, with its type.

`Lowering.LowerFunction`:
- The name is kept and stays positional-only. The parameter and return annotations are removed.
- There is one more decorator, `@Subroutine(TealType.<ret>)`, exactly when the name is not the target. The new decorator list is `Lowering.Decorators` lowered in order.
- The body is the hoisted assignments in order, then one declaration per slot in first-seen order, then exactly one `Return(Seq(*lowered body))`. The lowered body is `f.body` lowered from an empty slot table and hoisted list.
- The decorators are lowered after the body, starting from the state the body left. The state returned is the state after that.
- Slot names are distinct, each declaration is `name = ScratchVar(TealType.<its type>)`, and every hoisted statement has a single target.
- `LoweringFacts.WorkedExample` shows the exact result on a complete function.

`Visitor.SignatureOf`:
- A missing or unrecognised return annotation fails first, with `ValueError`.
- Otherwise, any parameter that is not positional-only fails, with `NotImplementedError`.
- Otherwise the signature succeeds exactly when every parameter resolves. It then holds the resolved parameters and the return type.

`Visitor.CollectDef`:
- A definition whose name has not been called changes nothing.
- Otherwise it succeeds exactly when its signature does.
- On success, `teal_functions[name]` is set and no other entry changes. The calls in the definition are added only then.

## Left out

- The `eval` fallback of `_teal_type` (human_pyteal/pyteal_transformer.py:35-40) runs the PyTeal runtime. It is a parameter of the model, `Fallback`, which may answer nothing. The warning it prints is not modelled.
- The `_locals_` environment (human_pyteal/pyteal_transformer.py:23, 37, 56-57) only feeds that fallback, so it is not modelled.
- The rest of `transform` (human_pyteal/__init__.py:33-58) is not modelled: parsing sources, filtering the module by the called names, `black`, `exec`, `compileTeal`, the exception handling and `TransformResult`. These are I/O and foreign calls. Only the ordering and the single collector pass are modelled.
- `print_action_exception` (human_pyteal/utility.py:58-64) only formats and prints a traceback.
- The driver hands the lowerer `visitor.teal_functions` (human_pyteal/__init__.py:35). The lowerer instead reads `function_return_types` and `function_argument_types`. The model gives the lowerer an abstract signature table, `map<string, Signature>`, and does not reproduce this mismatch.
- `TealFunction` is imported by the collector but is not defined in human_pyteal/container.py. It is modelled as `Container.Signature(arguments, ret)`.
- `Variable` becomes `Container.Slot`, which holds the slot's name, type and declaration.
- Only the node kinds the lowerer handles are modelled. Nested function definitions, `for`, comprehensions, subscripts, lambdas and similar are not. `Compare` nodes are kept and only their children are lowered; chained comparisons are not flattened, as in the source.
- `Utility.BytesValue`: `Bytes()` with no argument makes the source raise `IndexError`. The model treats that case as "not a literal".
- `Lowering.LowerFunction` requires positional-only parameters, the only shape the collector accepts. `Transformer.Transformer.VisitFunctionDef` requires the same.
- Lowering.LowerFunction: requires the definition's name to have a recorded signature. The source looks the name up without a guard (human_pyteal/pyteal_transformer.py:49 and 57). A definition without a signature, such as the callee in finding B, raises `KeyError` there, and the model does not cover that error path. Transformer.Transformer.VisitFunctionDef has the same precondition.
- `Lowering.LowerKeywords`: its contract states the number of keywords and how the state grows. It does not state that the keyword names are kept.
- Both the lowerer and the helpers mutate AST nodes in place. The model builds new values instead. Aliasing between the input tree and the output tree is not captured.
- The lowerer's `while ... else` block is lowered and then dropped, as in the source (human_pyteal/pyteal_transformer.py:148-153).
- `Visitor.Collector.VisitFunctionDef` adds the calls found in a definition in one update, not call by call as `generic_visit` meets them. No error can happen between those steps, so the final state is the same.
- `Reachability.Fixpoint` and `Reachability.CollectFixpoint` are not behaviour of the source. They exist only as the corrected half of finding B, and the rest of the model keeps the single pass.

## Findings

| source | as written | input that shows it | evidently intended | confidence | as-written member | corrected member |
|---|---|---|---|---|---|---|
| human_pyteal/pyteal_visitor.py:38-40 | `visit_Call` records the callee but does not continue into the call's arguments, so a call nested inside another call's arguments is never recorded | `return f(g())`: only `f` is recorded, so `g` is filtered out of the generated module | every user function called anywhere in a reachable body is recorded | medium, not executed | `Reachability.NestedCallMissed` | `Visitor.CallNamesComplete` |
| human_pyteal/__init__.py:17-31 with human_pyteal/pyteal_visitor.py:15-16 | one pass in name order. A callee whose name sorts before its caller's is visited before it is called, so its signature is never recorded. It still ends up in the called set and in the module, where the lowerer looks up its return type and fails | functions `a`, `b`, `main`, where `main` calls `b` and `b` calls `a`: `a` is called but has no signature | every function reachable from the target gets a signature | high, not executed | `Reachability.SinglePassMissesCallee` | `Reachability.CollectFixpointClosed` |
