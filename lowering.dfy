/**
 * The rewrite performed by `PyTealTransformer`, as functions: the per-node rules,
 * type inference, the assignment rule, and the children-first traversal that
 * threads the per-function state (the scratch-slot table and the hoisted
 * assignments) through a function body. The class in module Transformer
 * carries out the same traversal by updating its fields.
 */
module Lowering {
  import opened Wrappers
  import opened PyAst
  import opened Container
  import opened Utility

  /** The library-backed fallback of type inference: given an already lowered
      expression, the function being lowered and the current slots, the type the
      expression library reports for it, or nothing when evaluating it fails. */
  type Fallback = (Node, string, seq<Slot>) -> Option<TealType>

  /** What stays fixed while one function is lowered: the signature table, the
      name of the function, and the fallback. */
  datatype Ctx = Ctx(sigs: map<string, Signature>, current: string, fallback: Fallback)
  {
    /** The function being lowered has a recorded signature (its parameter types are looked up there). */
    predicate Valid()
    {
      current in sigs
    }
  }

  /** The per-function state: slots in first-assignment order and the hoisted assignments. */
  datatype LState = LState(slots: seq<Slot>, hoisted: seq<Node>)

  const Empty := LState([], [])

  /** The state only grows: slots and hoisted assignments are appended, never changed or removed. */
  predicate Extends(a: LState, b: LState)
  {
    a.slots <= b.slots && a.hoisted <= b.hoisted
  }

  // ---------------------------------------------------------------------------
  // Type inference (`_teal_type`)

  function TealTypeOf(c: Ctx, st: LState, n: Node): (r: Option<TealType>)
    requires c.Valid()
    ensures n.Call? && n.func.Name? && n.func.id in c.sigs ==> r == Some(c.sigs[n.func.id].ret)
    ensures n.Name? && SlotType(st.slots, n.id).Some? ==> r == SlotType(st.slots, n.id)
    ensures n.Name? && SlotType(st.slots, n.id).None? ==>
      r == (if ArgType(c.sigs[c.current].arguments, n.id).Some? then ArgType(c.sigs[c.current].arguments, n.id)
            else c.fallback(n, c.current, st.slots))
    ensures !n.Name? && !(n.Call? && n.func.Name? && n.func.id in c.sigs) ==> r == c.fallback(n, c.current, st.slots)
  {
    if n.Call? && n.func.Name? && n.func.id in c.sigs then Some(c.sigs[n.func.id].ret)
    else if n.Name? && SlotType(st.slots, n.id).Some? then SlotType(st.slots, n.id)
    else if n.Name? && ArgType(c.sigs[c.current].arguments, n.id).Some? then ArgType(c.sigs[c.current].arguments, n.id)
    else c.fallback(n, c.current, st.slots)
  }

  // ---------------------------------------------------------------------------
  // Per-node rules, applied to a node whose children are already lowered.

  /** `visit_Name`: a read of a slot becomes `x.load()`. */
  function RewriteName(st: LState, n: Node): (r: Node)
    requires n.Name?
    ensures r != n <==> n.ctx == Load && SlotType(st.slots, n.id).Some?
    ensures r != n ==> r == CallMethod(n, "load", [])
  {
    if n.ctx == Load && SlotType(st.slots, n.id).Some? then CallMethod(n, "load", []) else n
  }

  /** The integer Python's `isinstance(v, int)` sees in a literal (`True` is 1, `False` is 0). */
  function PyInt(v: Value): Option<int>
  {
    match v
    case BoolConst(b) => Some(if b then 1 else 0)
    case IntConst(i) => Some(i)
    case _ => None
  }

  /** `visit_Constant`: integers and booleans become `Int(n)`, strings `Bytes(s)`, anything else is kept. */
  function RewriteConstant(v: Value): (r: Node)
    ensures PyInt(v).Some? ==> r == CallNamed("Int", [Constant(IntConst(PyInt(v).value))])
    ensures v.StrConst? ==> r == CallNamed("Bytes", [Constant(v)])
    ensures PyInt(v).None? && !v.StrConst? ==> r == Constant(v)
  {
    match v
    case BoolConst(b) => CallNamed("Int", [Constant(IntConst(if b then 1 else 0))])
    case IntConst(_) => CallNamed("Int", [Constant(v)])
    case StrConst(_) => CallNamed("Bytes", [Constant(v)])
    case _ => Constant(v)
  }

  /** The builtins `visit_Call` renames to their library counterparts. */
  function BuiltinRename(id: string): (r: string)
    ensures id == "print" ==> r == "Log"
    ensures id == "len" ==> r == "Len"
    ensures id == "int" ==> r == "Btoi"
    ensures id == "bytes" ==> r == "Itob"
    ensures r != id <==> id in ["print", "len", "int", "bytes"]
  {
    if id == "print" then "Log"
    else if id == "len" then "Len"
    else if id == "int" then "Btoi"
    else if id == "bytes" then "Itob"
    else id
  }

  /** `visit_Call`: `print`, `len`, `int`, `bytes` are renamed; arguments are untouched. */
  function RewriteCall(n: Node): (r: Node)
    requires n.Call?
    ensures r.Call? && r.args == n.args && r.keywords == n.keywords
    ensures n.func.Name? ==> r.func == Name(BuiltinRename(n.func.id), n.func.ctx)
    ensures !n.func.Name? ==> r == n
  {
    if n.func.Name? then Call(Name(BuiltinRename(n.func.id), n.func.ctx), n.args, n.keywords) else n
  }

  /** `visit_BinOp`: `+` becomes a concatenation when its left operand already is one
      (flattened) or is inferred to be a byte string; every other operation is kept. */
  function RewriteBinOp(c: Ctx, st: LState, n: Node): (r: Node)
    requires c.Valid() && n.BinOp?
    ensures n.op == Add && IsCallTo(n.left, "Concat") ==> r == CallNamed("Concat", n.left.args + [n.right])
    ensures n.op == Add && !IsCallTo(n.left, "Concat") && TealTypeOf(c, st, n.left) == Some(Bytes) ==>
      r == CallNamed("Concat", [n.left, n.right])
    ensures n.op == Add && !IsCallTo(n.left, "Concat") && TealTypeOf(c, st, n.left) != Some(Bytes) ==> r == n
    ensures n.op != Add ==> r == n
  {
    if n.op == Add && IsCallTo(n.left, "Concat") then CallNamed("Concat", n.left.args + [n.right])
    else if n.op == Add && TealTypeOf(c, st, n.left) == Some(Bytes) then CallNamed("Concat", [n.left, n.right])
    else n
  }

  /** `visit_UnaryOp`: `not x` becomes `Not(x)`; other unary operators are kept. */
  function RewriteUnaryOp(n: Node): (r: Node)
    requires n.UnaryOp?
    ensures n.uop == Not ==> r == CallNamed("Not", [n.operand])
    ensures n.uop != Not ==> r == n
  {
    if n.uop == Not then CallNamed("Not", [n.operand]) else n
  }

  /** `visit_BoolOp`: `and`/`or` become the variadic `And(...)`/`Or(...)` over the same operands. */
  function RewriteBoolOp(n: Node): (r: Node)
    requires n.BoolOp?
    ensures r == CallNamed(if n.bop == And then "And" else "Or", n.values)
  {
    match n.bop
    case And => CallNamed("And", n.values)
    case Or => CallNamed("Or", n.values)
  }

  /** A call that produces no value: to `Log`, or to a function recorded as returning `none`. */
  predicate IsVoidCall(c: Ctx, v: Node)
  {
    v.Call? && v.func.Name? && (v.func.id == "Log" || (v.func.id in c.sigs && c.sigs[v.func.id].ret == NoneType))
  }

  /** `visit_Expr`: an expression statement whose value is not a void call is wrapped in `Pop(...)`. */
  function RewriteExprStmt(c: Ctx, n: Node): (r: Node)
    requires n.Expr?
    ensures r == n <==> IsVoidCall(c, n.value)
    ensures r != n ==> r == CallNamed("Pop", [n])
  {
    if IsVoidCall(c, n.value) then n else CallNamed("Pop", [n])
  }

  /** `visit_While`: `While(test).Do(*body)`; the `else` block is dropped. */
  function RewriteWhile(test: Node, body: seq<Node>): (r: Node)
    ensures r.Call? && r.args == body && r.func.Attribute? && r.func.attr == "Do"
    ensures r.func.obj == CallNamed("While", [test])
  {
    CallMethod(CallNamed("While", [test]), "Do", body)
  }

  /** `visit_Continue`, `visit_Break`, `visit_Pass`: the zero-argument `Continue()`,
      `Break()` and the empty `Seq()`. */
  function RewriteJump(n: Node): (r: Node)
    requires n.Continue? || n.Break? || n.Pass?
    ensures r.Call? && r.args == [] && r.keywords == [] && r.func.Name?
    ensures r.func.id == (if n.Continue? then "Continue" else if n.Break? then "Break" else "Seq")
  {
    match n
    case Continue => CallNamed("Continue", [])
    case Break => CallNamed("Break", [])
    case Pass => CallNamed("Seq", [])
  }

  /** `visit_Raise`: `Err()`, wrapped in `Comment(msg, Err())` when a byte-string literal is raised. */
  function RewriteRaise(exc: Option<Node>): (r: Node)
    ensures BytesValue(exc).None? ==> r == CallNamed("Err", [])
    ensures BytesValue(exc).Some? ==> r == CallNamed("Comment", [BytesValue(exc).value, CallNamed("Err", [])])
  {
    var err := CallNamed("Err", []);
    var comment := BytesValue(exc);
    if comment.Some? then CallNamed("Comment", [comment.value, err]) else err
  }

  /** `visit_Assert`: `Assert(test)`, with `comment=msg` when the message is a byte-string literal. */
  function RewriteAssert(test: Node, msg: Option<Node>): (r: Node)
    ensures r.Call? && r.func == CreateName("Assert") && r.args == [test]
    ensures r.keywords == (if BytesValue(msg).Some? then [Keyword(Some("comment"), BytesValue(msg).value)] else [])
  {
    var comment := BytesValue(msg);
    Call(CreateName("Assert"), [test], if comment.Some? then [Keyword(Some("comment"), comment.value)] else [])
  }

  /** `visit_Return`: `Return(value)`, or `Return()` for a bare `return`. */
  function RewriteReturn(v: Option<Node>): (r: Node)
    ensures IsCallTo(r, "Return") && r.keywords == []
    ensures r.args == (if v.Some? then [v.value] else [])
  {
    CallNamed("Return", if v.Some? then [v.value] else [])
  }

  // ---------------------------------------------------------------------------
  // Assignment (`visit_Assign`)

  /** `name = ScratchVar(TealType.<t>)`: the declaration made for a new slot. */
  function ScratchDecl(target: Node, t: TealType): Node
  {
    Assign([target], CallNamed("ScratchVar", [Attribute(CreateName("TealType"), TypeName(t))]))
  }

  /** `name.store(value)`. */
  function StoreCall(target: Node, value: Node): Node
  {
    CallMethod(target, "store", [value])
  }

  predicate IsStore(n: Node)
  {
    n.Call? && n.func.Attribute? && n.func.attr == "store"
  }

  /** Every slot's declaration assigns `ScratchVar(TealType.<its type>)` to a name equal to the slot's. */
  predicate WellDeclared(slots: seq<Slot>)
  {
    forall i | 0 <= i < |slots| ::
      slots[i].decl.Assign? && |slots[i].decl.targets| == 1 && slots[i].decl.targets[0].Name? &&
      slots[i].decl.targets[0].id == slots[i].name &&
      slots[i].decl == ScratchDecl(slots[i].decl.targets[0], slots[i].stype)
  }

  /** Every hoisted statement is an assignment to a single target. */
  predicate SingleTargets(hoisted: seq<Node>)
  {
    forall h | h in hoisted :: h.Assign? && |h.targets| == 1
  }

  /** The assignment rule for one target, given the inferred type `t` of the value.
      A name with a known type gets a store (and a slot, if it has none yet); with an
      unknown type it keeps a plain assignment, inline if the name is already a slot
      and hoisted otherwise; a target that is not a name is always hoisted. */
  function AssignTarget(t: Option<TealType>, st: LState, target: Node, value: Node): (seq<Node>, LState)
  {
    if !target.Name? then ([], LState(st.slots, st.hoisted + [Assign([target], value)]))
    else if t.None? then
      if SlotType(st.slots, target.id).Some? then ([Assign([target], value)], st)
      else ([], LState(st.slots, st.hoisted + [Assign([target], value)]))
    else if SlotType(st.slots, target.id).Some? then ([StoreCall(target, value)], st)
    else ([StoreCall(target, value)], LState(st.slots + [Slot(target.id, t.value, ScratchDecl(target, t.value))], st.hoisted))
  }

  /** What the assignment rule does for one target. */
  lemma AssignTargetRule(t: Option<TealType>, st: LState, target: Node, value: Node)
    ensures var res := AssignTarget(t, st, target, value);
      Grows(st, res.1) &&
      // exactly one assignment or store is made, either inline or hoisted
      |res.0| + |res.1.hoisted| == |st.hoisted| + 1 &&
      (!target.Name? ==> res == ([], LState(st.slots, st.hoisted + [Assign([target], value)]))) &&
      (target.Name? && t.Some? ==>
        res.0 == [StoreCall(target, value)] && res.1.hoisted == st.hoisted && SlotType(res.1.slots, target.id).Some?) &&
      (target.Name? && t.None? ==>
        res.1.slots == st.slots && (res.0 == [] <==> SlotType(st.slots, target.id).None?) &&
        (res.0 != [] ==> res.0 == [Assign([target], value)])) &&
      // a name that already has a slot keeps it, with its type
      (target.Name? && SlotType(st.slots, target.id).Some? ==> res.1.slots == st.slots) &&
      // a typed name without a slot gets one, of that type, declared as a `ScratchVar`
      (target.Name? && t.Some? && SlotType(st.slots, target.id).None? ==>
        res.1.slots == st.slots + [Slot(target.id, t.value, ScratchDecl(target, t.value))])
  {
    if target.Name? && t.Some? && SlotType(st.slots, target.id).None? {
      var slots := AssignTarget(t, st, target, value).1.slots;
      assert slots[|st.slots|].name == target.id;
    }
  }

  function NameTargets(targets: seq<Node>): nat
  {
    if targets == [] then 0 else (if targets[0].Name? then 1 else 0) + NameTargets(targets[1..])
  }

  /** The loop of `visit_Assign` over all targets. */
  function AssignTargets(t: Option<TealType>, st: LState, targets: seq<Node>, value: Node): (seq<Node>, LState)
    decreases |targets|
  {
    if targets == [] then ([], st)
    else
      var r1 := AssignTarget(t, st, targets[0], value);
      var r2 := AssignTargets(t, r1.1, targets[1..], value);
      (r1.0 + r2.0, r2.1)
  }

  /** An assignment only appends to the state, keeps it well formed, and makes exactly
      one statement (inline or hoisted) per target. */
  lemma {:induction false} AssignTargetsGrows(t: Option<TealType>, st: LState, targets: seq<Node>, value: Node)
    ensures var res := AssignTargets(t, st, targets, value);
      Grows(st, res.1) && |res.0| + |res.1.hoisted| == |st.hoisted| + |targets|
    decreases |targets|
  {
    if targets != [] {
      var r1 := AssignTarget(t, st, targets[0], value);
      AssignTargetRule(t, st, targets[0], value);
      AssignTargetsGrows(t, r1.1, targets[1..], value);
    }
  }

  /** The output `out` already produced, followed by the output and final state of the rest of a traversal. */
  function Then<T>(out: seq<T>, rest: (seq<T>, LState)): (r: (seq<T>, LState))
    ensures out == [] ==> r == rest
  {
    assert out == [] ==> out + rest.0 == rest.0;
    (out + rest.0, rest.1)
  }

  lemma ThenAssoc<T>(a: seq<T>, b: seq<T>, rest: (seq<T>, LState))
    ensures Then(a, Then(b, rest)) == Then(a + b, rest)
  {
    assert a + (b + rest.0) == (a + b) + rest.0;
  }

  /** One step of `AssignTargets` from position `i`. */
  lemma AssignTargetsStep(t: Option<TealType>, st: LState, targets: seq<Node>, i: nat, value: Node)
    requires i < |targets|
    ensures var r1 := AssignTarget(t, st, targets[i], value);
      AssignTargets(t, st, targets[i..], value) == Then(r1.0, AssignTargets(t, r1.1, targets[i + 1..], value))
  {
    assert targets[i..][1..] == targets[i + 1..];
    assert targets[i..][0] == targets[i];
  }

  /** `x.store(value)` for every name target `x`, in the order of the targets. */
  function Stores(targets: seq<Node>, value: Node): (r: seq<Node>)
    ensures |r| == NameTargets(targets) && forall o | o in r :: IsStore(o)
  {
    if targets == [] then []
    else (if targets[0].Name? then [StoreCall(targets[0], value)] else []) + Stores(targets[1..], value)
  }

  /** The type a name has once a value of type `t` is assigned to it: the type of
      its slot if it already has one, `t` otherwise. */
  function TypeAfter(slots: seq<Slot>, name: string, t: TealType): Option<TealType>
  {
    if SlotType(slots, name).Some? then SlotType(slots, name) else Some(t)
  }

  /** With a known type, the inline output is one store per name target, in order,
      and nothing else; every name target then has a slot, of its earlier type if it
      had one and of the value's type otherwise. */
  lemma {:induction false} AssignTargetsKnownType(t: Option<TealType>, st: LState, targets: seq<Node>, value: Node)
    requires t.Some?
    ensures var res := AssignTargets(t, st, targets, value);
      res.0 == Stores(targets, value) &&
      forall x | x in targets && x.Name? :: SlotType(res.1.slots, x.id) == TypeAfter(st.slots, x.id, t.value)
    decreases |targets|
  {
    if targets != [] {
      var r1 := AssignTarget(t, st, targets[0], value);
      var r2 := AssignTargets(t, r1.1, targets[1..], value);
      AssignTargetRule(t, st, targets[0], value);
      AssignTargetsGrows(t, r1.1, targets[1..], value);
      AssignTargetsKnownType(t, r1.1, targets[1..], value);
      forall x | x in targets && x.Name? ensures SlotType(r2.1.slots, x.id) == TypeAfter(st.slots, x.id, t.value) {
        KnownTypeStep(t.value, st, r1.1, targets[0], value, x.id);
        if x == targets[0] {
          SlotTypePrefix(r1.1.slots, r2.1.slots, x.id);
        } else {
          assert x in targets[1..];
        }
      }
    }
  }

  /** One typed assignment to `target` turns the type a name will have into the type
      it has, and leaves it for every other name. */
  lemma KnownTypeStep(t: TealType, st: LState, st1: LState, target: Node, value: Node, name: string)
    requires st1 == AssignTarget(Some(t), st, target, value).1
    ensures target.Name? && target.id == name ==> SlotType(st1.slots, name) == TypeAfter(st.slots, name, t)
    ensures TypeAfter(st1.slots, name, t) == TypeAfter(st.slots, name, t)
  {
    AssignTargetRule(Some(t), st, target, value);
    if target.Name? && SlotType(st.slots, target.id).None? {
      SlotTypeAppend(st.slots, Slot(target.id, t, ScratchDecl(target, t)), name);
    }
  }

  /** With an unknown type, no slot is created and nothing is stored: the inline
      output consists of plain assignments only. */
  lemma {:induction false} AssignTargetsUnknownType(st: LState, targets: seq<Node>, value: Node)
    ensures var res := AssignTargets(None, st, targets, value);
      res.1.slots == st.slots && forall o | o in res.0 :: exists x | x in targets :: o == Assign([x], value)
    decreases |targets|
  {
    if targets != [] {
      var r1 := AssignTarget(None, st, targets[0], value);
      AssignTargetRule(None, st, targets[0], value);
      AssignTargetsUnknownType(r1.1, targets[1..], value);
      var r2 := AssignTargets(None, r1.1, targets[1..], value);
      forall o | o in r1.0 + r2.0 ensures exists x | x in targets :: o == Assign([x], value) {
        if o in r1.0 {
          assert o == Assign([targets[0]], value);
        } else {
          var x :| x in targets[1..] && o == Assign([x], value);
          assert x in targets;
        }
      }
    }
  }

  // ---------------------------------------------------------------------------
  // The traversal: children first (as `generic_visit` does), then the node's rule.

  /** What every lowering step does to the state: it only appends, keeps slot
      names distinct and keeps every declaration well formed. */
  predicate Grows(st: LState, st': LState)
  {
    Extends(st, st') && (DistinctNames(st.slots) ==> DistinctNames(st'.slots)) &&
    (WellDeclared(st.slots) ==> WellDeclared(st'.slots)) &&
    (SingleTargets(st.hoisted) ==> SingleTargets(st'.hoisted))
  }

  /** `AugAssign` on a name: `x op= v` is lowered as `x = x op v`. */
  function Desugar(n: Node): (r: Node)
    requires n.AugAssign? && n.target.Name?
    ensures r.Assign? && r.targets == [n.target] && r.value.BinOp? && r.value.op == n.op
    ensures r.value.left == CreateName(n.target.id) && r.value.right == n.value
  {
    Assign([n.target], BinOp(CreateName(n.target.id), n.op, n.value))
  }

  /** The desugared assignment has as many conditionals as the original and is smaller. */
  lemma DesugarSmaller(n: Node)
    requires n.AugAssign? && n.target.Name?
    ensures IfCount(Desugar(n)) == IfCount(n) && Size(Desugar(n)) < Size(n)
    ensures SpliceSafe(n) ==> SpliceSafe(Desugar(n))
  {
    var name := CreateName(n.target.id);
    var bin := BinOp(name, n.op, n.value);
    assert Desugar(n) == Assign([n.target], bin);
    assert IfCountList([n.target]) == IfCount(n.target) && SizeList([n.target]) == 1 + Size(n.target) by {
      assert [n.target][1..] == [];
    }
    assert name == Name(n.target.id, Load);
    assert Size(name) == 1 && IfCount(name) == 0 && SingleSafe(name);
    assert IfCount(bin) == IfCount(n.value) && Size(bin) == 2 + Size(n.value);
  }

  /** Lowers one node. Everything except an assignment yields exactly one node;
      an assignment yields the statements that stay in place (possibly none). */
  function Lower(c: Ctx, n: Node, st: LState): (res: (seq<Node>, LState))
    requires c.Valid() && SpliceSafe(n)
    ensures !IsAssignKind(n) ==> |res.0| == 1
    ensures Grows(st, res.1)
    ensures NoAssign(n) ==> res.1 == st
    decreases IfCount(n), Size(n), 2
  {
    match n
    case Name(_, _) => ([RewriteName(st, n)], st)
    case Constant(v) => ([RewriteConstant(v)], st)
    case Continue => ([RewriteJump(n)], st)
    case Break => ([RewriteJump(n)], st)
    case Pass => ([RewriteJump(n)], st)
    case IfExp(_, _, _) =>
      var (m, s) := LowerConditional(c, n, st);
      ([m], s)
    case If(_, _, _) =>
      var (m, s) := LowerConditional(c, n, st);
      ([m], s)
    case Assign(_, _) => LowerAssign(c, n, st)
    case AugAssign(t, _, _) =>
      if t.Name? then LowerAugAssign(c, n, st) else ([n], st)
    case Expr(_) => var (m, s) := LowerStatement(c, n, st); ([m], s)
    case While(_, _, _) => var (m, s) := LowerWhile(c, n, st); ([m], s)
    case Raise(_, _) => var (m, s) := LowerCheck(c, n, st); ([m], s)
    case Assert(_, _) => var (m, s) := LowerCheck(c, n, st); ([m], s)
    case Return(_) => var (m, s) := LowerStatement(c, n, st); ([m], s)
    case _ => var (m, s) := LowerExpression(c, n, st); ([m], s)
  }

  /** The expression kinds whose children are lowered first: calls, attributes
      and operators. */
  function LowerExpression(c: Ctx, n: Node, st: LState): (res: (Node, LState))
    requires c.Valid() && SpliceSafe(n)
    requires n.Call? || n.Attribute? || n.BinOp? || n.UnaryOp? || n.BoolOp? || n.Compare?
    ensures Grows(st, res.1)
    ensures NoAssign(n) ==> res.1 == st
    decreases IfCount(n), Size(n), 1
  {
    match n
    case Call(_, _, _) =>
      var (m, s) := LowerChildren(c, n, st);
      (RewriteCall(m), s)
    case Attribute(o, a) =>
      var (o', s) := LowerOne(c, o, st);
      (Attribute(o', a), s)
    case BinOp(l, op, r) =>
      var (l', s1) := LowerOne(c, l, st);
      var (r', s2) := LowerOne(c, r, s1);
      (RewriteBinOp(c, s2, BinOp(l', op, r')), s2)
    case UnaryOp(op, e) =>
      var (e', s) := LowerOne(c, e, st);
      (RewriteUnaryOp(UnaryOp(op, e')), s)
    case BoolOp(op, vs) =>
      var (vs', s) := LowerList(c, vs, st);
      (RewriteBoolOp(BoolOp(op, vs')), s)
    case Compare(l, ops, cs) =>
      var (l', s1) := LowerOne(c, l, st);
      var (cs', s2) := LowerList(c, cs, s1);
      (Compare(l', ops, cs'), s2)
  }

  /** `visit_Expr` and `visit_Return`. */
  function LowerStatement(c: Ctx, n: Node, st: LState): (res: (Node, LState))
    requires c.Valid() && SpliceSafe(n) && (n.Expr? || n.Return?)
    ensures Grows(st, res.1)
    ensures NoAssign(n) ==> res.1 == st
    decreases IfCount(n), Size(n), 1
  {
    if n.Expr? then
      var (v', s) := LowerOne(c, n.value, st);
      (RewriteExprStmt(c, Expr(v')), s)
    else
      var (v', s) := LowerOpt(c, n.result, st);
      (RewriteReturn(v'), s)
  }

  /** `visit_While`: test, body and `else` block are lowered in turn. */
  function LowerWhile(c: Ctx, n: Node, st: LState): (res: (Node, LState))
    requires c.Valid() && SpliceSafe(n) && n.While?
    ensures Grows(st, res.1)
    ensures NoAssign(n) ==> res.1 == st
    decreases IfCount(n), Size(n), 1
  {
    var (t', s1) := LowerOne(c, n.test, st);
    var (b', s2) := LowerList(c, n.body, s1);
    var (_, s3) := LowerList(c, n.orelse, s2);
    (RewriteWhile(t', b'), s3)
  }

  /** `visit_Raise` and `visit_Assert`: the operands are lowered, then the rule applies. */
  function LowerCheck(c: Ctx, n: Node, st: LState): (res: (Node, LState))
    requires c.Valid() && SpliceSafe(n) && (n.Raise? || n.Assert?)
    ensures Grows(st, res.1)
    ensures NoAssign(n) ==> res.1 == st
    decreases IfCount(n), Size(n), 1
  {
    if n.Raise? then
      var (e', s1) := LowerOpt(c, n.exc, st);
      var (_, s2) := LowerOpt(c, n.cause, s1);
      (RewriteRaise(e'), s2)
    else
      var (t', s1) := LowerOne(c, n.test, st);
      var (m', s2) := LowerOpt(c, n.msg, s1);
      (RewriteAssert(t', m'), s2)
  }

  /** `visit_Assign`: lower the targets and the value, infer the value's type
      once, then apply the assignment rule to each target in turn. */
  function LowerAssign(c: Ctx, n: Node, st: LState): (res: (seq<Node>, LState))
    requires c.Valid() && SpliceSafe(n) && n.Assign?
    ensures Grows(st, res.1)
    decreases IfCount(n), Size(n), 1
  {
    var (ts', s1) := LowerList(c, n.targets, st);
    var (v', s2) := LowerOne(c, n.value, s1);
    AssignTargetsGrows(TealTypeOf(c, s2, v'), s2, ts', v');
    AssignTargets(TealTypeOf(c, s2, v'), s2, ts', v')
  }

  /** `visit_AugAssign` on a name: lowered as the assignment it abbreviates. */
  function LowerAugAssign(c: Ctx, n: Node, st: LState): (res: (seq<Node>, LState))
    requires c.Valid() && SpliceSafe(n) && n.AugAssign? && n.target.Name?
    ensures Grows(st, res.1)
    decreases IfCount(n), Size(n), 1
  {
    var d := Desugar(n);
    DesugarSmaller(n);
    Lower(c, d, st)
  }

  /** `visit_If` / `visit_IfExp`: build the chain, then lower all of its parts. */
  function LowerConditional(c: Ctx, n: Node, st: LState): (res: (Node, LState))
    requires c.Valid() && IsConditional(n) && SpliceSafe(n)
    ensures Grows(st, res.1)
    ensures NoAssign(n) ==> res.1 == st
    decreases IfCount(n), Size(n), 1
  {
    TransformIfPreserves(n, None);
    LowerChildren(c, TransformIf(n, None), st)
  }

  /** `generic_visit` of a call: its function, then its arguments (splicing the
      statements an assignment leaves in place), then its keyword values. */
  function LowerChildren(c: Ctx, ch: Node, st: LState): (res: (Node, LState))
    requires c.Valid() && ch.Call? && SpliceSafe(ch)
    ensures res.0.Call? && |res.0.keywords| == |ch.keywords|
    ensures Grows(st, res.1)
    ensures NoAssign(ch) ==> res.1 == st
    decreases IfCount(ch), Size(ch), 0
  {
    var (f, s1) := LowerOne(c, ch.func, st);
    var (args, s2) := LowerList(c, ch.args, s1);
    var (kws, s3) := LowerKeywords(c, ch.keywords, s2);
    (Call(f, args, kws), s3)
  }

  /** Lowers a node that sits in a single-node field. */
  function LowerOne(c: Ctx, n: Node, st: LState): (res: (Node, LState))
    requires c.Valid() && SingleSafe(n)
    ensures Grows(st, res.1)
    ensures NoAssign(n) ==> res.1 == st
    decreases IfCount(n), Size(n), 3
  {
    var (r, s) := Lower(c, n, st);
    (r[0], s)
  }

  /** Lowers a list field: each element in order, the results concatenated. */
  function LowerList(c: Ctx, ns: seq<Node>, st: LState): (res: (seq<Node>, LState))
    requires c.Valid() && AllSpliceSafe(ns)
    ensures Grows(st, res.1)
    ensures AllNoAssign(ns) ==> res.1 == st
    ensures (forall x | x in ns :: !IsAssignKind(x)) ==> |res.0| == |ns|
    decreases IfCountList(ns), SizeList(ns), 3
  {
    if ns == [] then ([], st)
    else
      var (h, s1) := Lower(c, ns[0], st);
      var (t, s2) := LowerList(c, ns[1..], s1);
      (h + t, s2)
  }

  /** Every keyword value sits in a single-node field. */
  predicate KeywordsSafe(ks: seq<Keyword>)
  {
    forall i | 0 <= i < |ks| :: SingleSafe(ks[i].kwValue)
  }

  function LowerKeywords(c: Ctx, ks: seq<Keyword>, st: LState): (res: (seq<Keyword>, LState))
    requires c.Valid() && KeywordsSafe(ks)
    ensures |res.0| == |ks|
    ensures Grows(st, res.1)
    ensures (forall k | k in ks :: NoAssign(k.kwValue)) ==> res.1 == st
    decreases IfCountKeywords(ks), SizeKeywords(ks), 3
  {
    if ks == [] then ([], st)
    else
      assert IfCountKeywords(ks) == IfCount(ks[0].kwValue) + IfCountKeywords(ks[1..]);
      assert SizeKeywords(ks) == 1 + Size(ks[0].kwValue) + SizeKeywords(ks[1..]);
      var (v, s1) := LowerOne(c, ks[0].kwValue, st);
      var (t, s2) := LowerKeywords(c, ks[1..], s1);
      ([Keyword(ks[0].arg, v)] + t, s2)
  }

  /** One step of `LowerList` from position `i`. */
  lemma LowerListStep(c: Ctx, ns: seq<Node>, i: nat, st: LState)
    requires c.Valid() && i < |ns| && AllSpliceSafe(ns)
    ensures var r1 := Lower(c, ns[i], st);
      LowerList(c, ns[i..], st) == Then(r1.0, LowerList(c, ns[i + 1..], r1.1))
  {
    assert ns[i..][1..] == ns[i + 1..];
    assert ns[i..][0] == ns[i];
  }

  /** One step of `LowerKeywords` from position `i`. */
  lemma LowerKeywordsStep(c: Ctx, ks: seq<Keyword>, i: nat, st: LState)
    requires c.Valid() && i < |ks| && KeywordsSafe(ks)
    ensures var r1 := LowerOne(c, ks[i].kwValue, st);
      LowerKeywords(c, ks[i..], st) == Then([Keyword(ks[i].arg, r1.0)], LowerKeywords(c, ks[i + 1..], r1.1))
  {
    assert ks[i..][1..] == ks[i + 1..];
    assert ks[i..][0] == ks[i];
  }

  function LowerOpt(c: Ctx, o: Option<Node>, st: LState): (res: (Option<Node>, LState))
    requires c.Valid() && (o.Some? ==> SingleSafe(o.value))
    ensures res.0.Some? <==> o.Some?
    ensures Grows(st, res.1)
    ensures (o.Some? ==> NoAssign(o.value)) ==> res.1 == st
    decreases IfCountOpt(o), SizeOpt(o), 4
  {
    if o.None? then (None, st)
    else
      var (v, s) := LowerOne(c, o.value, st);
      (Some(v), s)
  }

  // ---------------------------------------------------------------------------
  // A whole definition (`visit_FunctionDef`)

  /** `Subroutine(TealType.<t>)`, the decorator every function but the target receives. */
  function SubroutineDecorator(t: TealType): (r: Node)
    ensures SingleSafe(r) && IsCallTo(r, "Subroutine")
  {
    assert SingleSafe(Attribute(CreateName("TealType"), TypeName(t)));
    assert SingleSafe(CreateName("Subroutine"));
    CallNamed("Subroutine", [Attribute(CreateName("TealType"), TypeName(t))])
  }

  /** The decorators `visit_FunctionDef` leaves to be lowered: the definition's own,
      followed by `Subroutine(TealType.<ret>)` exactly when it is not the target. */
  function Decorators(target: string, sigs: map<string, Signature>, f: FunctionDef): (ds: seq<Node>)
    requires f.name in sigs && forall d | d in f.decorators :: SingleSafe(d)
    ensures AllSpliceSafe(ds) && forall d | d in ds :: SingleSafe(d)
    ensures |ds| == |f.decorators| + (if f.name != target then 1 else 0) && ds[..|f.decorators|] == f.decorators
    ensures f.name != target ==> ds[|ds| - 1] == SubroutineDecorator(sigs[f.name].ret)
  {
    var ds := if f.name != target then f.decorators + [SubroutineDecorator(sigs[f.name].ret)] else f.decorators;
    assert forall d | d in ds :: SingleSafe(d) && SpliceSafe(d);
    ds
  }

  /** The slot declarations, in the order the slots were created. */
  function Decls(slots: seq<Slot>): (r: seq<Node>)
    ensures |r| == |slots| && forall i | 0 <= i < |slots| :: r[i] == slots[i].decl
  {
    seq(|slots|, i requires 0 <= i < |slots| => slots[i].decl)
  }

  /** The parameters with their annotations removed. */
  function ClearAnnotations(ps: seq<Arg>): (r: seq<Arg>)
    ensures |r| == |ps| && forall i | 0 <= i < |ps| :: r[i].arg == ps[i].arg && r[i].annotation.None?
  {
    seq(|ps|, i requires 0 <= i < |ps| => Arg(ps[i].arg, None))
  }

  /** Lowers one recorded definition, starting from an empty state: annotations are
      dropped, a function other than the target is decorated as a subroutine, the body
      and then the decorators are lowered, and the new body is the hoisted assignments,
      the slot declarations and one `return Seq(<lowered body>)`. The final state is
      returned beside the definition. */
  function LowerFunction(target: string, sigs: map<string, Signature>, fallback: Fallback, f: FunctionDef)
    : (res: (FunctionDef, LState))
    requires f.name in sigs && PositionalOnly(f.params)
    requires AllSpliceSafe(f.body) && forall d | d in f.decorators :: SingleSafe(d)
    ensures var (g, st) := res;
      g.name == f.name && g.returnAnnotation.None? && PositionalOnly(g.params) &&
      g.params.posonlyargs == ClearAnnotations(f.params.posonlyargs)
    ensures |res.0.decorators| == |f.decorators| + (if f.name != target then 1 else 0)
    // the new body: single-target assignments (hoisted ones, then one declaration per
    // slot, each of a distinct name), closed by exactly one return statement
    ensures var (g, st) := res;
      DistinctNames(st.slots) && WellDeclared(st.slots) && SingleTargets(st.hoisted) && |g.body| >= 1 &&
      g.body == st.hoisted + Decls(st.slots) + [g.body[|g.body| - 1]] &&
      g.body[|g.body| - 1].Return? && g.body[|g.body| - 1].result.Some? &&
      IsCallTo(g.body[|g.body| - 1].result.value, "Seq")
    // the return wraps the lowered body; the decorators are lowered after it, in the
    // state the body left, and the final state is theirs
    ensures var c := Ctx(sigs, f.name, fallback);
      var (body, s1) := LowerList(c, f.body, Empty);
      res.0.body[|res.0.body| - 1] == Return(Some(CallNamed("Seq", body))) &&
      (res.0.decorators, res.1) == LowerList(c, Decorators(target, sigs, f), s1)
  {
    var c := Ctx(sigs, f.name, fallback);
    var decorators := Decorators(target, sigs, f);
    var (body, s1) := LowerList(c, f.body, Empty);
    var (decs, s2) := LowerList(c, decorators, s1);
    var g := FunctionDef(f.name, f.params.(posonlyargs := ClearAnnotations(f.params.posonlyargs)),
                         s2.hoisted + Decls(s2.slots) + [Return(Some(CallNamed("Seq", body)))], decs, None);
    (g, s2)
  }
}
