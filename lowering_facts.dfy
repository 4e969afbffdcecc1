/**
 * Properties of the lowering that relate several rules or a whole traversal:
 * slot types never change, expression statements are discarded exactly when
 * their call produces a value, and two complete lowerings worked through.
 */
module LoweringFacts {
  import opened Wrappers
  import opened PyAst
  import opened Container
  import opened Utility
  import opened Lowering

  /** Once a name has a slot, lowering any node leaves the slot's type as it was:
      a later assignment of a value of another type stores into the existing slot
      rather than declaring a second one. */
  lemma SlotTypeFixed(c: Ctx, n: Node, st: LState, name: string)
    requires c.Valid() && SpliceSafe(n) && SlotType(st.slots, name).Some?
    ensures SlotType(Lower(c, n, st).1.slots, name) == SlotType(st.slots, name)
  {
    SlotTypePrefix(st.slots, Lower(c, n, st).1.slots, name);
  }

  /** The same over a whole statement list, such as a function body. */
  lemma SlotTypeFixedList(c: Ctx, ns: seq<Node>, st: LState, name: string)
    requires c.Valid() && AllSpliceSafe(ns) && SlotType(st.slots, name).Some?
    ensures SlotType(LowerList(c, ns, st).1.slots, name) == SlotType(st.slots, name)
  {
    SlotTypePrefix(st.slots, LowerList(c, ns, st).1.slots, name);
  }

  /** A call the lowered code makes for its value alone: not a logging call and
      not a call to a function recorded as returning `none`. */
  predicate ProducesValue(c: Ctx, callee: string)
  {
    callee != "Log" && !(callee in c.sigs && c.sigs[callee].ret == NoneType)
  }

  /** A statement made of a call to a plain name (not a slot) lowers to one node:
      the same statement, calling the renamed builtin, when the call is void, and
      that statement wrapped in `Pop(...)` when the call produces a value. */
  lemma ExprCallStatement(c: Ctx, n: Node, st: LState)
    requires c.Valid() && SpliceSafe(n)
    requires n.Expr? && n.value.Call? && n.value.func.Name? && n.value.func.ctx == Load
    requires SlotType(st.slots, n.value.func.id).None?
    ensures var out := Lower(c, n, st).0; var callee := BuiltinRename(n.value.func.id);
      |out| == 1 &&
      (!ProducesValue(c, callee) ==> out[0].Expr? && IsCallTo(out[0].value, callee)) &&
      (ProducesValue(c, callee) ==>
        IsCallTo(out[0], "Pop") && |out[0].args| == 1 && out[0].args[0].Expr? && IsCallTo(out[0].args[0].value, callee))
  {
    var call := n.value;
    var lowered := LowerChildren(c, call, st);
    assert Lower(c, call.func, st) == ([call.func], st);
    assert LowerOne(c, call.func, st) == (call.func, st);
    assert lowered.0.func == call.func;
    var m := RewriteCall(lowered.0);
    assert LowerExpression(c, call, st) == (m, lowered.1);
    assert LowerOne(c, call, st) == (m, lowered.1);
    assert LowerStatement(c, n, st) == (RewriteExprStmt(c, Expr(m)), lowered.1);
  }

  /** `print(...)` as a statement becomes a bare `Log(...)` statement, never a discarded one. */
  lemma PrintStaysBare(c: Ctx, n: Node, st: LState)
    requires c.Valid() && SpliceSafe(n)
    requires n.Expr? && n.value.Call? && n.value.func == Name("print", Load)
    requires SlotType(st.slots, "print").None?
    ensures var out := Lower(c, n, st).0; |out| == 1 && out[0].Expr? && IsCallTo(out[0].value, "Log")
  {
    ExprCallStatement(c, n, st);
  }

  /** `x op= e` on a name lowers exactly as `x = x op e` does; with any other target
      the statement is kept as it is and nothing else changes. */
  lemma AugAssignAsAssign(c: Ctx, n: Node, st: LState)
    requires c.Valid() && SpliceSafe(n) && n.AugAssign?
    ensures n.target.Name? ==>
      (var a := Assign([n.target], BinOp(Name(n.target.id, Load), n.op, n.value));
       SpliceSafe(a) && Lower(c, n, st) == Lower(c, a, st))
    ensures !n.target.Name? ==> Lower(c, n, st) == ([n], st)
  {
    if n.target.Name? {
      DesugarSmaller(n);
      assert Desugar(n) == Assign([n.target], BinOp(Name(n.target.id, Load), n.op, n.value));
    }
  }

  /** A one-element list lowers as its element does. */
  lemma LowerSingleton(c: Ctx, n: Node, st: LState)
    requires c.Valid() && SpliceSafe(n)
    ensures LowerList(c, [n], st) == Lower(c, n, st)
  {
    assert [n][1..] == [];
    var r := Lower(c, n, st);
    assert LowerList(c, [], r.1) == ([], r.1);
    assert r.0 + [] == r.0;
  }

  // ---------------------------------------------------------------------------
  // Worked example: `def f(x: int, /) -> int: y = x + 1; return y`

  const IntSig := Signature([Param("x", Uint64)], Uint64)

  /** `x + 1` after lowering: the parameter is read as it is, the literal becomes `Int(1)`. */
  const Sum := BinOp(Name("x", Load), Add, CallNamed("Int", [Constant(IntConst(1))]))

  /** `y = x + 1` and `return y`. */
  const AssignY := Assign([Name("y", Store)], BinOp(Name("x", Load), Add, Constant(IntConst(1))))
  const ReturnY := Return(Some(Name("y", Load)))

  lemma ExampleSafe()
    ensures SpliceSafe(AssignY) && SpliceSafe(ReturnY)
  {
  }

  function ExampleDef(): (f: FunctionDef)
    ensures f.name == "f" && PositionalOnly(f.params) && f.decorators == [] && f.body == [AssignY, ReturnY]
    ensures AllSpliceSafe(f.body)
  {
    ExampleSafe();
    FunctionDef("f", Arguments([Arg("x", Some(Name("int", Load)))], [], None, [], [], None, []),
      [AssignY, ReturnY], [], Some(Name("int", Load)))
  }

  const Y := Slot("y", Uint64, ScratchDecl(Name("y", Store), Uint64))

  /** The value `x + 1` lowers to `x + Int(1)`: the parameter read is kept and the state is unchanged. */
  lemma ExampleValue(c: Ctx)
    requires c.sigs == map["f" := IntSig] && c.current == "f"
    ensures LowerOne(c, BinOp(Name("x", Load), Add, Constant(IntConst(1))), Empty) == (Sum, Empty)
  {
    assert Lower(c, Name("x", Load), Empty) == ([Name("x", Load)], Empty);
    assert Lower(c, Constant(IntConst(1)), Empty) == ([CallNamed("Int", [Constant(IntConst(1))])], Empty);
    assert TealTypeOf(c, Empty, Name("x", Load)) == Some(Uint64);
  }

  /** The first assignment to `y` of an integer declares its slot and stores into it. */
  lemma ExampleStore()
    ensures AssignTargets(Some(Uint64), Empty, [Name("y", Store)], Sum) ==
      ([StoreCall(Name("y", Store), Sum)], LState([Y], []))
  {
    var y := Name("y", Store);
    var r := AssignTarget(Some(Uint64), Empty, y, Sum);
    assert r.0 == [StoreCall(y, Sum)];
    assert r.1 == LState([Y], []);
    assert [y][1..] == [];
    assert [StoreCall(y, Sum)] + [] == [StoreCall(y, Sum)];
  }

  /** `y = x + 1`: the value is an integer, so `y` gets a slot and a store. */
  lemma ExampleAssign(c: Ctx)
    requires c.sigs == map["f" := IntSig] && c.current == "f" && c.fallback(Sum, "f", []) == Some(Uint64)
    ensures Lower(c, AssignY, Empty) ==
      ([StoreCall(Name("y", Store), Sum)], LState([Y], []))
  {
    ExampleSafe();
    ExampleTargets(c);
    ExampleValueOne(c);
    assert TealTypeOf(c, Empty, Sum) == Some(Uint64);
    ExampleStore();
    assert Lower(c, AssignY, Empty) == LowerAssign(c, AssignY, Empty);
  }

  lemma ExampleTargets(c: Ctx)
    requires c.Valid()
    ensures LowerList(c, [Name("y", Store)], Empty) == ([Name("y", Store)], Empty)
  {
    var y := Name("y", Store);
    assert Lower(c, y, Empty) == ([y], Empty);
    LowerSingleton(c, y, Empty);
  }

  lemma ExampleValueOne(c: Ctx)
    requires c.sigs == map["f" := IntSig] && c.current == "f"
    ensures LowerOne(c, AssignY.value, Empty) == (Sum, Empty)
  {
    ExampleValue(c);
  }

  /** `return y` once `y` has a slot: the slot's value is loaded and returned. */
  lemma ExampleReturn(c: Ctx)
    requires c.Valid()
    ensures Lower(c, ReturnY, LState([Y], [])) ==
      ([CallNamed("Return", [CallMethod(Name("y", Load), "load", [])])], LState([Y], []))
  {
    var s1 := LState([Y], []);
    var y := Name("y", Load);
    var loaded := CallMethod(y, "load", []);
    assert SlotType(s1.slots, "y") == Some(Uint64);
    assert RewriteName(s1, y) == loaded;
    assert Lower(c, y, s1) == ([loaded], s1);
    assert LowerOne(c, y, s1) == (loaded, s1);
    assert LowerOpt(c, Some(y), s1) == (Some(loaded), s1);
    assert LowerStatement(c, ReturnY, s1) == (RewriteReturn(Some(loaded)), s1);
  }

  /** `y.store(x + Int(1))` and `Return(y.load())`. */
  const StoreY := StoreCall(Name("y", Store), Sum)
  const ReturnLoaded := CallNamed("Return", [CallMethod(Name("y", Load), "load", [])])

  /** Two statements that each lower to one node lower to the pair of them. */
  lemma LowerTwo(c: Ctx, a: Node, b: Node, st: LState, a': Node, s1: LState, b': Node, s2: LState)
    requires c.Valid() && SpliceSafe(a) && SpliceSafe(b)
    requires Lower(c, a, st) == ([a'], s1) && Lower(c, b, s1) == ([b'], s2)
    ensures LowerList(c, [a, b], st) == ([a', b'], s2)
  {
    var ns := [a, b];
    LowerListStep(c, ns, 0, st);
    assert ns[0..] == ns && ns[0] == a && ns[1..] == [b];
    LowerSingleton(c, b, s1);
    Juxtapose(a', b');
  }

  lemma Juxtapose(x: Node, y: Node)
    ensures [x] + [y] == [x, y]
  {
    assert ([x] + [y])[1] == y;
  }

  /** The whole body: one store, then the return of the loaded slot. */
  lemma ExampleBody(c: Ctx)
    requires c.sigs == map["f" := IntSig] && c.current == "f" && c.fallback(Sum, "f", []) == Some(Uint64)
    ensures LowerList(c, ExampleDef().body, Empty) == ([StoreY, ReturnLoaded], LState([Y], []))
  {
    ExampleSafe();
    ExampleAssign(c);
    ExampleReturn(c);
    LowerTwo(c, AssignY, ReturnY, Empty, StoreY, LState([Y], []), ReturnLoaded, LState([Y], []));
  }

  /** Lowered as the target function with a fallback that reports `x + Int(1)` as an
      integer, the body declares one integer slot for `y`, stores into it once, and
      returns its loaded value; the annotations are gone. */
  lemma WorkedExample(fallback: Fallback)
    requires fallback(Sum, "f", []) == Some(Uint64)
    ensures var (g, st) := LowerFunction("f", map["f" := IntSig], fallback, ExampleDef());
      st.slots == [Y] && st.hoisted == [] &&
      g.params.posonlyargs == [Arg("x", None)] && g.decorators == [] &&
      g.body == [ScratchDecl(Name("y", Store), Uint64), Return(Some(CallNamed("Seq", [StoreY, ReturnLoaded])))]
  {
    var f := ExampleDef();
    var c := Ctx(map["f" := IntSig], "f", fallback);
    var s1 := LState([Y], []);
    ExampleBody(c);
    assert LowerList(c, f.decorators, s1) == ([], s1);
    var ret := Return(Some(CallNamed("Seq", [StoreY, ReturnLoaded])));
    assert Decls(s1.slots) == [Y.decl];
    assert s1.hoisted + Decls(s1.slots) + [ret] == [Y.decl, ret];
    assert ClearAnnotations(f.params.posonlyargs) == [Arg("x", None)];
  }

  // ---------------------------------------------------------------------------
  // Concatenation: `x + "a" + "b"` with `x` a byte-string parameter

  /** `x + sa`. */
  function Appended(x: string, sa: string): (n: Node)
    ensures n.BinOp? && SingleSafe(n)
  {
    assert SingleSafe(Name(x, Load)) && SingleSafe(Constant(StrConst(sa)));
    BinOp(Name(x, Load), Add, Constant(StrConst(sa)))
  }

  /** `x + sa + sb`, as Python parses it: `(x + sa) + sb`. */
  function ConcatChain(x: string, sa: string, sb: string): (n: Node)
    ensures n.BinOp? && SingleSafe(n)
  {
    assert SingleSafe(Constant(StrConst(sb)));
    BinOp(Appended(x, sa), Add, Constant(StrConst(sb)))
  }

  /** The inner `+` becomes `Concat(x, Bytes(sa))` because `x` is a byte string; the
      outer one extends that call rather than nesting a second `Concat`. */
  lemma ConcatFlattens(c: Ctx, st: LState, x: string, sa: string, sb: string)
    requires c.Valid() && SlotType(st.slots, x).None? && ArgType(c.sigs[c.current].arguments, x) == Some(Bytes)
    ensures LowerOne(c, ConcatChain(x, sa, sb), st) ==
      (CallNamed("Concat", [Name(x, Load), CallNamed("Bytes", [Constant(StrConst(sa))]),
                            CallNamed("Bytes", [Constant(StrConst(sb))])]), st)
  {
    var a := CallNamed("Bytes", [Constant(StrConst(sa))]);
    var b := CallNamed("Bytes", [Constant(StrConst(sb))]);
    var n := ConcatChain(x, sa, sb);
    var concat := CallNamed("Concat", [Name(x, Load), a]);
    ConcatInner(c, st, x, sa);
    BytesLiteral(c, st, sb);
    assert [Name(x, Load), a] + [b] == [Name(x, Load), a, b];
    assert RewriteBinOp(c, st, BinOp(concat, Add, b)) == CallNamed("Concat", [Name(x, Load), a, b]);
    assert LowerExpression(c, n, st) == (RewriteBinOp(c, st, BinOp(concat, Add, b)), st);
    assert Lower(c, n, st) == ([CallNamed("Concat", [Name(x, Load), a, b])], st);
  }

  /** A string literal lowers to `Bytes(...)`. */
  lemma BytesLiteral(c: Ctx, st: LState, s: string)
    requires c.Valid()
    ensures LowerOne(c, Constant(StrConst(s)), st) == (CallNamed("Bytes", [Constant(StrConst(s))]), st)
  {
    assert Lower(c, Constant(StrConst(s)), st) == ([CallNamed("Bytes", [Constant(StrConst(s))])], st);
  }

  /** `x + sa` with `x` a byte-string parameter lowers to `Concat(x, Bytes(sa))`. */
  lemma ConcatInner(c: Ctx, st: LState, x: string, sa: string)
    requires c.Valid() && SlotType(st.slots, x).None? && ArgType(c.sigs[c.current].arguments, x) == Some(Bytes)
    ensures LowerOne(c, Appended(x, sa), st) ==
      (CallNamed("Concat", [Name(x, Load), CallNamed("Bytes", [Constant(StrConst(sa))])]), st)
  {
    var n := Appended(x, sa);
    var a := CallNamed("Bytes", [Constant(StrConst(sa))]);
    assert Lower(c, Name(x, Load), st) == ([Name(x, Load)], st);
    assert LowerOne(c, Name(x, Load), st) == (Name(x, Load), st);
    BytesLiteral(c, st, sa);
    assert TealTypeOf(c, st, Name(x, Load)) == Some(Bytes);
    assert LowerExpression(c, n, st) == (CallNamed("Concat", [Name(x, Load), a]), st);
    assert Lower(c, n, st) == ([CallNamed("Concat", [Name(x, Load), a])], st);
  }
}
