/**
 * `PyTealTransformer`: the lowering pass as an object whose fields (the slot
 * table, the hoisted assignments and the name of the function being lowered)
 * are updated while it walks a definition. Every visit method is proved to
 * compute exactly what the functions of module Lowering describe, so the
 * properties proved there hold of the object's results.
 */
module Transformer {
  import opened Wrappers
  import opened PyAst
  import opened Container
  import opened Utility
  import opened Lowering

  class Transformer {
    /** The entry point's name: the one definition not decorated as a subroutine. */
    const target: string
    /** The signatures the collector recorded. */
    const sigs: map<string, Signature>
    /** Type inference by evaluation, consulted when the syntax does not decide. */
    const fallback: Fallback

    /** `_variables`: one slot per assigned name with a known type. */
    var slots: seq<Slot>
    /** `_unknown_assign_nodes`: assignments moved to the top of the function. */
    var hoisted: seq<Node>
    /** `_current_function_name`. */
    var current: Option<string>

    function State(): LState
      reads this
    {
      LState(slots, hoisted)
    }

    /** Lowering a body is possible once a recorded function is current. */
    predicate InFunction()
      reads this
    {
      current.Some? && current.value in sigs
    }

    function Context(): (c: Ctx)
      requires InFunction()
      reads this
      ensures c.Valid()
    {
      Ctx(sigs, current.value, fallback)
    }

    constructor (target: string, sigs: map<string, Signature>, fallback: Fallback)
      ensures this.target == target && this.sigs == sigs && this.fallback == fallback
      ensures slots == [] && hoisted == [] && current == None
    {
      this.target := target;
      this.sigs := sigs;
      this.fallback := fallback;
      slots := [];
      hoisted := [];
      current := None;
    }

    /** `visit_FunctionDef`: the state is reset on entry, so nothing carries over
        from a previously lowered definition. */
    method VisitFunctionDef(f: FunctionDef) returns (g: FunctionDef)
      requires f.name in sigs && PositionalOnly(f.params)
      requires AllSpliceSafe(f.body) && forall d | d in f.decorators :: SingleSafe(d)
      modifies this
      ensures (g, State()) == LowerFunction(target, sigs, fallback, f)
      ensures current == Some(f.name)
    {
      var cleared := DropAnnotations(f.params.posonlyargs);
      var decorators := f.decorators;
      if f.name != target {
        decorators := decorators + [SubroutineDecorator(sigs[f.name].ret)];
        assert SingleSafe(SubroutineDecorator(sigs[f.name].ret)) by {
          assert SingleSafe(Attribute(CreateName("TealType"), TypeName(sigs[f.name].ret)));
          assert SingleSafe(CreateName("Subroutine"));
        }
      }
      slots := [];
      hoisted := [];
      current := Some(f.name);
      ghost var c := Ctx(sigs, f.name, fallback);
      assert Context() == c && State() == Empty;
      var body := VisitList(f.body);
      ghost var s1 := State();
      assert (body, s1) == LowerList(c, f.body, Empty);
      var decs := VisitList(decorators);
      assert (decs, State()) == LowerList(c, decorators, s1);
      g := FunctionDef(f.name, f.params.(posonlyargs := cleared),
                       hoisted + Decls(slots) + [Return(Some(CallNamed("Seq", body)))], decs, None);
    }

    /** The loop of `visit_FunctionDef` that removes every parameter annotation. */
    static method DropAnnotations(posonly: seq<Arg>) returns (cleared: seq<Arg>)
      ensures cleared == ClearAnnotations(posonly)
    {
      cleared := [];
      var i := 0;
      while i < |posonly|
        invariant 0 <= i <= |posonly| && |cleared| == i
        invariant forall j | 0 <= j < i :: cleared[j] == Arg(posonly[j].arg, None)
      {
        cleared := cleared + [Arg(posonly[i].arg, None)];
        i := i + 1;
      }
    }

    /** `visit`: dispatch on the kind of node. */
    method Visit(n: Node) returns (r: seq<Node>)
      requires InFunction() && SpliceSafe(n)
      modifies this
      ensures current == old(current)
      ensures (r, State()) == Lower(old(Context()), n, old(State()))
      decreases IfCount(n), Size(n), 2
    {
      match n {
        case Name(_, _) =>
          var m := VisitName(n);
          r := [m];
        case Constant(v) =>
          var m := VisitConstant(n);
          r := [m];
        case Continue =>
          r := [RewriteJump(n)];
        case Break =>
          r := [RewriteJump(n)];
        case Pass =>
          r := [RewriteJump(n)];
        case IfExp(_, _, _) =>
          var m := VisitConditional(n);
          r := [m];
        case If(_, _, _) =>
          var m := VisitConditional(n);
          r := [m];
        case Assign(_, _) =>
          r := VisitAssign(n);
        case AugAssign(_, _, _) =>
          r := VisitAugAssign(n);
        case Expr(_) =>
          var m := VisitExpr(n);
          r := [m];
        case While(_, _, _) =>
          var m := VisitWhile(n);
          r := [m];
        case Raise(_, _) =>
          var m := VisitRaise(n);
          r := [m];
        case Assert(_, _) =>
          var m := VisitAssert(n);
          r := [m];
        case Return(_) =>
          var m := VisitReturn(n);
          r := [m];
        case Call(_, _, _) =>
          var m := VisitCall(n);
          r := [m];
        case BinOp(_, _, _) =>
          var m := VisitBinOp(n);
          r := [m];
        case UnaryOp(_, _) =>
          var m := VisitUnaryOp(n);
          r := [m];
        case BoolOp(_, _) =>
          var m := VisitBoolOp(n);
          r := [m];
        case Attribute(_, _) =>
          var m := GenericVisit(n);
          r := [m];
        case Compare(_, _, _) =>
          var m := GenericVisit(n);
          r := [m];
      }
    }

    /** Visits a node held in a single-node field. */
    method VisitOne(n: Node) returns (r: Node)
      requires InFunction() && SingleSafe(n)
      modifies this
      ensures current == old(current)
      ensures (r, State()) == LowerOne(old(Context()), n, old(State()))
      decreases IfCount(n), Size(n), 3
    {
      var rs := Visit(n);
      r := rs[0];
    }

    /** `generic_visit` of a list field: each element in turn, splicing lists. */
    method VisitList(ns: seq<Node>) returns (r: seq<Node>)
      requires InFunction() && AllSpliceSafe(ns)
      modifies this
      ensures current == old(current)
      ensures (r, State()) == LowerList(old(Context()), ns, old(State()))
      decreases IfCountList(ns), SizeList(ns), 3
    {
      ghost var c := Context();
      ghost var total := LowerList(c, ns, State());
      r := [];
      var i := 0;
      assert ns[i..] == ns;
      while i < |ns|
        invariant 0 <= i <= |ns|
        invariant current == old(current) && InFunction() && Context() == c
        invariant total == Then(r, LowerList(c, ns[i..], State()))
      {
        ElementBounds(ns, i);
        LowerListStep(c, ns, i, State());
        var out := Visit(ns[i]);
        ThenAssoc(r, out, LowerList(c, ns[i + 1..], State()));
        r := r + out;
        i := i + 1;
      }
      assert LowerList(c, ns[i..], State()) == ([], State()) by {
        assert ns[i..] == [];
      }
      assert r + [] == r;
    }

    method VisitKeywords(ks: seq<Keyword>) returns (r: seq<Keyword>)
      requires InFunction() && KeywordsSafe(ks)
      modifies this
      ensures current == old(current)
      ensures (r, State()) == LowerKeywords(old(Context()), ks, old(State()))
      decreases IfCountKeywords(ks), SizeKeywords(ks), 3
    {
      ghost var c := Context();
      ghost var total := LowerKeywords(c, ks, State());
      r := [];
      var i := 0;
      assert ks[i..] == ks;
      while i < |ks|
        invariant 0 <= i <= |ks|
        invariant current == old(current) && InFunction() && Context() == c
        invariant total == Then(r, LowerKeywords(c, ks[i..], State()))
      {
        KeywordBounds(ks, i);
        LowerKeywordsStep(c, ks, i, State());
        var v := VisitOne(ks[i].kwValue);
        ThenAssoc(r, [Keyword(ks[i].arg, v)], LowerKeywords(c, ks[i + 1..], State()));
        r := r + [Keyword(ks[i].arg, v)];
        i := i + 1;
      }
      assert LowerKeywords(c, ks[i..], State()) == ([], State()) by {
        assert ks[i..] == [];
      }
      assert r + [] == r;
    }

    method VisitOpt(o: Option<Node>) returns (r: Option<Node>)
      requires InFunction() && (o.Some? ==> SingleSafe(o.value))
      modifies this
      ensures current == old(current)
      ensures (r, State()) == LowerOpt(old(Context()), o, old(State()))
      decreases IfCountOpt(o), SizeOpt(o), 4
    {
      if o.None? {
        r := None;
      } else {
        var v := VisitOne(o.value);
        r := Some(v);
      }
    }

    /** `generic_visit` of a call: function, arguments, keywords. */
    method VisitChildren(ch: Node) returns (r: Node)
      requires InFunction() && ch.Call? && SpliceSafe(ch)
      modifies this
      ensures current == old(current)
      ensures (r, State()) == LowerChildren(old(Context()), ch, old(State()))
      decreases IfCount(ch), Size(ch), 0
    {
      var f := VisitOne(ch.func);
      var args := VisitList(ch.args);
      var kws := VisitKeywords(ch.keywords);
      r := Call(f, args, kws);
    }

    /** `generic_visit` for the kinds without a rule of their own. */
    method GenericVisit(n: Node) returns (r: Node)
      requires InFunction() && SpliceSafe(n) && (n.Attribute? || n.Compare?)
      modifies this
      ensures current == old(current)
      ensures ([r], State()) == Lower(old(Context()), n, old(State()))
      decreases IfCount(n), Size(n), 1
    {
      if n.Attribute? {
        var o := VisitOne(n.obj);
        r := Attribute(o, n.attr);
      } else {
        var l := VisitOne(n.left);
        var cs := VisitList(n.comparators);
        r := Compare(l, n.ops, cs);
      }
    }

    method VisitName(n: Node) returns (r: Node)
      requires InFunction() && n.Name?
      ensures ([r], State()) == Lower(Context(), n, State())
    {
      r := n;
      if n.ctx == Load && SlotType(slots, n.id).Some? {
        r := CallMethod(n, "load", []);
      }
    }

    method VisitConstant(n: Node) returns (r: Node)
      requires InFunction() && n.Constant?
      ensures ([r], State()) == Lower(Context(), n, State())
    {
      var v := n.lit;
      if PyInt(v).Some? {
        r := CallNamed("Int", [Constant(IntConst(PyInt(v).value))]);
      } else if v.StrConst? {
        r := CallNamed("Bytes", [n]);
      } else {
        r := n;
      }
    }

    method VisitCall(n: Node) returns (r: Node)
      requires InFunction() && n.Call? && SpliceSafe(n)
      modifies this
      ensures current == old(current)
      ensures ([r], State()) == Lower(old(Context()), n, old(State()))
      decreases IfCount(n), Size(n), 1
    {
      r := VisitChildren(n);
      if r.func.Name? {
        r := r.(func := Name(BuiltinRename(r.func.id), r.func.ctx));
      }
    }

    /** `visit_If` and `visit_IfExp`: rewrite into a builder chain, then visit the chain's parts. */
    method VisitConditional(n: Node) returns (r: Node)
      requires InFunction() && IsConditional(n) && SpliceSafe(n)
      modifies this
      ensures current == old(current)
      ensures ([r], State()) == Lower(old(Context()), n, old(State()))
      decreases IfCount(n), Size(n), 1
    {
      TransformIfPreserves(n, None);
      var chain := TransformIf(n, None);
      r := VisitChildren(chain);
    }

    method VisitExpr(n: Node) returns (r: Node)
      requires InFunction() && n.Expr? && SpliceSafe(n)
      modifies this
      ensures current == old(current)
      ensures ([r], State()) == Lower(old(Context()), n, old(State()))
      decreases IfCount(n), Size(n), 1
    {
      var v := VisitOne(n.value);
      r := Expr(v);
      if !(v.Call? && v.func.Name? && (v.func.id == "Log" || (v.func.id in sigs && sigs[v.func.id].ret == NoneType))) {
        r := CallNamed("Pop", [r]);
      }
    }

    /** `visit_Assign`: the loop over the targets updates the slot table and the
        hoisted assignments and collects the statements that stay in place. */
    method VisitAssign(n: Node) returns (r: seq<Node>)
      requires InFunction() && n.Assign? && SpliceSafe(n)
      modifies this
      ensures current == old(current)
      ensures (r, State()) == LowerAssign(old(Context()), n, old(State()))
      decreases IfCount(n), Size(n), 1
    {
      var targets := VisitList(n.targets);
      var value := VisitOne(n.value);
      var t := TealTypeOf(Context(), State(), value);
      r := AssignAll(t, targets, value);
    }

    /** The loop of `visit_Assign` over the lowered targets. */
    method AssignAll(t: Option<TealType>, targets: seq<Node>, value: Node) returns (r: seq<Node>)
      modifies this
      ensures current == old(current)
      ensures (r, State()) == AssignTargets(t, old(State()), targets, value)
    {
      ghost var total := AssignTargets(t, State(), targets, value);
      r := [];
      var i := 0;
      assert targets[i..] == targets;
      while i < |targets|
        invariant 0 <= i <= |targets| && current == old(current)
        invariant total == Then(r, AssignTargets(t, State(), targets[i..], value))
      {
        AssignTargetsStep(t, State(), targets, i, value);
        var out := AssignTargetStep(t, targets[i], value);
        ThenAssoc(r, out, AssignTargets(t, State(), targets[i + 1..], value));
        r := r + out;
        i := i + 1;
      }
      assert AssignTargets(t, State(), targets[i..], value) == ([], State()) by {
        assert targets[i..] == [];
      }
      assert r + [] == r;
    }

    /** One iteration of the loop of `visit_Assign`. */
    method AssignTargetStep(t: Option<TealType>, target: Node, value: Node) returns (out: seq<Node>)
      modifies this
      ensures current == old(current)
      ensures (out, State()) == AssignTarget(t, old(State()), target, value)
    {
      out := [];
      if !target.Name? {
        hoisted := hoisted + [Assign([target], value)];
      } else if t.None? {
        if SlotType(slots, target.id).Some? {
          out := [Assign([target], value)];
        } else {
          hoisted := hoisted + [Assign([target], value)];
        }
      } else {
        if SlotType(slots, target.id).None? {
          slots := slots + [Slot(target.id, t.value, ScratchDecl(target, t.value))];
        }
        out := [StoreCall(target, value)];
      }
    }

    method VisitAugAssign(n: Node) returns (r: seq<Node>)
      requires InFunction() && n.AugAssign? && SpliceSafe(n)
      modifies this
      ensures current == old(current)
      ensures (r, State()) == Lower(old(Context()), n, old(State()))
      decreases IfCount(n), Size(n), 1
    {
      if n.target.Name? {
        var d := Desugar(n);
        DesugarSmaller(n);
        r := Visit(d);
      } else {
        r := [n];
      }
    }

    /** `visit_While`: the `else` block is visited (its assignments still make slots)
        but left out of the result. */
    method VisitWhile(n: Node) returns (r: Node)
      requires InFunction() && n.While? && SpliceSafe(n)
      modifies this
      ensures current == old(current)
      ensures ([r], State()) == Lower(old(Context()), n, old(State()))
      decreases IfCount(n), Size(n), 1
    {
      var test := VisitOne(n.test);
      var body := VisitList(n.body);
      var _ := VisitList(n.orelse);
      r := RewriteWhile(test, body);
    }

    method VisitUnaryOp(n: Node) returns (r: Node)
      requires InFunction() && n.UnaryOp? && SpliceSafe(n)
      modifies this
      ensures current == old(current)
      ensures ([r], State()) == Lower(old(Context()), n, old(State()))
      decreases IfCount(n), Size(n), 1
    {
      var e := VisitOne(n.operand);
      r := UnaryOp(n.uop, e);
      if n.uop == Not {
        r := CallNamed("Not", [e]);
      }
    }

    method VisitBoolOp(n: Node) returns (r: Node)
      requires InFunction() && n.BoolOp? && SpliceSafe(n)
      modifies this
      ensures current == old(current)
      ensures ([r], State()) == Lower(old(Context()), n, old(State()))
      decreases IfCount(n), Size(n), 1
    {
      var vs := VisitList(n.values);
      if n.bop == And {
        r := CallNamed("And", vs);
      } else {
        r := CallNamed("Or", vs);
      }
    }

    method VisitBinOp(n: Node) returns (r: Node)
      requires InFunction() && n.BinOp? && SpliceSafe(n)
      modifies this
      ensures current == old(current)
      ensures ([r], State()) == Lower(old(Context()), n, old(State()))
      decreases IfCount(n), Size(n), 1
    {
      var l := VisitOne(n.left);
      var rt := VisitOne(n.right);
      r := BinOp(l, n.op, rt);
      if n.op == Add {
        if IsCallTo(l, "Concat") {
          r := CallNamed("Concat", l.args + [rt]);
        } else if TealTypeOf(Context(), State(), l) == Some(Bytes) {
          r := CallNamed("Concat", [l, rt]);
        }
      }
    }

    method VisitRaise(n: Node) returns (r: Node)
      requires InFunction() && n.Raise? && SpliceSafe(n)
      modifies this
      ensures current == old(current)
      ensures ([r], State()) == Lower(old(Context()), n, old(State()))
      decreases IfCount(n), Size(n), 1
    {
      var exc := VisitOpt(n.exc);
      var _ := VisitOpt(n.cause);
      r := CallNamed("Err", []);
      var comment := BytesValue(exc);
      if comment.Some? {
        r := CallNamed("Comment", [comment.value, r]);
      }
    }

    method VisitAssert(n: Node) returns (r: Node)
      requires InFunction() && n.Assert? && SpliceSafe(n)
      modifies this
      ensures current == old(current)
      ensures ([r], State()) == Lower(old(Context()), n, old(State()))
      decreases IfCount(n), Size(n), 1
    {
      var test := VisitOne(n.test);
      var msg := VisitOpt(n.msg);
      r := Call(CreateName("Assert"), [test], []);
      var comment := BytesValue(msg);
      if comment.Some? {
        r := r.(keywords := r.keywords + [Keyword(Some("comment"), comment.value)]);
        assert r.keywords == [Keyword(Some("comment"), comment.value)];
      }
    }

    method VisitReturn(n: Node) returns (r: Node)
      requires InFunction() && n.Return? && SpliceSafe(n)
      modifies this
      ensures current == old(current)
      ensures ([r], State()) == Lower(old(Context()), n, old(State()))
      decreases IfCount(n), Size(n), 1
    {
      var v := VisitOpt(n.result);
      r := RewriteReturn(v);
    }
  }
}
