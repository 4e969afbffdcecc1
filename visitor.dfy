/**
 * `PyTealVisitor`, the signature and reachability collector: a set of called
 * names and a table of recorded signatures, updated while the definitions are
 * visited one after another, target first.
 */
module Visitor {
  import opened Wrappers
  import opened PyAst
  import opened Container
  import opened Utility

  /** The exceptions the collector raises; any of them aborts the whole transform. */
  datatype CollectError =
    | MissingReturnType(fn: string)              // ValueError: no valid return type
    | UnsupportedSignature(fn: string)           // NotImplementedError: not positional-only
    | MissingArgumentType(fn: string, arg: string) // ValueError: no valid argument type

  // ---------------------------------------------------------------------------
  // Signatures

  /** A parameter annotation the collector accepts: it resolves, and not to `none`. */
  predicate ValidParam(a: Arg)
  {
    AnnotationTealType(a.annotation).Some? && AnnotationTealType(a.annotation).value != NoneType
  }

  /** The parameters of function `name` with their types, or the error for the first
      parameter whose annotation is missing, unrecognised or `None`. */
  function ResolveParams(name: string, ps: seq<Arg>): (r: Result<seq<Param>, CollectError>)
    ensures r.Success? <==> forall i | 0 <= i < |ps| :: ValidParam(ps[i])
    ensures r.Success? ==> (|r.value| == |ps| &&
      forall i | 0 <= i < |ps| :: r.value[i] == Param(ps[i].arg, AnnotationTealType(ps[i].annotation).value))
    ensures r.Failure? ==> exists k | 0 <= k < |ps| ::
      !ValidParam(ps[k]) && (forall j | 0 <= j < k :: ValidParam(ps[j])) && r.error == MissingArgumentType(name, ps[k].arg)
  {
    if ps == [] then Success([])
    else if !ValidParam(ps[0]) then Failure(MissingArgumentType(name, ps[0].arg))
    else
      var rest := ResolveParams(name, ps[1..]);
      assert forall i | 1 <= i < |ps| :: ps[i] == ps[1..][i - 1];
      if rest.Failure? then
        var k :| 0 <= k < |ps[1..]| && !ValidParam(ps[1..][k]) && (forall j | 0 <= j < k :: ValidParam(ps[1..][j])) &&
          rest.error == MissingArgumentType(name, ps[1..][k].arg);
        assert forall j | 0 <= j < k + 1 :: ValidParam(ps[j]) by {
          forall j | 0 <= j < k + 1 ensures ValidParam(ps[j]) {
            if j > 0 { assert ps[j] == ps[1..][j - 1]; }
          }
        }
        Failure(rest.error)
      else
        Success([Param(ps[0].arg, AnnotationTealType(ps[0].annotation).value)] + rest.value)
  }

  /** The signature of a definition, checked in the collector's order: the return
      annotation first, then the parameter shape, then each parameter in turn. */
  function SignatureOf(f: FunctionDef): (r: Result<Signature, CollectError>)
    ensures AnnotationTealType(f.returnAnnotation).None? ==> r == Failure(MissingReturnType(f.name))
    ensures AnnotationTealType(f.returnAnnotation).Some? && !PositionalOnly(f.params) ==>
      r == Failure(UnsupportedSignature(f.name))
    ensures r.Success? <==> (AnnotationTealType(f.returnAnnotation).Some? && PositionalOnly(f.params) &&
      forall i | 0 <= i < |f.params.posonlyargs| :: ValidParam(f.params.posonlyargs[i]))
    ensures r.Success? ==> (r.value.ret == AnnotationTealType(f.returnAnnotation).value &&
      r.value.arguments == ResolveParams(f.name, f.params.posonlyargs).value)
  {
    var ret := AnnotationTealType(f.returnAnnotation);
    if ret.None? then Failure(MissingReturnType(f.name))
    else if !PositionalOnly(f.params) then Failure(UnsupportedSignature(f.name))
    else
      match ResolveParams(f.name, f.params.posonlyargs)
      case Failure(e) => Failure(e)
      case Success(ps) => Success(Signature(ps, ret.value))
  }

  // ---------------------------------------------------------------------------
  // Called names

  /** The bare names called in a tree. `descend` says whether the arguments of a
      call are searched too: the collector as written does not (`visit_Call` does
      not continue into the call), so only outermost calls are seen. */
  function CallNamesIn(n: Node, descend: bool): set<string>
    decreases n
  {
    match n
    case Name(_, _) => {}
    case Constant(_) => {}
    case Call(f, args, kws) =>
      (if f.Name? then {f.id} else {}) +
      (if descend then CallNamesIn(f, descend) + CallNamesList(args, descend) + CallNamesKeywords(kws, descend) else {})
    case Attribute(o, _) => CallNamesIn(o, descend)
    case BinOp(l, _, r) => CallNamesIn(l, descend) + CallNamesIn(r, descend)
    case UnaryOp(_, e) => CallNamesIn(e, descend)
    case BoolOp(_, vs) => CallNamesList(vs, descend)
    case Compare(l, _, cs) => CallNamesIn(l, descend) + CallNamesList(cs, descend)
    case IfExp(t, a, b) => CallNamesIn(t, descend) + CallNamesIn(a, descend) + CallNamesIn(b, descend)
    case Expr(v) => CallNamesIn(v, descend)
    case Assign(ts, v) => CallNamesList(ts, descend) + CallNamesIn(v, descend)
    case AugAssign(t, _, v) => CallNamesIn(t, descend) + CallNamesIn(v, descend)
    case If(t, b, o) => CallNamesIn(t, descend) + CallNamesList(b, descend) + CallNamesList(o, descend)
    case While(t, b, o) => CallNamesIn(t, descend) + CallNamesList(b, descend) + CallNamesList(o, descend)
    case Continue => {}
    case Break => {}
    case Pass => {}
    case Raise(e, c) => CallNamesOpt(e, descend) + CallNamesOpt(c, descend)
    case Assert(t, m) => CallNamesIn(t, descend) + CallNamesOpt(m, descend)
    case Return(v) => CallNamesOpt(v, descend)
  }

  function CallNamesList(ns: seq<Node>, descend: bool): set<string>
    decreases ns
  {
    if ns == [] then {} else CallNamesIn(ns[0], descend) + CallNamesList(ns[1..], descend)
  }

  function CallNamesKeywords(ks: seq<Keyword>, descend: bool): set<string>
    decreases ks
  {
    if ks == [] then {} else CallNamesKeyword(ks[0], descend) + CallNamesKeywords(ks[1..], descend)
  }

  function CallNamesKeyword(k: Keyword, descend: bool): set<string>
    decreases k
  {
    CallNamesIn(k.kwValue, descend)
  }

  function CallNamesOpt(o: Option<Node>, descend: bool): set<string>
    decreases o
  {
    if o.Some? then CallNamesIn(o.value, descend) else {}
  }

  function CallNamesArgs(ps: seq<Arg>, descend: bool): set<string>
  {
    if ps == [] then {} else CallNamesOpt(ps[0].annotation, descend) + CallNamesArgs(ps[1..], descend)
  }

  /** The names `generic_visit` of a positional-only definition meets: in the
      parameter annotations, the body, the decorators and the return annotation. */
  function DefCalls(f: FunctionDef, descend: bool): set<string>
  {
    CallNamesArgs(f.params.posonlyargs, descend) + CallNamesList(f.body, descend) +
    CallNamesList(f.decorators, descend) + CallNamesOpt(f.returnAnnotation, descend)
  }

  /** Searching call arguments only adds names. */
  lemma {:induction false} CallNamesGrow(n: Node)
    ensures CallNamesIn(n, false) <= CallNamesIn(n, true)
    decreases n, 1
  {
    match n
    case Call(_, _, _) =>
    case Attribute(o, _) => CallNamesGrow(o);
    case BinOp(l, _, r) => CallNamesGrow(l); CallNamesGrow(r);
    case UnaryOp(_, e) => CallNamesGrow(e);
    case BoolOp(_, vs) => CallNamesListGrow(vs);
    case Compare(l, _, cs) => CallNamesGrow(l); CallNamesListGrow(cs);
    case IfExp(t, a, b) => CallNamesGrow(t); CallNamesGrow(a); CallNamesGrow(b);
    case _ => CallNamesGrowStatement(n);
  }

  lemma {:induction false} CallNamesGrowStatement(n: Node)
    requires !(n.Call? || n.Attribute? || n.BinOp? || n.UnaryOp? || n.BoolOp? || n.Compare? || n.IfExp?)
    ensures CallNamesIn(n, false) <= CallNamesIn(n, true)
    decreases n, 0
  {
    match n
    case Expr(v) => CallNamesGrow(v);
    case Assign(ts, v) => CallNamesListGrow(ts); CallNamesGrow(v);
    case AugAssign(t, _, v) => CallNamesGrow(t); CallNamesGrow(v);
    case If(t, b, o) => CallNamesGrow(t); CallNamesListGrow(b); CallNamesListGrow(o);
    case While(t, b, o) => CallNamesGrow(t); CallNamesListGrow(b); CallNamesListGrow(o);
    case Raise(e, c) =>
      if e.Some? { CallNamesGrow(e.value); }
      if c.Some? { CallNamesGrow(c.value); }
    case Assert(t, m) =>
      CallNamesGrow(t);
      if m.Some? { CallNamesGrow(m.value); }
    case Return(v) =>
      if v.Some? { CallNamesGrow(v.value); }
    case _ =>
  }

  lemma {:induction false} CallNamesListGrow(ns: seq<Node>)
    ensures CallNamesList(ns, false) <= CallNamesList(ns, true)
    decreases ns, 0
  {
    if ns != [] {
      CallNamesGrow(ns[0]);
      CallNamesListGrow(ns[1..]);
    }
  }

  /** With `descend`, the name of every call is found, wherever the call sits:
      at the top of a tree and inside the callee, arguments and keyword values
      of an enclosing call. */
  lemma CallNamesComplete(n: Node)
    requires n.Call?
    ensures n.func.Name? ==> n.func.id in CallNamesIn(n, true)
    ensures CallNamesIn(n.func, true) <= CallNamesIn(n, true)
    ensures forall a | a in n.args :: CallNamesIn(a, true) <= CallNamesIn(n, true)
    ensures forall k | k in n.keywords :: CallNamesIn(k.kwValue, true) <= CallNamesIn(n, true)
  {
    forall a | a in n.args ensures CallNamesIn(a, true) <= CallNamesIn(n, true) {
      var i :| 0 <= i < |n.args| && n.args[i] == a;
      ListMember(n.args, i);
    }
    forall k | k in n.keywords ensures CallNamesIn(k.kwValue, true) <= CallNamesIn(n, true) {
      var i :| 0 <= i < |n.keywords| && n.keywords[i] == k;
      KeywordMember(n.keywords, i);
    }
  }

  lemma {:induction false} ListMember(ns: seq<Node>, i: nat)
    requires i < |ns|
    ensures CallNamesIn(ns[i], true) <= CallNamesList(ns, true)
    decreases i
  {
    if i > 0 {
      ListMember(ns[1..], i - 1);
      assert ns[1..][i - 1] == ns[i];
    }
  }

  lemma {:induction false} KeywordMember(ks: seq<Keyword>, i: nat)
    requires i < |ks|
    ensures CallNamesIn(ks[i].kwValue, true) <= CallNamesKeywords(ks, true)
    decreases i
  {
    if i > 0 {
      KeywordMember(ks[1..], i - 1);
      assert ks[1..][i - 1] == ks[i];
    }
  }

  // ---------------------------------------------------------------------------
  // The collector as a fold over the definitions

  /** `target_function_calls` and `teal_functions`. */
  datatype CState = CState(calls: set<string>, functions: map<string, Signature>)

  /** `visit_FunctionDef`: a definition whose name has not been called is ignored;
      otherwise its signature is recorded and then its body scanned for calls. */
  function CollectDef(st: CState, f: FunctionDef, descend: bool): (r: Result<CState, CollectError>)
    ensures f.name !in st.calls ==> r == Success(st)
    ensures f.name in st.calls ==> (r.Success? <==> SignatureOf(f).Success?)
    ensures r.Success? && f.name in st.calls ==>
      r.value.functions == st.functions[f.name := SignatureOf(f).value] &&
      r.value.calls == st.calls + DefCalls(f, descend)
  {
    if f.name !in st.calls then Success(st)
    else
      match SignatureOf(f)
      case Failure(e) => Failure(e)
      case Success(sig) => Success(CState(st.calls + DefCalls(f, descend), st.functions[f.name := sig]))
  }

  /** One pass over the definitions in order, stopping at the first error. */
  function CollectPass(st: CState, defs: seq<FunctionDef>, descend: bool): Result<CState, CollectError>
    decreases |defs|
  {
    if defs == [] then Success(st)
    else
      match CollectDef(st, defs[0], descend)
      case Failure(e) => Failure(e)
      case Success(st1) => CollectPass(st1, defs[1..], descend)
  }

  /** What the driver does: the target's name is the one called name to start
      from, and one pass is made over the definitions. */
  function Collect(target: string, defs: seq<FunctionDef>): Result<CState, CollectError>
  {
    CollectPass(CState({target}, map[]), defs, false)
  }

  /** The collector only adds: called names and names with a recorded signature
      are never removed, and if only called names had a signature before, the
      same holds after. */
  predicate Keeps(st: CState, st': CState)
  {
    st.calls <= st'.calls && st.functions.Keys <= st'.functions.Keys &&
    (st.functions.Keys <= st.calls ==> st'.functions.Keys <= st'.calls)
  }

  lemma {:induction false} CollectPassKeeps(st: CState, defs: seq<FunctionDef>, descend: bool)
    ensures CollectPass(st, defs, descend).Success? ==> Keeps(st, CollectPass(st, defs, descend).value)
    decreases |defs|
  {
    if defs != [] {
      var r := CollectDef(st, defs[0], descend);
      if r.Success? {
        CollectPassKeeps(r.value, defs[1..], descend);
      }
    }
  }

  /** A definition whose name is called when its turn comes has its signature
      recorded and everything it calls added to the called names. */
  lemma {:induction false} CollectPassVisits(st: CState, defs: seq<FunctionDef>, descend: bool, i: nat)
    requires i < |defs| && CollectPass(st, defs, descend).Success?
    requires defs[i].name in st.calls
    ensures var st' := CollectPass(st, defs, descend).value;
      defs[i].name in st'.functions && DefCalls(defs[i], descend) <= st'.calls
    decreases i
  {
    var st1 := CollectDef(st, defs[0], descend).value;
    CollectPassKeeps(st1, defs[1..], descend);
    if i > 0 {
      assert defs[1..][i - 1] == defs[i];
      CollectPassVisits(st1, defs[1..], descend, i - 1);
    }
  }

  /** If the pass succeeds, a name that is never called has no signature. */
  lemma RecordedAreCalled(target: string, defs: seq<FunctionDef>)
    requires Collect(target, defs).Success?
    ensures target in Collect(target, defs).value.calls
    ensures Collect(target, defs).value.functions.Keys <= Collect(target, defs).value.calls
  {
    CollectPassKeeps(CState({target}, map[]), defs, false);
  }

  // ---------------------------------------------------------------------------
  // The driver's order (`transform`): the target first, then the other functions
  // of the module in the order they are listed, which is by name.

  function DriverOrder(target: string, defs: seq<FunctionDef>): seq<FunctionDef>
  {
    Matching(target, defs, true) + Matching(target, defs, false)
  }

  /** The driver only reorders: the same definitions, each as often as listed. */
  lemma DriverOrderPermutes(target: string, defs: seq<FunctionDef>)
    ensures multiset(DriverOrder(target, defs)) == multiset(defs)
  {
    MatchingSplit(target, defs);
  }

  /** The target, when it is among the definitions, comes first. */
  lemma DriverOrderTargetFirst(target: string, defs: seq<FunctionDef>, d: FunctionDef)
    requires d in defs && d.name == target
    ensures |DriverOrder(target, defs)| > 0 && DriverOrder(target, defs)[0].name == target
  {
    var first := Matching(target, defs, true);
    MatchingKeeps(target, defs, true, d);
    assert first[0] in first;
  }

  /** The other definitions keep the order in which they were listed. */
  lemma DriverOrderKeepsOthers(target: string, defs: seq<FunctionDef>)
    ensures Matching(target, DriverOrder(target, defs), false) == Matching(target, defs, false)
  {
    var first := Matching(target, defs, true);
    var rest := Matching(target, defs, false);
    MatchingAppend(target, first, rest, false);
    MatchingAll(target, defs, false);
  }

  /** The definitions named (or not named, when `named` is false) `target`, in order. */
  function Matching(target: string, defs: seq<FunctionDef>, named: bool): (r: seq<FunctionDef>)
    ensures forall d | d in r :: (d.name == target) == named
  {
    if defs == [] then []
    else (if (defs[0].name == target) == named then [defs[0]] else []) + Matching(target, defs[1..], named)
  }

  lemma {:induction false} MatchingSplit(target: string, defs: seq<FunctionDef>)
    ensures multiset(Matching(target, defs, true)) + multiset(Matching(target, defs, false)) == multiset(defs)
  {
    if defs != [] {
      MatchingSplit(target, defs[1..]);
      assert defs == [defs[0]] + defs[1..];
    }
  }

  /** A definition with the wanted name is kept by the filter. */
  lemma {:induction false} MatchingKeeps(target: string, defs: seq<FunctionDef>, named: bool, d: FunctionDef)
    requires d in defs && (d.name == target) == named
    ensures d in Matching(target, defs, named)
  {
    if defs[0] != d {
      assert d in defs[1..];
      MatchingKeeps(target, defs[1..], named, d);
    }
  }

  lemma {:induction false} MatchingAppend(target: string, a: seq<FunctionDef>, b: seq<FunctionDef>, named: bool)
    ensures Matching(target, a + b, named) == Matching(target, a, named) + Matching(target, b, named)
  {
    if a == [] {
      assert a + b == b;
    } else {
      assert (a + b)[0] == a[0] && (a + b)[1..] == a[1..] + b;
      MatchingAppend(target, a[1..], b, named);
    }
  }

  /** Filtering a list already filtered one way keeps all of it, or none of it. */
  lemma {:induction false} MatchingAll(target: string, defs: seq<FunctionDef>, named: bool)
    ensures var m := Matching(target, defs, true);
      Matching(target, m, named) == (if named then m else [])
    ensures var m := Matching(target, defs, false);
      Matching(target, m, named) == (if named then [] else m)
  {
    if defs != [] {
      MatchingAll(target, defs[1..], named);
      var h := if defs[0].name == target then [defs[0]] else [];
      var k := if defs[0].name != target then [defs[0]] else [];
      MatchingAppend(target, h, Matching(target, defs[1..], true), named);
      MatchingAppend(target, k, Matching(target, defs[1..], false), named);
      if h != [] { assert h[1..] == []; }
      if k != [] { assert k[1..] == []; }
    }
  }

  // ---------------------------------------------------------------------------
  // The class

  class Collector {
    /** `target_function_calls`. */
    var calls: set<string>
    /** `teal_functions`. */
    var functions: map<string, Signature>

    function State(): CState
      reads this
    {
      CState(calls, functions)
    }

    constructor ()
      ensures calls == {} && functions == map[]
    {
      calls := {};
      functions := map[];
    }

    /** `visit_Call`: a call to a bare name adds that name; nothing else changes. */
    method VisitCall(n: Node)
      requires n.Call?
      modifies this
      ensures calls == old(calls) + (if n.func.Name? then {n.func.id} else {})
      ensures functions == old(functions)
    {
      if n.func.Name? {
        calls := calls + {n.func.id};
      }
    }

    /** The loop over the positional-only parameters of `visit_FunctionDef`. */
    static method ResolveArguments(name: string, ps: seq<Arg>) returns (r: Result<seq<Param>, CollectError>)
      ensures r == ResolveParams(name, ps)
    {
      var arguments: seq<Param> := [];
      for i := 0 to |ps|
        invariant |arguments| == i
        invariant forall j | 0 <= j < i :: ValidParam(ps[j]) && arguments[j] == Param(ps[j].arg, AnnotationTealType(ps[j].annotation).value)
      {
        var t := AnnotationTealType(ps[i].annotation);
        if t.None? || t.value == NoneType {
          r := Failure(MissingArgumentType(name, ps[i].arg));
          assert !ValidParam(ps[i]);
          var expected := ResolveParams(name, ps);
          var k :| 0 <= k < |ps| && !ValidParam(ps[k]) && (forall j | 0 <= j < k :: ValidParam(ps[j])) &&
            expected.error == MissingArgumentType(name, ps[k].arg);
          assert k == i;
          return;
        }
        arguments := arguments + [Param(ps[i].arg, t.value)];
      }
      r := Success(arguments);
      assert ResolveParams(name, ps).Success?;
      assert ResolveParams(name, ps).value == arguments;
    }

    /** `visit_FunctionDef`: on an error nothing is recorded. */
    method VisitFunctionDef(f: FunctionDef) returns (err: Option<CollectError>)
      modifies this
      ensures var r := CollectDef(old(State()), f, false);
        if r.Success? then err.None? && State() == r.value else err == Some(r.error) && State() == old(State())
    {
      err := None;
      if f.name in calls {
        var ret := AnnotationTealType(f.returnAnnotation);
        if ret.None? {
          return Some(MissingReturnType(f.name));
        }
        if !PositionalOnly(f.params) {
          return Some(UnsupportedSignature(f.name));
        }
        var arguments := ResolveArguments(f.name, f.params.posonlyargs);
        if arguments.Failure? {
          return Some(arguments.error);
        }
        functions := functions[f.name := Signature(arguments.value, ret.value)];
        calls := calls + DefCalls(f, false);
      }
    }

    /** The driver's single pass: every definition in turn, stopping at the first error. */
    method VisitAll(defs: seq<FunctionDef>) returns (err: Option<CollectError>)
      modifies this
      ensures var r := CollectPass(old(State()), defs, false);
        if r.Success? then err.None? && State() == r.value else err == Some(r.error)
    {
      ghost var start := State();
      for i := 0 to |defs|
        invariant CollectPass(start, defs, false) == CollectPass(State(), defs[i..], false)
      {
        assert defs[i..][0] == defs[i] && defs[i..][1..] == defs[i + 1..];
        err := VisitFunctionDef(defs[i]);
        if err.Some? {
          return;
        }
      }
      err := None;
    }
  }

  /** `transform`'s use of the collector: a fresh collector, the target as the one
      called name, one pass over the definitions in driver order. */
  method RunCollector(target: string, defs: seq<FunctionDef>) returns (c: Collector, err: Option<CollectError>)
    ensures fresh(c)
    ensures var r := Collect(target, DriverOrder(target, defs));
      if r.Success? then err.None? && c.State() == r.value else err == Some(r.error)
  {
    c := new Collector();
    c.calls := c.calls + {target};
    assert c.State() == CState({target}, map[]);
    err := c.VisitAll(DriverOrder(target, defs));
  }
}
