/**
 * Two ways the collector's single pass misses a function the target reaches,
 * each shown on a small module, and the collection that does reach every
 * called function: it searches inside call arguments and repeats the pass
 * until no new name is called.
 */
module Reachability {
  import opened Wrappers
  import opened PyAst
  import opened Container
  import opened Visitor

  const NoParams := Arguments([], [], None, [], [], None, [])
  const IntAnnotation := Some(Name("int", Load))

  /** `name()` with no arguments. */
  function CallTo(name: string): Node
  {
    Call(Name(name, Load), [], [])
  }

  // ---------------------------------------------------------------------------
  // A call inside another call's arguments is not seen.

  /** `return f(g())` calls `g`, but only `f` is collected as written; searching the
      arguments finds both. */
  lemma NestedCallMissed()
    ensures var n := Return(Some(Call(Name("f", Load), [CallTo("g")], [])));
      CallNamesIn(n, false) == {"f"} && CallNamesIn(n, true) == {"f", "g"}
  {
    var inner := CallTo("g");
    assert CallNamesIn(inner, true) == {"g"} by {
      assert CallNamesIn(Name("g", Load), true) == {};
    }
    assert CallNamesList([inner], true) == {"g"} by {
      assert [inner][1..] == [];
    }
  }

  // ---------------------------------------------------------------------------
  // A function called only by one listed after it is not recorded.

  /** `def main() -> int: return b()`. */
  const Main := FunctionDef("main", NoParams, [Return(Some(CallTo("b")))], [], IntAnnotation)
  /** `def a() -> int: return 1`. */
  const A := FunctionDef("a", NoParams, [Return(Some(Constant(IntConst(1))))], [], IntAnnotation)
  /** `def b() -> int: return a()`. */
  const B := FunctionDef("b", NoParams, [Return(Some(CallTo("a")))], [], IntAnnotation)

  lemma CallToCalls(name: string, descend: bool)
    ensures CallNamesIn(CallTo(name), descend) == {name}
  {
    assert CallNamesIn(Name(name, Load), descend) == {};
    assert CallNamesList([], descend) == {} && CallNamesKeywords([], descend) == {};
  }

  /** What a definition of the shape `def name() -> int: return e` calls. */
  lemma ReturnOnlyCalls(name: string, e: Node, descend: bool)
    ensures DefCalls(FunctionDef(name, NoParams, [Return(Some(e))], [], IntAnnotation), descend) ==
      CallNamesIn(e, descend)
  {
    var body := [Return(Some(e))];
    assert body[1..] == [];
    assert CallNamesIn(body[0], descend) == CallNamesOpt(Some(e), descend) == CallNamesIn(e, descend);
    assert CallNamesList(body, descend) == CallNamesIn(e, descend);
    assert CallNamesOpt(IntAnnotation, descend) == {};
  }

  lemma ExampleCalls(descend: bool)
    ensures DefCalls(Main, descend) == {"b"} && DefCalls(A, descend) == {} && DefCalls(B, descend) == {"a"}
  {
    CallToCalls("a", descend);
    CallToCalls("b", descend);
    ReturnOnlyCalls("main", CallTo("b"), descend);
    ReturnOnlyCalls("a", Constant(IntConst(1)), descend);
    ReturnOnlyCalls("b", CallTo("a"), descend);
  }

  lemma ExampleSignatures()
    ensures SignatureOf(Main) == Success(Signature([], Uint64)) && SignatureOf(A) == Success(Signature([], Uint64))
    ensures SignatureOf(B) == Success(Signature([], Uint64))
  {
  }

  /** The module lists `a`, `b`, `main` by name; the driver starts from `main`. */
  lemma ExampleOrder()
    ensures DriverOrder("main", [A, B, Main]) == [Main, A, B]
  {
    LastMatches("main", A, B, Main);
  }

  /** Three definitions of which only the last is the target. */
  lemma LastMatches(target: string, x: FunctionDef, y: FunctionDef, z: FunctionDef)
    requires x.name != target && y.name != target && z.name == target
    ensures DriverOrder(target, [x, y, z]) == [z, x, y]
  {
    LastMatchesNamed(target, x, y, z);
    LastMatchesOthers(target, x, y, z);
    assert [z] + [x, y] == [z, x, y];
  }

  lemma LastMatchesNamed(target: string, x: FunctionDef, y: FunctionDef, z: FunctionDef)
    requires x.name != target && y.name != target && z.name == target
    ensures Matching(target, [x, y, z], true) == [z]
  {
    assert [x, y, z] == [x] + ([y] + [z]);
    MatchingAppend(target, [x], [y] + [z], true);
    MatchingAppend(target, [y], [z], true);
    MatchingSingle(target, x, true);
    MatchingSingle(target, y, true);
    MatchingSingle(target, z, true);
  }

  lemma LastMatchesOthers(target: string, x: FunctionDef, y: FunctionDef, z: FunctionDef)
    requires x.name != target && y.name != target && z.name == target
    ensures Matching(target, [x, y, z], false) == [x, y]
  {
    assert [x, y, z] == [x] + ([y] + [z]);
    MatchingAppend(target, [x], [y] + [z], false);
    MatchingAppend(target, [y], [z], false);
    MatchingSingle(target, x, false);
    MatchingSingle(target, y, false);
    MatchingSingle(target, z, false);
    assert [x] + ([y] + []) == [x, y];
  }

  lemma MatchingSingle(target: string, d: FunctionDef, named: bool)
    ensures Matching(target, [d], named) == (if (d.name == target) == named then [d] else [])
  {
    assert [d][1..] == [];
  }

  /** In the module `a`, `b`, `main`, with `main` the target: the driver visits
      `main`, `a`, `b`; `a` is skipped because nothing has called it yet, and only
      `b`, visited last, calls it. So `a` is among the called names (its definition
      is passed on to the lowering) but has no signature, which the lowering of a
      function other than the target needs. */
  lemma SinglePassMissesCallee()
    ensures DriverOrder("main", [A, B, Main]) == [Main, A, B]
    ensures var r := Collect("main", [Main, A, B]);
      r.Success? && "a" in r.value.calls && "a" !in r.value.functions
  {
    ExampleOrder();
    ExampleCalls(false);
    ExampleSignatures();
    var s0 := CState({"main"}, map[]);
    var r1 := CollectDef(s0, Main, false);
    assert r1.Success? && r1.value.calls == {"main", "b"} && r1.value.functions.Keys == {"main"};
    var s1 := r1.value;
    assert CollectDef(s1, A, false) == Success(s1);
    var r3 := CollectDef(s1, B, false);
    assert r3.Success? && "a" in r3.value.calls && r3.value.functions.Keys == {"main", "b"};
    var s3 := r3.value;
    assert CollectPass(s1, [B], false) == CollectPass(s3, [], false) == Success(s3) by {
      assert [B][1..] == [];
    }
    assert CollectPass(s1, [A, B], false) == Success(s3) by {
      assert [A, B][1..] == [B];
    }
    assert CollectPass(s0, [Main, A, B], false) == Success(s3) by {
      assert [Main, A, B][1..] == [A, B];
    }
  }

  // ---------------------------------------------------------------------------
  // Collection to a fixpoint

  /** Every name any definition calls. */
  function AllCalls(defs: seq<FunctionDef>): set<string>
  {
    if defs == [] then {} else DefCalls(defs[0], true) + AllCalls(defs[1..])
  }

  /** The called names stay among the target and the names some definition calls. */
  lemma {:induction false} CollectPassBounded(st: CState, defs: seq<FunctionDef>, universe: set<string>)
    requires st.calls <= universe && AllCalls(defs) <= universe
    ensures CollectPass(st, defs, true).Success? ==> CollectPass(st, defs, true).value.calls <= universe
    decreases |defs|
  {
    if defs != [] {
      var r := CollectDef(st, defs[0], true);
      if r.Success? {
        CollectPassBounded(r.value, defs[1..], universe);
      }
    }
  }

  /** Passes over all definitions, searching call arguments, until a pass adds no
      called name. Each further pass adds a name from a finite set, so this ends. */
  function Fixpoint(st: CState, defs: seq<FunctionDef>, universe: set<string>): Result<CState, CollectError>
    requires st.calls <= universe && AllCalls(defs) <= universe
    decreases |universe - st.calls|
  {
    var r := CollectPass(st, defs, true);
    if r.Failure? || r.value.calls == st.calls then r
    else
      CollectPassBounded(st, defs, universe);
      CollectPassKeeps(st, defs, true);
      Shrinks(universe, st.calls, r.value.calls);
      Fixpoint(r.value, defs, universe)
  }

  /** Adding called names within the universe leaves fewer to add. */
  lemma Shrinks(universe: set<string>, small: set<string>, big: set<string>)
    requires small <= big <= universe && small != big
    ensures |universe - big| < |universe - small|
  {
    var x :| x in big && x !in small;
    assert universe - big <= (universe - small) - {x};
    Fewer(universe - big, (universe - small) - {x});
  }

  lemma {:induction false} Fewer(a: set<string>, b: set<string>)
    requires a <= b
    ensures |a| <= |b|
    decreases a
  {
    if a != {} {
      var x :| x in a;
      Fewer(a - {x}, b - {x});
    }
  }

  function CollectFixpoint(target: string, defs: seq<FunctionDef>): Result<CState, CollectError>
  {
    Fixpoint(CState({target}, map[]), defs, {target} + AllCalls(defs))
  }

  /** The result is closed under calling: every definition whose name is called has
      a signature, and everything it calls is called too. */
  lemma {:induction false} FixpointClosed(st: CState, defs: seq<FunctionDef>, universe: set<string>)
    requires st.calls <= universe && AllCalls(defs) <= universe
    ensures var r := Fixpoint(st, defs, universe);
      r.Success? ==> (st.calls <= r.value.calls &&
        forall i | 0 <= i < |defs| && defs[i].name in r.value.calls ::
          defs[i].name in r.value.functions && DefCalls(defs[i], true) <= r.value.calls)
    decreases |universe - st.calls|
  {
    var r := CollectPass(st, defs, true);
    if r.Success? {
      CollectPassKeeps(st, defs, true);
      if r.value.calls == st.calls {
        forall i | 0 <= i < |defs| && defs[i].name in r.value.calls
          ensures defs[i].name in r.value.functions && DefCalls(defs[i], true) <= r.value.calls
        {
          CollectPassVisits(st, defs, true, i);
        }
      } else {
        CollectPassBounded(st, defs, universe);
        Shrinks(universe, st.calls, r.value.calls);
        FixpointClosed(r.value, defs, universe);
      }
    }
  }

  /** No pass records a signature for a name that is not called. */
  lemma {:induction false} FixpointRecordsOnlyCalled(st: CState, defs: seq<FunctionDef>, universe: set<string>)
    requires st.calls <= universe && AllCalls(defs) <= universe
    requires st.functions.Keys <= st.calls
    ensures var r := Fixpoint(st, defs, universe);
      r.Success? ==> r.value.functions.Keys <= r.value.calls
    decreases |universe - st.calls|
  {
    var r := CollectPass(st, defs, true);
    if r.Success? {
      CollectPassKeeps(st, defs, true);
      if r.value.calls != st.calls {
        CollectPassBounded(st, defs, universe);
        Shrinks(universe, st.calls, r.value.calls);
        FixpointRecordsOnlyCalled(r.value, defs, universe);
      }
    }
  }

  /** Collection to a fixpoint records every function the target reaches, whatever
      the order of the definitions: the target is called, and the called names are
      closed under the calls of the called definitions. */
  lemma CollectFixpointClosed(target: string, defs: seq<FunctionDef>)
    ensures var r := CollectFixpoint(target, defs);
      r.Success? ==> (target in r.value.calls &&
        forall i | 0 <= i < |defs| && defs[i].name in r.value.calls ::
          defs[i].name in r.value.functions && DefCalls(defs[i], true) <= r.value.calls)
    ensures var r := CollectFixpoint(target, defs);
      r.Success? ==> r.value.functions.Keys <= r.value.calls
  {
    FixpointClosed(CState({target}, map[]), defs, {target} + AllCalls(defs));
    FixpointRecordsOnlyCalled(CState({target}, map[]), defs, {target} + AllCalls(defs));
  }

  /** On the module above, the fixpoint records `a`. */
  lemma FixpointRecordsCallee()
    ensures var r := CollectFixpoint("main", [Main, A, B]);
      r.Success? && "a" in r.value.functions
  {
    var defs := [Main, A, B];
    ExampleCalls(true);
    ExampleSignatures();
    var r := CollectFixpoint("main", defs);
    CollectFixpointClosed("main", defs);
    assert r.Success? by {
      // no definition can fail: every signature is valid
      FixpointSucceeds(CState({"main"}, map[]), defs, {"main"} + AllCalls(defs));
    }
    assert defs[0] == Main && defs[2] == B && defs[1] == A;
    assert "b" in r.value.calls;
    assert "a" in r.value.calls;
  }

  /** When every definition has a valid signature, no pass fails. */
  lemma {:induction false} FixpointSucceeds(st: CState, defs: seq<FunctionDef>, universe: set<string>)
    requires st.calls <= universe && AllCalls(defs) <= universe
    requires forall i | 0 <= i < |defs| :: SignatureOf(defs[i]).Success?
    ensures Fixpoint(st, defs, universe).Success?
    decreases |universe - st.calls|
  {
    PassSucceeds(st, defs);
    var r := CollectPass(st, defs, true);
    if r.value.calls != st.calls {
      CollectPassBounded(st, defs, universe);
      CollectPassKeeps(st, defs, true);
      Shrinks(universe, st.calls, r.value.calls);
      FixpointSucceeds(r.value, defs, universe);
    }
  }

  lemma {:induction false} PassSucceeds(st: CState, defs: seq<FunctionDef>)
    requires forall i | 0 <= i < |defs| :: SignatureOf(defs[i]).Success?
    ensures CollectPass(st, defs, true).Success?
    decreases |defs|
  {
    if defs != [] {
      assert SignatureOf(defs[0]).Success?;
      PassSucceeds(CollectDef(st, defs[0], true).value, defs[1..]);
    }
  }
}
