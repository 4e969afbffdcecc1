/**
 * The tree helpers shared by both passes: resolving a type annotation,
 * reading the literal out of a `Bytes(...)` call, and building the
 * `If(...).Then(...).ElseIf(...).Then(...).Else(...)` chain for a conditional.
 */
module Utility {
  import opened Wrappers
  import opened PyAst

  /** `annotation_teal_type`: `None` is the void type, `int` and `bool` are
      integers, `str` is a byte string; nothing else (not even `bytes`) resolves. */
  function AnnotationTealType(a: Option<Node>): (t: Option<TealType>)
    ensures t == Some(NoneType) <==> a == Some(Constant(NoneConst))
    ensures t == Some(Uint64) <==> a.Some? && a.value.Name? && (a.value.id == "int" || a.value.id == "bool")
    ensures t == Some(Bytes) <==> a.Some? && a.value.Name? && a.value.id == "str"
    ensures t != Some(AnyType)
    ensures t.Some? ==> a.Some? && !a.value.Call?
  {
    if a.Some? && a.value == Constant(NoneConst) then Some(NoneType)
    else if a.Some? && a.value.Name? then
      if a.value.id == "int" || a.value.id == "bool" then Some(Uint64)
      else if a.value.id == "str" then Some(Bytes)
      else None
    else None
  }

  /** `bytes_value`: the first argument of a `Bytes(...)` call, and nothing for any other node. */
  function BytesValue(item: Option<Node>): (r: Option<Node>)
    ensures r.Some? <==> item.Some? && IsCallTo(item.value, "Bytes") && item.value.args != []
    ensures r.Some? ==> r.value == item.value.args[0]
  {
    if item.Some? && IsCallTo(item.value, "Bytes") && item.value.args != [] then Some(item.value.args[0])
    else None
  }

  /** A field that holds either one node (in `IfExp`) or a list of them (in `If`). */
  datatype NodeOrList = One(node: Node) | Many(nodes: seq<Node>)

  /** `_ensure_list`: a single node becomes a one-element list; a list is kept as it is. */
  function EnsureList(x: NodeOrList): (r: seq<Node>)
    ensures x.One? ==> r == [x.node]
    ensures x.Many? ==> r == x.nodes
  {
    match x
    case One(n) => [n]
    case Many(ns) => ns
  }

  function CondBody(n: Node): NodeOrList
    requires IsConditional(n)
  {
    if n.If? then Many(n.body) else One(n.thenExpr)
  }

  function CondOrelse(n: Node): NodeOrList
    requires IsConditional(n)
  {
    if n.If? then Many(n.orelse) else One(n.elseExpr)
  }

  lemma OrelseSmaller(n: Node)
    requires IsConditional(n)
    ensures SizeList(EnsureList(CondOrelse(n))) < Size(n)
    ensures IfCountList(EnsureList(CondOrelse(n))) + IfCount(n.test) + IfCountList(EnsureList(CondBody(n))) < IfCount(n)
  {
    if n.IfExp? {
      assert EnsureList(CondOrelse(n))[1..] == [];
      assert EnsureList(CondBody(n))[1..] == [];
    }
  }

  // ---------------------------------------------------------------------------
  // transform_if

  /** `transform_if`: the head `If(test).Then(*body)` (or `prev.ElseIf(test).Then(*body)`
      when extending a chain), extended by the items of `orelse`, then closed by
      `.Else(...)` over the non-conditional items when there are any. */
  function TransformIf(n: Node, prev: Option<Node>): (r: Node)
    requires IsConditional(n)
    ensures r.Call? && r.func.Attribute?
    decreases Size(n), 1
  {
    var head := ChainHead(prev, n.test, EnsureList(CondBody(n)));
    OrelseSmaller(n);
    var (chain, elseArgs) := ChainOrelse(EnsureList(CondOrelse(n)), head, []);
    if elseArgs != [] then CallMethod(chain, "Else", elseArgs) else chain
  }

  /** `If(test).Then(*body)`, or `prev.ElseIf(test).Then(*body)` when extending `prev`. */
  function ChainHead(prev: Option<Node>, test: Node, body: seq<Node>): Node
  {
    var func := if prev.None? then CreateName("If") else Attribute(prev.value, "ElseIf");
    CallMethod(Call(func, [test], []), "Then", body)
  }

  /** The loop over `orelse`: each conditional item extends the chain (recursively),
      every other item is collected for the closing `.Else(...)`. */
  function ChainOrelse(items: seq<Node>, ifNode: Node, elseArgs: seq<Node>): (r: (Node, seq<Node>))
    ensures ifNode.Call? && ifNode.func.Attribute? ==> r.0.Call? && r.0.func.Attribute?
    decreases SizeList(items), 0
  {
    if items == [] then (ifNode, elseArgs)
    else if IsConditional(items[0]) then ChainOrelse(items[1..], TransformIf(items[0], Some(ifNode)), elseArgs)
    else ChainOrelse(items[1..], ifNode, elseArgs + [items[0]])
  }

  // ---------------------------------------------------------------------------
  // What a chain means: its links, read off the conditional directly.

  datatype Link = IfLink(test: Node, body: seq<Node>) | ElseIfLink(test: Node, body: seq<Node>) | ElseLink(body: seq<Node>)

  /** The non-conditional items of a list, in order. */
  function NonConditional(items: seq<Node>): (r: seq<Node>)
    ensures forall x | x in r :: x in items && !IsConditional(x)
    ensures |r| <= |items|
  {
    if items == [] then []
    else (if IsConditional(items[0]) then [] else [items[0]]) + NonConditional(items[1..])
  }

  /** The links a conditional stands for: its own test and body, then its `orelse`. */
  function Links(n: Node): seq<Link>
    requires IsConditional(n)
    decreases Size(n), 1
  {
    OrelseSmaller(n);
    [IfLink(n.test, EnsureList(CondBody(n)))] + OrelseLinks(EnsureList(CondOrelse(n)))
  }

  /** An `orelse` list: every conditional in it in turn as an `ElseIf` with its own
      `orelse`, then one `Else` over the other items if there are any. */
  function OrelseLinks(items: seq<Node>): seq<Link>
    decreases SizeList(items), 3
  {
    var rest := NonConditional(items);
    CondLinks(items) + (if rest == [] then [] else [ElseLink(rest)])
  }

  function CondLinks(items: seq<Node>): seq<Link>
    decreases SizeList(items), 2
  {
    if items == [] then []
    else if IsConditional(items[0]) then
      OrelseSmaller(items[0]);
      [ElseIfLink(items[0].test, EnsureList(CondBody(items[0])))] + OrelseLinks(EnsureList(CondOrelse(items[0]))) + CondLinks(items[1..])
    else CondLinks(items[1..])
  }

  /** Reads a builder chain back into its links (the inverse of building it). */
  function Decode(n: Node): seq<Link>
    decreases n
  {
    if n.Call? && n.func.Attribute? && n.func.attr == "Then" && n.func.obj.Call? && |n.func.obj.args| == 1 then
      var head := n.func.obj;
      if head.func == CreateName("If") then [IfLink(head.args[0], n.args)]
      else if head.func.Attribute? && head.func.attr == "ElseIf" then Decode(head.func.obj) + [ElseIfLink(head.args[0], n.args)]
      else []
    else if n.Call? && n.func.Attribute? && n.func.attr == "Else" then Decode(n.func.obj) + [ElseLink(n.args)]
    else []
  }

  /** The chain built for a conditional decodes to exactly the conditional's links:
      the tests, bodies and else items are the given nodes, unaltered and in source order. */
  lemma {:induction false} TransformIfRoundTrip(n: Node)
    requires IsConditional(n)
    ensures Decode(TransformIf(n, None)) == Links(n)
  {
    TransformIfDecode(n, None);
  }

  lemma {:induction false} TransformIfDecode(n: Node, prev: Option<Node>)
    requires IsConditional(n)
    ensures Decode(TransformIf(n, prev)) ==
      (if prev.None? then [IfLink(n.test, EnsureList(CondBody(n)))]
       else Decode(prev.value) + [ElseIfLink(n.test, EnsureList(CondBody(n)))])
      + OrelseLinks(EnsureList(CondOrelse(n)))
    decreases Size(n), 1
  {
    var body := EnsureList(CondBody(n));
    var head := ChainHead(prev, n.test, body);
    OrelseSmaller(n);
    var items := EnsureList(CondOrelse(n));
    ChainOrelseDecode(items, head, []);
    var (chain, elseArgs) := ChainOrelse(items, head, []);
    var h := Decode(head);
    var cl := CondLinks(items);
    assert elseArgs == NonConditional(items) by {
      assert [] + NonConditional(items) == NonConditional(items);
    }
    assert Decode(chain) == h + cl;
    if elseArgs != [] {
      DecodeElse(chain, elseArgs);
      assert (h + cl) + [ElseLink(elseArgs)] == h + (cl + [ElseLink(elseArgs)]);
    } else {
      assert cl + [] == cl;
    }
    DecodeHead(prev, n.test, body);
  }

  lemma DecodeHead(prev: Option<Node>, test: Node, body: seq<Node>)
    ensures Decode(ChainHead(prev, test, body)) ==
      if prev.None? then [IfLink(test, body)] else Decode(prev.value) + [ElseIfLink(test, body)]
  {
  }

  lemma DecodeElse(chain: Node, args: seq<Node>)
    ensures Decode(CallMethod(chain, "Else", args)) == Decode(chain) + [ElseLink(args)]
  {
  }

  lemma {:induction false} ChainOrelseDecode(items: seq<Node>, ifNode: Node, elseArgs: seq<Node>)
    ensures Decode(ChainOrelse(items, ifNode, elseArgs).0) == Decode(ifNode) + CondLinks(items)
    ensures ChainOrelse(items, ifNode, elseArgs).1 == elseArgs + NonConditional(items)
    decreases SizeList(items), 0
  {
    if items == [] {
    } else if IsConditional(items[0]) {
      ChainOrelseDecodeConditional(items, ifNode, elseArgs);
    } else {
      ChainOrelseDecodeOther(items, ifNode, elseArgs);
    }
  }

  lemma {:induction false} ChainOrelseDecodeOther(items: seq<Node>, ifNode: Node, elseArgs: seq<Node>)
    requires items != [] && !IsConditional(items[0])
    ensures Decode(ChainOrelse(items, ifNode, elseArgs).0) == Decode(ifNode) + CondLinks(items)
    ensures ChainOrelse(items, ifNode, elseArgs).1 == elseArgs + NonConditional(items)
    decreases SizeList(items), 0, 0
  {
    var x := items[0];
    assert ChainOrelse(items, ifNode, elseArgs) == ChainOrelse(items[1..], ifNode, elseArgs + [x]);
    ChainOrelseDecode(items[1..], ifNode, elseArgs + [x]);
    assert NonConditional(items) == [x] + NonConditional(items[1..]);
    assert (elseArgs + [x]) + NonConditional(items[1..]) == elseArgs + ([x] + NonConditional(items[1..]));
    assert CondLinks(items) == CondLinks(items[1..]);
  }

  lemma {:induction false} ChainOrelseDecodeConditional(items: seq<Node>, ifNode: Node, elseArgs: seq<Node>)
    requires items != [] && IsConditional(items[0])
    ensures Decode(ChainOrelse(items, ifNode, elseArgs).0) == Decode(ifNode) + CondLinks(items)
    ensures ChainOrelse(items, ifNode, elseArgs).1 == elseArgs + NonConditional(items)
    decreases SizeList(items), 0, 0
  {
    var x := items[0];
    var next := TransformIf(x, Some(ifNode));
    var link := ElseIfLink(x.test, EnsureList(CondBody(x)));
    OrelseSmaller(x);
    var sub := OrelseLinks(EnsureList(CondOrelse(x)));
    var r := ChainOrelse(items[1..], next, elseArgs);
    assert ChainOrelse(items, ifNode, elseArgs) == r;
    var d := Decode(ifNode);
    assert Decode(next) == d + [link] + sub by {
      TransformIfDecode(x, Some(ifNode));
    }
    var tail := CondLinks(items[1..]);
    assert Decode(r.0) == d + [link] + sub + tail && r.1 == elseArgs + NonConditional(items[1..]) by {
      ChainOrelseDecode(items[1..], next, elseArgs);
    }
    assert NonConditional(items) == NonConditional(items[1..]);
    assert CondLinks(items) == [link] + sub + tail;
    SeqAssoc4(d, [link], sub, tail);
  }

  lemma SeqAssoc4<T>(a: seq<T>, b: seq<T>, c: seq<T>, d: seq<T>)
    ensures a + b + c + d == a + (b + c + d)
  {
  }




  // ---------------------------------------------------------------------------
  // What building a chain preserves: it removes at least one conditional, and it
  // keeps assignments out of single-node fields and out of assignment-free trees.

  predicate AllSpliceSafe(ns: seq<Node>)
  {
    forall x | x in ns :: SpliceSafe(x)
  }

  predicate AllNoAssign(ns: seq<Node>)
  {
    forall x | x in ns :: NoAssign(x)
  }

  lemma ChainHeadFacts(prev: Option<Node>, test: Node, body: seq<Node>)
    ensures IfCount(ChainHead(prev, test, body)) == IfCountOpt(prev) + IfCount(test) + IfCountList(body)
    ensures SingleSafe(test) && AllSpliceSafe(body) && (prev.Some? ==> SingleSafe(prev.value))
      ==> SingleSafe(ChainHead(prev, test, body))
    ensures NoAssign(test) && AllNoAssign(body) && (prev.Some? ==> NoAssign(prev.value))
      ==> NoAssign(ChainHead(prev, test, body))
  {
    ChainHeadCount(prev, test, body);
    ChainHeadSafe(prev, test, body);
    ChainHeadNoAssign(prev, test, body);
  }

  lemma ChainHeadCount(prev: Option<Node>, test: Node, body: seq<Node>)
    ensures IfCount(ChainHead(prev, test, body)) == IfCountOpt(prev) + IfCount(test) + IfCountList(body)
  {
    assert IfCountList([test]) == IfCount(test) + IfCountList([test][1..]);
    assert [test][1..] == [];
    assert IfCountKeywords([]) == 0;
    var func := if prev.None? then CreateName("If") else Attribute(prev.value, "ElseIf");
    assert IfCount(func) == IfCountOpt(prev);
    var inner := Call(func, [test], []);
    assert IfCount(inner) == IfCount(func) + IfCount(test);
    assert ChainHead(prev, test, body) == Call(Attribute(inner, "Then"), body, []);
  }

  lemma ChainHeadSafe(prev: Option<Node>, test: Node, body: seq<Node>)
    ensures SingleSafe(test) && AllSpliceSafe(body) && (prev.Some? ==> SingleSafe(prev.value))
      ==> SingleSafe(ChainHead(prev, test, body))
  {
    var func := if prev.None? then CreateName("If") else Attribute(prev.value, "ElseIf");
    var inner := Call(func, [test], []);
    assert ChainHead(prev, test, body) == Call(Attribute(inner, "Then"), body, []);
    if SingleSafe(test) && (prev.Some? ==> SingleSafe(prev.value)) {
      assert SingleSafe(func);
      assert SingleSafe(inner);
      assert SingleSafe(Attribute(inner, "Then"));
    }
  }

  lemma ChainHeadNoAssign(prev: Option<Node>, test: Node, body: seq<Node>)
    ensures NoAssign(test) && AllNoAssign(body) && (prev.Some? ==> NoAssign(prev.value))
      ==> NoAssign(ChainHead(prev, test, body))
  {
    var func := if prev.None? then CreateName("If") else Attribute(prev.value, "ElseIf");
    var inner := Call(func, [test], []);
    assert ChainHead(prev, test, body) == Call(Attribute(inner, "Then"), body, []);
    assert NoAssign(test) && (prev.Some? ==> NoAssign(prev.value)) ==> NoAssign(inner);
  }

  lemma {:induction false} TransformIfPreserves(n: Node, prev: Option<Node>)
    requires IsConditional(n)
    ensures IfCount(TransformIf(n, prev)) < IfCountOpt(prev) + IfCount(n)
    ensures SpliceSafe(n) && (prev.Some? ==> SingleSafe(prev.value)) ==> SingleSafe(TransformIf(n, prev))
    ensures NoAssign(n) && (prev.Some? ==> NoAssign(prev.value)) ==> NoAssign(TransformIf(n, prev))
    decreases Size(n), 1
  {
    var body := EnsureList(CondBody(n));
    var head := ChainHead(prev, n.test, body);
    OrelseSmaller(n);
    var items := EnsureList(CondOrelse(n));
    var r := ChainOrelse(items, head, []);
    ChainHeadFacts(prev, n.test, body);
    ChainOrelsePreserves(items, head, []);
    CondParts(n);
    if r.1 != [] {
      ElseFacts(r.0, r.1);
    }
  }

  /** Closing a chain with `.Else(*args)` adds the arguments' conditionals and keeps the chain well formed. */
  lemma ElseFacts(chain: Node, args: seq<Node>)
    ensures IfCount(CallMethod(chain, "Else", args)) == IfCount(chain) + IfCountList(args)
    ensures SingleSafe(chain) && AllSpliceSafe(args) ==> SingleSafe(CallMethod(chain, "Else", args))
    ensures NoAssign(chain) && AllNoAssign(args) ==> NoAssign(CallMethod(chain, "Else", args))
  {
    assert IfCountKeywords([]) == 0;
    if SingleSafe(chain) {
      assert SingleSafe(Attribute(chain, "Else"));
    }
  }

  lemma CondParts(n: Node)
    requires IsConditional(n)
    ensures SpliceSafe(n) ==>
      SingleSafe(n.test) && AllSpliceSafe(EnsureList(CondBody(n))) && AllSpliceSafe(EnsureList(CondOrelse(n)))
    ensures NoAssign(n) ==>
      NoAssign(n.test) && AllNoAssign(EnsureList(CondBody(n))) && AllNoAssign(EnsureList(CondOrelse(n)))
  {
    if n.IfExp? {
      assert EnsureList(CondBody(n)) == [n.thenExpr] && EnsureList(CondOrelse(n)) == [n.elseExpr];
      if SpliceSafe(n) {
        assert SingleSafe(n.thenExpr) && SingleSafe(n.elseExpr);
      }
    }
  }

  lemma {:induction false} ChainOrelsePreserves(items: seq<Node>, ifNode: Node, elseArgs: seq<Node>)
    ensures var r := ChainOrelse(items, ifNode, elseArgs);
      IfCount(r.0) + IfCountList(r.1) <= IfCount(ifNode) + IfCountList(elseArgs) + IfCountList(items)
    ensures var r := ChainOrelse(items, ifNode, elseArgs);
      SingleSafe(ifNode) && AllSpliceSafe(elseArgs) && AllSpliceSafe(items) ==> SingleSafe(r.0) && AllSpliceSafe(r.1)
    ensures var r := ChainOrelse(items, ifNode, elseArgs);
      NoAssign(ifNode) && AllNoAssign(elseArgs) && AllNoAssign(items) ==> NoAssign(r.0) && AllNoAssign(r.1)
    decreases SizeList(items), 0
  {
    if items == [] {
    } else if IsConditional(items[0]) {
      ChainOrelsePreservesConditional(items, ifNode, elseArgs);
    } else {
      ChainOrelsePreservesOther(items, ifNode, elseArgs);
    }
  }

  lemma {:induction false} ChainOrelsePreservesConditional(items: seq<Node>, ifNode: Node, elseArgs: seq<Node>)
    requires items != [] && IsConditional(items[0])
    ensures var r := ChainOrelse(items, ifNode, elseArgs);
      IfCount(r.0) + IfCountList(r.1) <= IfCount(ifNode) + IfCountList(elseArgs) + IfCountList(items)
    ensures var r := ChainOrelse(items, ifNode, elseArgs);
      SingleSafe(ifNode) && AllSpliceSafe(elseArgs) && AllSpliceSafe(items) ==> SingleSafe(r.0) && AllSpliceSafe(r.1)
    ensures var r := ChainOrelse(items, ifNode, elseArgs);
      NoAssign(ifNode) && AllNoAssign(elseArgs) && AllNoAssign(items) ==> NoAssign(r.0) && AllNoAssign(r.1)
    decreases SizeList(items), 0, 0
  {
    var x := items[0];
    var next := TransformIf(x, Some(ifNode));
    assert ChainOrelse(items, ifNode, elseArgs) == ChainOrelse(items[1..], next, elseArgs);
    assert IfCount(next) < IfCount(ifNode) + IfCount(x)
      && (SpliceSafe(x) && SingleSafe(ifNode) ==> SingleSafe(next))
      && (NoAssign(x) && NoAssign(ifNode) ==> NoAssign(next)) by {
      TransformIfPreserves(x, Some(ifNode));
    }
    ChainOrelsePreserves(items[1..], next, elseArgs);
  }

  lemma {:induction false} ChainOrelsePreservesOther(items: seq<Node>, ifNode: Node, elseArgs: seq<Node>)
    requires items != [] && !IsConditional(items[0])
    ensures var r := ChainOrelse(items, ifNode, elseArgs);
      IfCount(r.0) + IfCountList(r.1) <= IfCount(ifNode) + IfCountList(elseArgs) + IfCountList(items)
    ensures var r := ChainOrelse(items, ifNode, elseArgs);
      SingleSafe(ifNode) && AllSpliceSafe(elseArgs) && AllSpliceSafe(items) ==> SingleSafe(r.0) && AllSpliceSafe(r.1)
    ensures var r := ChainOrelse(items, ifNode, elseArgs);
      NoAssign(ifNode) && AllNoAssign(elseArgs) && AllNoAssign(items) ==> NoAssign(r.0) && AllNoAssign(r.1)
    decreases SizeList(items), 0, 0
  {
    var x := items[0];
    assert ChainOrelse(items, ifNode, elseArgs) == ChainOrelse(items[1..], ifNode, elseArgs + [x]);
    assert IfCountList(elseArgs + [x]) == IfCountList(elseArgs) + IfCount(x) by {
      IfCountListAppend(elseArgs, [x]);
      assert IfCountList([x]) == IfCount(x) + IfCountList([x][1..]);
      assert [x][1..] == [];
    }
    ChainOrelsePreserves(items[1..], ifNode, elseArgs + [x]);
  }
}
