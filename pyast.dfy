/**
 * The restricted Python syntax tree the rewriter works on, and the types of the
 * target expression library.
 *
 * Python's `ast` module has separate statement and expression classes, but the
 * rewriter freely puts statements where expressions are expected (the branch
 * bodies of an `If(...).Then(...)` chain, the arguments of `Seq(...)` and
 * `Pop(...)`), so, as in Python, one node type holds both.
 */
module PyAst {
  import opened Wrappers

  /** The type universe of the target library (`TealType`), including `anytype`,
      which the library's own type inference can report. */
  datatype TealType = Uint64 | Bytes | AnyType | NoneType

  /** The attribute name of each type on the `TealType` enumeration. */
  function TypeName(t: TealType): string
  {
    match t
    case Uint64 => "uint64"
    case Bytes => "bytes"
    case AnyType => "anytype"
    case NoneType => "none"
  }

  /** The value of a literal: Python's `None`, a `bool`, an `int`, a `str`, or any other
      constant (float, complex, bytes, Ellipsis), kept by its source text. */
  datatype Value = NoneConst | BoolConst(b: bool) | IntConst(i: int) | StrConst(s: string) | OtherConst(repr: string)

  datatype ExprContext = Load | Store | Del

  datatype BinOperator = Add | Sub | Mult | MatMult | Div | Mod | Pow | LShift | RShift | BitOr | BitXor | BitAnd | FloorDiv
  datatype UnaryOperator = Invert | Not | UAdd | USub
  datatype BoolOperator = And | Or
  datatype CmpOperator = Eq | NotEq | Lt | LtE | Gt | GtE | Is | IsNot | In | NotIn

  datatype Node =
    // expressions
    | Name(id: string, ctx: ExprContext)
    | Constant(lit: Value)
    | Call(func: Node, args: seq<Node>, keywords: seq<Keyword>)
    | Attribute(obj: Node, attr: string)
    | BinOp(left: Node, op: BinOperator, right: Node)
    | UnaryOp(uop: UnaryOperator, operand: Node)
    | BoolOp(bop: BoolOperator, values: seq<Node>)
    | Compare(left: Node, ops: seq<CmpOperator>, comparators: seq<Node>)
    | IfExp(test: Node, thenExpr: Node, elseExpr: Node)
    // statements
    | Expr(value: Node)
    | Assign(targets: seq<Node>, value: Node)
    | AugAssign(target: Node, op: BinOperator, value: Node)
    | If(test: Node, body: seq<Node>, orelse: seq<Node>)
    | While(test: Node, body: seq<Node>, orelse: seq<Node>)
    | Continue
    | Break
    | Pass
    | Raise(exc: Option<Node>, cause: Option<Node>)
    | Assert(test: Node, msg: Option<Node>)
    | Return(result: Option<Node>)

  /** A keyword argument `arg=value` of a call (`arg` is absent for `**value`). */
  datatype Keyword = Keyword(arg: Option<string>, kwValue: Node)

  /** One parameter and its annotation. */
  datatype Arg = Arg(arg: string, annotation: Option<Node>)

  /** The parameter list of a definition, field by field as in Python's `ast.arguments`. */
  datatype Arguments = Arguments(
    posonlyargs: seq<Arg>, args: seq<Arg>, vararg: Option<Arg>,
    kwonlyargs: seq<Arg>, kwDefaults: seq<Option<Node>>, kwarg: Option<Arg>, defaults: seq<Node>)

  datatype FunctionDef = FunctionDef(
    name: string, params: Arguments, body: seq<Node>, decorators: seq<Node>, returnAnnotation: Option<Node>)

  /** A parameter list made of positional-only parameters alone (`def f(a: int, b: str, /)`). */
  predicate PositionalOnly(a: Arguments)
  {
    a.args == [] && a.vararg.None? && a.kwonlyargs == [] && a.kwDefaults == [] && a.kwarg.None? && a.defaults == []
  }

  /** A `Name` in load context, as `create_name` builds it. */
  function CreateName(id: string): (r: Node)
    ensures r.Name? && r.id == id && r.ctx == Load
  {
    Name(id, Load)
  }

  /** `name(args...)` with no keyword arguments. */
  function CallNamed(name: string, args: seq<Node>): Node
  {
    Call(CreateName(name), args, [])
  }

  /** `obj.attr(args...)` with no keyword arguments. */
  function CallMethod(obj: Node, attr: string, args: seq<Node>): Node
  {
    Call(Attribute(obj, attr), args, [])
  }

  /** True for a call whose callee is the bare name `name`. */
  predicate IsCallTo(n: Node, name: string)
  {
    n.Call? && n.func.Name? && n.func.id == name
  }

  predicate IsConditional(n: Node)
  {
    n.If? || n.IfExp?
  }

  /** Nodes a `visit_Assign` answers with a list rather than a single node. */
  predicate IsAssignKind(n: Node)
  {
    n.Assign? || n.AugAssign?
  }

  // ---------------------------------------------------------------------------
  // Measures used for termination of the rewriting passes.
  // An `AugAssign` weighs more than the `Assign` it desugars to.

  function Size(n: Node): (r: nat)
    ensures r >= 1
    decreases n
  {
    match n
    case Name(_, _) => 1
    case Constant(_) => 1
    case Call(f, args, kws) => 1 + Size(f) + SizeList(args) + SizeKeywords(kws)
    case Attribute(o, _) => 1 + Size(o)
    case BinOp(l, _, r) => 1 + Size(l) + Size(r)
    case UnaryOp(_, e) => 1 + Size(e)
    case BoolOp(_, vs) => 1 + SizeList(vs)
    case Compare(l, _, cs) => 1 + Size(l) + SizeList(cs)
    case IfExp(t, a, b) => 1 + Size(t) + Size(a) + Size(b)
    case Expr(v) => 1 + Size(v)
    case Assign(ts, v) => 1 + SizeList(ts) + Size(v)
    case AugAssign(t, _, v) => 6 + Size(t) + Size(v)
    case If(t, b, o) => 1 + Size(t) + SizeList(b) + SizeList(o)
    case While(t, b, o) => 1 + Size(t) + SizeList(b) + SizeList(o)
    case Continue => 1
    case Break => 1
    case Pass => 1
    case Raise(e, c) => 1 + SizeOpt(e) + SizeOpt(c)
    case Assert(t, m) => 1 + Size(t) + SizeOpt(m)
    case Return(v) => 1 + SizeOpt(v)
  }

  function SizeList(ns: seq<Node>): nat
    decreases ns
  {
    if ns == [] then 0 else 1 + Size(ns[0]) + SizeList(ns[1..])
  }

  function SizeKeywords(ks: seq<Keyword>): nat
    decreases ks
  {
    if ks == [] then 0 else SizeKeyword(ks[0]) + SizeKeywords(ks[1..])
  }

  function SizeKeyword(k: Keyword): nat
    decreases k
  {
    1 + Size(k.kwValue)
  }

  function SizeOpt(o: Option<Node>): nat
    decreases o
  {
    if o.Some? then 1 + Size(o.value) else 0
  }

  /** The number of conditional nodes (`If`, `IfExp`) in a tree. Rewriting a
      conditional into a builder chain removes at least one of them. */
  function IfCount(n: Node): nat
    decreases n
  {
    match n
    case Name(_, _) => 0
    case Constant(_) => 0
    case Call(f, args, kws) => IfCount(f) + IfCountList(args) + IfCountKeywords(kws)
    case Attribute(o, _) => IfCount(o)
    case BinOp(l, _, r) => IfCount(l) + IfCount(r)
    case UnaryOp(_, e) => IfCount(e)
    case BoolOp(_, vs) => IfCountList(vs)
    case Compare(l, _, cs) => IfCount(l) + IfCountList(cs)
    case IfExp(t, a, b) => 1 + IfCount(t) + IfCount(a) + IfCount(b)
    case Expr(v) => IfCount(v)
    case Assign(ts, v) => IfCountList(ts) + IfCount(v)
    case AugAssign(t, _, v) => IfCount(t) + IfCount(v)
    case If(t, b, o) => 1 + IfCount(t) + IfCountList(b) + IfCountList(o)
    case While(t, b, o) => IfCount(t) + IfCountList(b) + IfCountList(o)
    case Continue => 0
    case Break => 0
    case Pass => 0
    case Raise(e, c) => IfCountOpt(e) + IfCountOpt(c)
    case Assert(t, m) => IfCount(t) + IfCountOpt(m)
    case Return(v) => IfCountOpt(v)
  }

  function IfCountList(ns: seq<Node>): nat
    decreases ns
  {
    if ns == [] then 0 else IfCount(ns[0]) + IfCountList(ns[1..])
  }

  function IfCountKeywords(ks: seq<Keyword>): nat
    decreases ks
  {
    if ks == [] then 0 else IfCountKeyword(ks[0]) + IfCountKeywords(ks[1..])
  }

  function IfCountKeyword(k: Keyword): nat
    decreases k
  {
    IfCount(k.kwValue)
  }

  function IfCountOpt(o: Option<Node>): nat
    decreases o
  {
    if o.Some? then IfCount(o.value) else 0
  }

  /** An element of a list weighs no more than the list. */
  lemma {:induction false} ElementBounds(ns: seq<Node>, i: nat)
    requires i < |ns|
    ensures IfCount(ns[i]) <= IfCountList(ns) && Size(ns[i]) < SizeList(ns)
    decreases i
  {
    if i > 0 {
      ElementBounds(ns[1..], i - 1);
      assert ns[1..][i - 1] == ns[i];
    }
  }

  lemma {:induction false} KeywordBounds(ks: seq<Keyword>, i: nat)
    requires i < |ks|
    ensures IfCount(ks[i].kwValue) <= IfCountKeywords(ks) && Size(ks[i].kwValue) < SizeKeywords(ks)
    decreases i
  {
    if i > 0 {
      KeywordBounds(ks[1..], i - 1);
      assert ks[1..][i - 1] == ks[i];
    }
  }

  lemma {:induction false} IfCountListAppend(a: seq<Node>, b: seq<Node>)
    ensures IfCountList(a + b) == IfCountList(a) + IfCountList(b)
    decreases |a|
  {
    if a != [] {
      assert (a + b)[1..] == a[1..] + b;
      IfCountListAppend(a[1..], b);
    } else {
      assert a + b == b;
    }
  }

  // ---------------------------------------------------------------------------
  // Well-formedness guaranteed by Python's parser.

  /** Assignments occur only as elements of node lists, never in a single-node field:
      the parser puts statements only into `body`/`orelse` lists, and the builder
      chains move them only into argument lists. */
  predicate SpliceSafe(n: Node)
    decreases n, 0
  {
    match n
    case Name(_, _) => true
    case Constant(_) => true
    case Call(f, args, kws) =>
      SingleSafe(f) && (forall a | a in args :: SpliceSafe(a)) && (forall k | k in kws :: SingleSafe(k.kwValue))
    case Attribute(o, _) => SingleSafe(o)
    case BinOp(l, _, r) => SingleSafe(l) && SingleSafe(r)
    case UnaryOp(_, e) => SingleSafe(e)
    case BoolOp(_, vs) => forall v | v in vs :: SpliceSafe(v)
    case Compare(l, _, cs) => SingleSafe(l) && forall x | x in cs :: SpliceSafe(x)
    case IfExp(t, a, b) => SingleSafe(t) && SingleSafe(a) && SingleSafe(b)
    case Expr(v) => SingleSafe(v)
    case Assign(ts, v) => (forall x | x in ts :: SpliceSafe(x)) && SingleSafe(v)
    case AugAssign(t, _, v) => SingleSafe(t) && SingleSafe(v)
    case If(t, b, o) => SingleSafe(t) && (forall x | x in b :: SpliceSafe(x)) && (forall x | x in o :: SpliceSafe(x))
    case While(t, b, o) => SingleSafe(t) && (forall x | x in b :: SpliceSafe(x)) && (forall x | x in o :: SpliceSafe(x))
    case Continue => true
    case Break => true
    case Pass => true
    case Raise(e, c) => (e.Some? ==> SingleSafe(e.value)) && (c.Some? ==> SingleSafe(c.value))
    case Assert(t, m) => SingleSafe(t) && (m.Some? ==> SingleSafe(m.value))
    case Return(v) => v.Some? ==> SingleSafe(v.value)
  }

  predicate SingleSafe(n: Node)
    decreases n, 1
  {
    !IsAssignKind(n) && SpliceSafe(n)
  }

  /** A tree with no assignment anywhere in it. */
  predicate NoAssign(n: Node)
    decreases n
  {
    match n
    case Name(_, _) => true
    case Constant(_) => true
    case Call(f, args, kws) => NoAssign(f) && (forall a | a in args :: NoAssign(a)) && (forall k | k in kws :: NoAssign(k.kwValue))
    case Attribute(o, _) => NoAssign(o)
    case BinOp(l, _, r) => NoAssign(l) && NoAssign(r)
    case UnaryOp(_, e) => NoAssign(e)
    case BoolOp(_, vs) => forall v | v in vs :: NoAssign(v)
    case Compare(l, _, cs) => NoAssign(l) && forall x | x in cs :: NoAssign(x)
    case IfExp(t, a, b) => NoAssign(t) && NoAssign(a) && NoAssign(b)
    case Expr(v) => NoAssign(v)
    case Assign(_, _) => false
    case AugAssign(_, _, _) => false
    case If(t, b, o) => NoAssign(t) && (forall x | x in b :: NoAssign(x)) && (forall x | x in o :: NoAssign(x))
    case While(t, b, o) => NoAssign(t) && (forall x | x in b :: NoAssign(x)) && (forall x | x in o :: NoAssign(x))
    case Continue => true
    case Break => true
    case Pass => true
    case Raise(e, c) => (e.Some? ==> NoAssign(e.value)) && (c.Some? ==> NoAssign(c.value))
    case Assert(t, m) => NoAssign(t) && (m.Some? ==> NoAssign(m.value))
    case Return(v) => v.Some? ==> NoAssign(v.value)
  }
}
