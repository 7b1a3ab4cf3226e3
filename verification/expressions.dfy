/**
 Expression trees and their row-at-a-time evaluation
 (minispark/expressions/base.py, binary.py, predicates.py, column.py, literal.py).
 */
module Expressions {
  import opened Values

  datatype BinOp = Gt | Ge | Lt | Le | Eq | Ne | And | Or | Add | Sub | Mul | Div

  datatype AggKind = Count | Sum | Avg | Min | Max

  /** CountStar is Count(None); every other aggregate has a child. */
  datatype Expr =
    | Column(name: string)
    | Literal(value: Value)
    | Binary(op: BinOp, left: Expr, right: Expr)
    | Not(child: Expr)
    | IsNull(child: Expr)
    | IsNotNull(child: Expr)
    | Alias(child: Expr, name: string)
    | CountStar
    | Aggregate(kind: AggKind, child: Expr)

  /** What an engine run depends on besides the plan.  Two foreign functions: the
      language's repr of an expression (which names an unaliased column) and the stable
      hash of a key tuple.  The rows an aggregation task emits, from its group columns,
      aggregates, pass, spill threshold and input: which order it lists the groups in
      depends on whether and when it spilled.  And the configured partition count.
      Every theorem holds for all of them. */
  datatype Runtime = Runtime(
    repr: Expr -> string,
    hash: seq<Value> -> nat,
    emit: (seq<Expr>, seq<Expr>, bool, int, seq<Record>) -> seq<Record>,
    shufflePartitions: nat)

  predicate IsComparison(op: BinOp) {
    op.Gt? || op.Ge? || op.Lt? || op.Le? || op.Eq? || op.Ne?
  }

  /** True where the Python operator raises. */
  predicate OpRaises(op: BinOp, a: Value, b: Value) {
    match op
    case Eq => false
    case Ne => false
    case And => false
    case Or => false
    case Add => !(a.Num? && b.Num?) && !(a.Str? && b.Str?)
    case Sub => !(a.Num? && b.Num?)
    case Mul => !(a.Num? && b.Num?)
    case Div => !(a.Num? && b.Num?) || b.n == 0.0
    case _ => Rank(a) != Rank(b) || a.Null?
  }

  /** The operator's value; where it raises, false for a comparison and Null for
      arithmetic. */
  function ApplyOp(op: BinOp, a: Value, b: Value): Value {
    if OpRaises(op, a, b) then (if IsComparison(op) then Bool(false) else Null)
    else match op
      case Eq => Bool(a == b)
      case Ne => Bool(a != b)
      case And => Bool(Truthy(a) && Truthy(b))
      case Or => Bool(Truthy(a) || Truthy(b))
      case Add => if a.Num? then Num(a.n + b.n) else Str(a.s + b.s)
      case Sub => Num(a.n - b.n)
      case Mul => Num(a.n * b.n)
      case Div => Num(a.n / b.n)
      case Gt => Bool(ValueLt(b, a))
      case Ge => Bool(!ValueLt(a, b))
      case Lt => Bool(ValueLt(a, b))
      case Le => Bool(!ValueLt(b, a))
  }

  /** Expression.evaluate, made total: see Raises for where the source raises. */
  function Eval(e: Expr, r: Record): Value {
    match e
    case Column(n) => if n in r then r[n] else Null
    case Literal(v) => v
    case Binary(op, a, b) => ApplyOp(op, Eval(a, r), Eval(b, r))
    case Not(c) => Bool(!Truthy(Eval(c, r)))
    case IsNull(c) => Bool(Eval(c, r).Null?)
    case IsNotNull(c) => Bool(!Eval(c, r).Null?)
    case Alias(c, _) => Eval(c, r)
    case CountStar => Null
    case Aggregate(_, _) => Null
  }

  /** Does evaluating e on r raise?  Both operands of a binary node are always
      evaluated, And and Or included. */
  predicate Raises(e: Expr, r: Record) {
    match e
    case Column(n) => n !in r
    case Literal(_) => false
    case Binary(op, a, b) => Raises(a, r) || Raises(b, r) || OpRaises(op, Eval(a, r), Eval(b, r))
    case Not(c) => Raises(c, r)
    case IsNull(c) => Raises(c, r)
    case IsNotNull(c) => Raises(c, r)
    case Alias(c, _) => Raises(c, r)
    case CountStar => true
    case Aggregate(_, _) => true
  }

  function EvalAll(es: seq<Expr>, r: Record): (vs: seq<Value>)
    ensures |vs| == |es|
    ensures forall i :: 0 <= i < |es| ==> vs[i] == Eval(es[i], r)
  {
    if es == [] then [] else [Eval(es[0], r)] + EvalAll(es[1..], r)
  }

  /** Every column name mentioned anywhere in e (analyzer.referenced_columns). */
  function ReferencedColumns(e: Expr): set<string> {
    match e
    case Column(n) => {n}
    case Literal(_) => {}
    case Binary(_, a, b) => ReferencedColumns(a) + ReferencedColumns(b)
    case Not(c) => ReferencedColumns(c)
    case IsNull(c) => ReferencedColumns(c)
    case IsNotNull(c) => ReferencedColumns(c)
    case Alias(c, _) => ReferencedColumns(c)
    case CountStar => {}
    case Aggregate(_, c) => ReferencedColumns(c)
  }

  function ReferencedByAll(es: seq<Expr>): (s: set<string>)
    ensures forall i :: 0 <= i < |es| ==> ReferencedColumns(es[i]) <= s
  {
    if es == [] then {} else ReferencedColumns(es[0]) + ReferencedByAll(es[1..])
  }

  /** logical/nodes.py output_name. */
  function OutputName(rt: Runtime, e: Expr): string {
    match e
    case Alias(_, n) => n
    case Column(n) => n
    case _ => rt.repr(e)
  }

  function OutputNames(rt: Runtime, es: seq<Expr>): (ns: seq<string>)
    ensures |ns| == |es|
    ensures forall i :: 0 <= i < |es| ==> ns[i] == OutputName(rt, es[i])
  {
    if es == [] then [] else [OutputName(rt, es[0])] + OutputNames(rt, es[1..])
  }

  /** The aggregate under an optional alias. */
  function UnwrapAlias(e: Expr): Expr {
    if e.Alias? then e.child else e
  }

  predicate IsAggregateFunction(e: Expr) {
    e.CountStar? || e.Aggregate?
  }

  /** Two rows that agree on the columns in `cols`, absence included. */
  ghost predicate Agree(cols: set<string>, a: Record, b: Record) {
    forall c :: c in cols ==> (c in a <==> c in b) && (c in a ==> a[c] == b[c])
  }

  /** Evaluation only looks at the referenced columns. */
  lemma EvalAgree(e: Expr, a: Record, b: Record)
    requires Agree(ReferencedColumns(e), a, b)
    ensures Eval(e, a) == Eval(e, b)
    ensures Raises(e, a) == Raises(e, b)
  {
    hide ApplyOp, OpRaises;
  }

  lemma {:induction false} EvalAllAgree(es: seq<Expr>, a: Record, b: Record)
    requires Agree(ReferencedByAll(es), a, b)
    ensures EvalAll(es, a) == EvalAll(es, b)
  {
    if es != [] {
      EvalAgree(es[0], a, b);
      EvalAllAgree(es[1..], a, b);
    }
  }

  // ---- building rows -------------------------------------------------------

  /** dict(zip(names, values)): a later name wins. */
  function RowFrom(names: seq<string>, values: seq<Value>): (r: Record)
    requires |names| == |values|
    ensures forall c :: c in r <==> c in names
  {
    if names == [] then map[]
    else
      var n := |names| - 1;
      assert forall c :: c in names <==> c in names[..n] || c == names[n];
      RowFrom(names[..n], values[..n])[names[n] := values[n]]
  }

  ghost predicate NoDuplicates(names: seq<string>) {
    forall i, j :: 0 <= i < j < |names| ==> names[i] != names[j]
  }

  lemma {:induction false} RowFromAt(names: seq<string>, values: seq<Value>, i: nat)
    requires |names| == |values| && i < |names| && NoDuplicates(names)
    ensures names[i] in RowFrom(names, values) && RowFrom(names, values)[names[i]] == values[i]
  {
    var n := |names| - 1;
    if i < n { RowFromAt(names[..n], values[..n], i); }
  }
}
