/**
 HAVING: aggregate calls in the condition become references to the aggregated columns
 (minispark/sql/parser.py, `_substitute_aggregates_with_output_columns`).
 */
module SqlHaving {
  import opened Options
  import opened Values
  import opened Expressions
  import opened AggregateFunctions
  import opened GroupTables
  import opened SqlParser
  import opened SqlPrinter
  import opened SqlTokenizer

  predicate ContainsAggregate(e: Expr) {
    match e
    case Binary(_, a, b) => ContainsAggregate(a) || ContainsAggregate(b)
    case Not(c) => ContainsAggregate(c)
    case IsNull(c) => ContainsAggregate(c)
    case IsNotNull(c) => ContainsAggregate(c)
    case Alias(c, _) => ContainsAggregate(c)
    case CountStar => true
    case Aggregate(_, _) => true
    case _ => false
  }

  /** The first SELECT-list aggregate with the same text as e. */
  function Find(rt: Runtime, e: Expr, items: seq<Expr>): (i: Option<nat>)
    ensures i.Some? ==> i.value < |items| && rt.repr(UnwrapAlias(items[i.value])) == rt.repr(e)
    ensures i.None? ==> forall j :: 0 <= j < |items| ==> rt.repr(UnwrapAlias(items[j])) != rt.repr(e)
  {
    if items == [] then None
    else if rt.repr(UnwrapAlias(items[0])) == rt.repr(e) then Some(0)
    else match Find(rt, e, items[1..])
      case None => None
      case Some(i) => Some(i + 1)
  }

  /** None where the source raises: an aggregate that is not in the SELECT list. */
  function Substitute(rt: Runtime, e: Expr, items: seq<Expr>): Option<Expr> {
    if IsAggregateFunction(e) then
      match Find(rt, e, items)
      case None => None
      case Some(i) => Some(Column(OutputName(rt, items[i])))
    else match e
      case Binary(op, a, b) =>
        var x, y := Substitute(rt, a, items), Substitute(rt, b, items);
        if x.Some? && y.Some? then Some(Binary(op, x.value, y.value)) else None
      case Not(c) =>
        var x := Substitute(rt, c, items);
        if x.Some? then Some(Not(x.value)) else None
      case IsNull(c) =>
        var x := Substitute(rt, c, items);
        if x.Some? then Some(IsNull(x.value)) else None
      case IsNotNull(c) =>
        var x := Substitute(rt, c, items);
        if x.Some? then Some(IsNotNull(x.value)) else None
      case _ => Some(e)
  }

  /** Every aggregate call in e is one of the SELECT list's. */
  ghost predicate Selected(e: Expr, items: seq<Expr>) {
    match e
    case Binary(_, a, b) => Selected(a, items) && Selected(b, items)
    case Not(c) => Selected(c, items)
    case IsNull(c) => Selected(c, items)
    case IsNotNull(c) => Selected(c, items)
    case CountStar => exists i :: 0 <= i < |items| && UnwrapAlias(items[i]) == e
    case Aggregate(_, _) => exists i :: 0 <= i < |items| && UnwrapAlias(items[i]) == e
    case _ => true
  }

  /** The condition's own meaning for one group: each aggregate call is its value for the
      group, and columns are read from the group's row. */
  ghost function EvalForGroup(e: Expr, items: seq<Expr>, values: seq<Value>, r: Record): Value
    requires |values| == |items|
  {
    if IsAggregateFunction(e) then
      GroupValue(e, items, values)
    else match e
      case Binary(op, a, b) => ApplyOp(op, EvalForGroup(a, items, values, r), EvalForGroup(b, items, values, r))
      case Not(c) => Bool(!Truthy(EvalForGroup(c, items, values, r)))
      case IsNull(c) => Bool(EvalForGroup(c, items, values, r).Null?)
      case IsNotNull(c) => Bool(!EvalForGroup(c, items, values, r).Null?)
      case _ => Eval(e, r)
  }

  /** The value of the first aggregate equal to e. */
  ghost function GroupValue(e: Expr, items: seq<Expr>, values: seq<Value>): Value
    requires |values| == |items|
  {
    if items == [] then Null
    else if UnwrapAlias(items[0]) == e then values[0]
    else GroupValue(e, items[1..], values[1..])
  }

  ghost predicate Injective(rt: Runtime) {
    forall d, e :: rt.repr(d) == rt.repr(e) ==> d == e
  }

  lemma {:induction false} FindIsGroupValue(rt: Runtime, e: Expr, items: seq<Expr>, values: seq<Value>)
    requires Injective(rt) && |values| == |items|
    ensures match Find(rt, e, items)
            case Some(i) => UnwrapAlias(items[i]) == e && GroupValue(e, items, values) == values[i]
            case None => forall i :: 0 <= i < |items| ==> UnwrapAlias(items[i]) != e
  {
    if items != [] && rt.repr(UnwrapAlias(items[0])) != rt.repr(e) {
      FindIsGroupValue(rt, e, items[1..], values[1..]);
    }
  }

  /** Substitution succeeds exactly when every aggregate call is selected, and leaves no
      aggregate behind. */
  lemma {:induction false} SubstituteSucceedsIff(rt: Runtime, e: Expr, items: seq<Expr>)
    requires Injective(rt) && Printable(e)
    ensures Substitute(rt, e, items).Some? <==> Selected(e, items)
    ensures Substitute(rt, e, items).Some? ==> !ContainsAggregate(Substitute(rt, e, items).value)
  {
    if IsAggregateFunction(e) {
      FindIsGroupValue(rt, e, items, seq(|items|, _ => Null));
    } else {
      match e
      case Binary(_, a, b) =>
        if !IsNegation(e) { SubstituteSucceedsIff(rt, a, items); }
        SubstituteSucceedsIff(rt, b, items);
      case Not(c) => SubstituteSucceedsIff(rt, c, items);
      case IsNull(c) => SubstituteSucceedsIff(rt, c, items);
      case IsNotNull(c) => SubstituteSucceedsIff(rt, c, items);
      case _ =>
    }
  }

  /** On a row that holds the aggregates' values under their output names, the substituted
      condition has the meaning of the original for the group. */
  lemma {:induction false} SubstituteMeaning(rt: Runtime, e: Expr, items: seq<Expr>, values: seq<Value>, r: Record)
    requires Injective(rt) && |values| == |items| && Substitute(rt, e, items).Some?
    requires forall i :: 0 <= i < |items| ==> OutputName(rt, items[i]) in r && r[OutputName(rt, items[i])] == values[i]
    ensures Eval(Substitute(rt, e, items).value, r) == EvalForGroup(e, items, values, r)
  {
    if IsAggregateFunction(e) {
      FindIsGroupValue(rt, e, items, values);
    } else {
      match e
      case Binary(_, a, b) => SubstituteMeaning(rt, a, items, values, r); SubstituteMeaning(rt, b, items, values, r);
      case Not(c) => SubstituteMeaning(rt, c, items, values, r);
      case IsNull(c) => SubstituteMeaning(rt, c, items, values, r);
      case IsNotNull(c) => SubstituteMeaning(rt, c, items, values, r);
      case _ =>
    }
  }

  /** HAVING on a grouped row: with distinct output names, the substituted condition reads
      the group's finalized aggregates. */
  lemma HavingReadsGroup(rt: Runtime, e: Expr, groupBy: seq<Expr>, aggregates: seq<Expr>, k: Key, s: State)
    requires Injective(rt) && |k| == |groupBy| && |s| == |aggregates|
    requires NoDuplicates(OutputNames(rt, groupBy) + OutputNames(rt, aggregates))
    requires Substitute(rt, e, aggregates).Some?
    ensures var f := Final(groupBy, aggregates);
            var row := OutputRow(rt, f, k, s);
            Eval(Substitute(rt, e, aggregates).value, row)
            == EvalForGroup(e, aggregates, FinalizeAll(Functions(f), s), row)
  {
    hide Eval, EvalForGroup, Substitute, FinalizeAll, RowFrom, NoDuplicates, OutputNames, UnwrapAlias;
    var f := Final(groupBy, aggregates);
    var names, vs := OutputColumns(rt, f), k + FinalizeAll(Functions(f), s);
    var row := OutputRow(rt, f, k, s);
    forall i | 0 <= i < |aggregates|
      ensures OutputName(rt, aggregates[i]) in row && row[OutputName(rt, aggregates[i])] == FinalizeAll(Functions(f), s)[i]
    {
      assert names[|k| + i] == OutputNames(rt, aggregates)[i] && vs[|k| + i] == FinalizeAll(Functions(f), s)[i];
      RowFromAt(names, vs, |k| + i);
    }
    SubstituteMeaning(rt, e, aggregates, FinalizeAll(Functions(f), s), row);
  }
}
