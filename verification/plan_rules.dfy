/**
 The optimizer's plan rules (minispark/optimizer/rules.py) and their soundness: each
 keeps the plan's rows, in order, its column names, and the hypotheses the next rule
 relies on.
 */
module PlanRules {
  import opened Options
  import opened Values
  import opened Expressions
  import opened ExpressionRules
  import opened Sequences
  import opened Sorting
  import opened AggregateFunctions
  import opened GroupTables
  import opened Joins
  import opened RowOperators
  import opened Logical

  /** q may replace p: same rows in the same order, same columns, nothing new named
      below, and still a plan the rules apply to. */
  ghost predicate Refines(rt: Runtime, bools: set<string>, p: LogicalPlan, q: LogicalPlan) {
    && Rows(rt, q) == Rows(rt, p)
    && Names(rt, q) == Names(rt, p)
    && AllNames(rt, q) <= AllNames(rt, p)
    && Optimizable(rt, bools, q)
  }

  // ---- map_expressions: ConstantFolding, FilterSimplification --------------

  function MapAll(f: Expr -> Expr, es: seq<Expr>): (out: seq<Expr>)
    ensures |out| == |es|
    ensures forall i :: 0 <= i < |es| ==> out[i] == f(es[i])
  {
    seq(|es|, i requires 0 <= i < |es| => f(es[i]))
  }

  function MapKeys(f: Expr -> Expr, ks: seq<SortKey>): (out: seq<SortKey>)
    ensures |out| == |ks|
    ensures forall i :: 0 <= i < |ks| ==> out[i] == SortKey(f(ks[i].expr), ks[i].ascending)
  {
    seq(|ks|, i requires 0 <= i < |ks| => SortKey(f(ks[i].expr), ks[i].ascending))
  }

  function MapExpressions(p: LogicalPlan, f: Expr -> Expr): LogicalPlan {
    match p
    case Scan(_, _, _, _) => p
    case Filter(c, cond) => Filter(MapExpressions(c, f), f(cond))
    case Project(c, cols) => Project(MapExpressions(c, f), MapAll(f, cols))
    case Aggregation(c, g, a) => Aggregation(MapExpressions(c, f), MapAll(f, g), MapAll(f, a))
    case Join(l, r, on, b) => Join(MapExpressions(l, f), MapExpressions(r, f), on, b)
    case Sort(c, ks) => Sort(MapExpressions(c, f), MapKeys(f, ks))
  }

  /** What a rewrite of expressions must keep. */
  ghost predicate GoodRewrite(bools: set<string>, f: Expr -> Expr) {
    && (forall e :: KeepsShape(e, f(e)))
    && (forall e :: KeepsBooleans(bools, e, f(e)))
    && (forall e, r :: KeepsMeaning(bools, e, f(e), r))
  }

  /** Columns, aliases and aggregates stay what they are; no new column is read. */
  ghost predicate KeepsShape(e: Expr, d: Expr) {
    && ReferencedColumns(d) <= ReferencedColumns(e)
    && (e.Column? || IsAggregateFunction(e) ==> d == e)
    && (e.Alias? ==> d.Alias? && d.name == e.name && (IsAggregateFunction(e.child) ==> d == e))
  }

  ghost predicate KeepsBooleans(bools: set<string>, e: Expr, d: Expr) {
    && (BooleanOperands(bools, e) ==> BooleanOperands(bools, d) && (Boolean(bools, e) ==> Boolean(bools, d)))
    && (Condition(bools, e) ==> Condition(bools, d))
  }

  ghost predicate KeepsMeaning(bools: set<string>, e: Expr, d: Expr, r: Record) {
    HoldsBooleans(bools, ReferencedColumns(e), r) ==>
      && (BooleanOperands(bools, e) ==> Eval(d, r) == Eval(e, r))
      && (Condition(bools, e) ==> Truthy(Eval(d, r)) == Truthy(Eval(e, r)))
  }

  lemma FoldIsGood(bools: set<string>)
    ensures GoodRewrite(bools, Fold)
  {
    forall e ensures KeepsShape(e, Fold(e)) && KeepsBooleans(bools, e, Fold(e)) {
      FoldColumns(e);
      FoldKeepsBoolean(bools, e);
    }
    forall e, r ensures KeepsMeaning(bools, e, Fold(e), r) { FoldPreserves(e, r); }
  }

  lemma SimplifyIsGood(bools: set<string>)
    ensures GoodRewrite(bools, Simplify)
  {
    forall e ensures KeepsShape(e, Simplify(e)) && KeepsBooleans(bools, e, Simplify(e)) {
      SimplifyColumns(e);
      if BooleanOperands(bools, e) { SimplifyKeepsBoolean(bools, e); }
      if Condition(bools, e) { SimplifyKeepsCondition(bools, e); }
    }
    forall e, r ensures KeepsMeaning(bools, e, Simplify(e), r) {
      if HoldsBooleans(bools, ReferencedColumns(e), r) {
        if BooleanOperands(bools, e) { SimplifyPreserves(bools, e, r); }
        if Condition(bools, e) { SimplifyKeepsTruth(bools, e, r); }
      }
    }
  }

  lemma {:induction false} MapAllColumns(f: Expr -> Expr, es: seq<Expr>)
    requires forall e :: KeepsShape(e, f(e))
    ensures ReferencedByAll(MapAll(f, es)) <= ReferencedByAll(es)
  {
    if es != [] {
      assert KeepsShape(es[0], f(es[0]));
      assert MapAll(f, es)[1..] == MapAll(f, es[1..]);
      MapAllColumns(f, es[1..]);
    }
  }

  /** Project columns are named alike after a rewrite. */
  lemma {:induction false} MapAllNames(rt: Runtime, f: Expr -> Expr, es: seq<Expr>)
    requires forall e :: KeepsShape(e, f(e))
    requires forall i :: 0 <= i < |es| ==> es[i].Column? || es[i].Alias?
    ensures OutputNames(rt, MapAll(f, es)) == OutputNames(rt, es)
  {
    if es != [] {
      assert KeepsShape(es[0], f(es[0]));
      assert MapAll(f, es)[1..] == MapAll(f, es[1..]);
      MapAllNames(rt, f, es[1..]);
    }
  }

  /** Group columns and aggregates are not rewritten at all. */
  lemma MapAllFixed(f: Expr -> Expr, es: seq<Expr>)
    requires forall e :: KeepsShape(e, f(e))
    requires forall i :: 0 <= i < |es| ==> es[i].Column? || IsAggregateFunction(UnwrapAlias(es[i]))
    ensures MapAll(f, es) == es
  {
    forall i | 0 <= i < |es| ensures f(es[i]) == es[i] {
      assert KeepsShape(es[i], f(es[i]));
    }
  }

  lemma MapKeysFixed(f: Expr -> Expr, ks: seq<SortKey>)
    requires forall e :: KeepsShape(e, f(e))
    requires forall i :: 0 <= i < |ks| ==> ks[i].expr.Column?
    ensures MapKeys(f, ks) == ks
  {
    forall i | 0 <= i < |ks| ensures f(ks[i].expr) == ks[i].expr {
      assert KeepsShape(ks[i].expr, f(ks[i].expr));
    }
  }

  lemma RewrittenProjection(rt: Runtime, bools: set<string>, p: LogicalPlan, f: Expr -> Expr, x: Record)
    requires GoodRewrite(bools, f) && p.Project? && Optimizable(rt, bools, p) && RowOk(rt, bools, p.child, x)
    ensures EvalAll(MapAll(f, p.columns), x) == EvalAll(p.columns, x)
  {
    forall i | 0 <= i < |p.columns| ensures Eval(f(p.columns[i]), x) == Eval(p.columns[i], x) {
      assert KeepsMeaning(bools, p.columns[i], f(p.columns[i]), x);
      assert ReferencedColumns(p.columns[i]) <= ReferencedByAll(p.columns);
    }
  }

  lemma MapFilterRows(rt: Runtime, bools: set<string>, p: LogicalPlan, f: Expr -> Expr)
    requires GoodRewrite(bools, f) && p.Filter? && Optimizable(rt, bools, p)
    ensures FilterRows(f(p.condition), Rows(rt, p.child)) == FilterRows(p.condition, Rows(rt, p.child))
  {
    FilterFacts(rt, bools, p.child, p.condition);
    forall r | r in Rows(rt, p.child) ensures Truthy(Eval(f(p.condition), r)) == Truthy(Eval(p.condition, r)) {
      RowsOk(rt, bools, p.child, r);
      assert KeepsMeaning(bools, p.condition, f(p.condition), r);
    }
    FilterSame(f(p.condition), p.condition, Rows(rt, p.child));
  }

  lemma MapFilter(rt: Runtime, bools: set<string>, p: LogicalPlan, f: Expr -> Expr)
    requires GoodRewrite(bools, f) && p.Filter? && Optimizable(rt, bools, p)
    ensures Refines(rt, bools, p, Filter(p.child, f(p.condition)))
  {
    FilterFacts(rt, bools, p.child, p.condition);
    MapFilterRows(rt, bools, p, f);
    assert KeepsShape(p.condition, f(p.condition)) && KeepsBooleans(bools, p.condition, f(p.condition));
    FilterWithin(rt, bools, p.child, f(p.condition));
  }

  lemma MapProjectRows(rt: Runtime, bools: set<string>, p: LogicalPlan, f: Expr -> Expr)
    requires GoodRewrite(bools, f) && p.Project? && Optimizable(rt, bools, p)
    ensures var names := OutputNames(rt, p.columns);
            ProjectRows(MapAll(f, p.columns), names, Rows(rt, p.child)) == ProjectRows(p.columns, names, Rows(rt, p.child))
  {
    ProjectFacts(rt, bools, p);
    var cols, names, rows := MapAll(f, p.columns), OutputNames(rt, p.columns), Rows(rt, p.child);
    forall i | 0 <= i < |rows| ensures ProjectRow(cols, names, rows[i]) == ProjectRow(p.columns, names, rows[i]) {
      RowsOk(rt, bools, p.child, rows[i]);
      RewrittenProjection(rt, bools, p, f, rows[i]);
    }
  }

  lemma MapProjectColumn(rt: Runtime, bools: set<string>, p: LogicalPlan, f: Expr -> Expr, i: nat)
    requires GoodRewrite(bools, f) && p.Project? && Optimizable(rt, bools, p) && i < |p.columns|
    ensures var e := f(p.columns[i]);
            && (e.Column? || (e.Alias? && e.name !in AllNames(rt, p.child)))
            && BooleanOperands(bools, e) && (OutputName(rt, e) in bools ==> Boolean(bools, e))
  {
    ProjectFacts(rt, bools, p);
    assert KeepsShape(p.columns[i], f(p.columns[i])) && KeepsBooleans(bools, p.columns[i], f(p.columns[i]));
  }

  lemma MapProjectShape(rt: Runtime, bools: set<string>, p: LogicalPlan, f: Expr -> Expr)
    requires GoodRewrite(bools, f) && p.Project? && Optimizable(rt, bools, p)
    ensures var d := Project(p.child, MapAll(f, p.columns));
            Optimizable(rt, bools, d) && Names(rt, d) == Names(rt, p) && AllNames(rt, d) == AllNames(rt, p)
  {
    ProjectFacts(rt, bools, p);
    MapAllColumns(f, p.columns);
    MapAllNames(rt, f, p.columns);
    forall i | 0 <= i < |p.columns|
      ensures var e := MapAll(f, p.columns)[i];
              && (e.Column? || (e.Alias? && e.name !in AllNames(rt, p.child)))
              && BooleanOperands(bools, e) && (OutputName(rt, e) in bools ==> Boolean(bools, e))
    {
      MapProjectColumn(rt, bools, p, f, i);
    }
  }

  lemma MapProject(rt: Runtime, bools: set<string>, p: LogicalPlan, f: Expr -> Expr)
    requires GoodRewrite(bools, f) && p.Project? && Optimizable(rt, bools, p)
    ensures Refines(rt, bools, p, Project(p.child, MapAll(f, p.columns)))
  {
    MapProjectRows(rt, bools, p, f);
    MapProjectShape(rt, bools, p, f);
    ProjectFacts(rt, bools, p);
    MapAllNames(rt, f, p.columns);
  }

  lemma MapAggregation(rt: Runtime, bools: set<string>, p: LogicalPlan, f: Expr -> Expr)
    requires GoodRewrite(bools, f) && p.Aggregation? && Optimizable(rt, bools, p)
    ensures MapAll(f, p.groupBy) == p.groupBy && MapAll(f, p.aggregates) == p.aggregates
  {
    var a := p.aggregates;
    forall i | 0 <= i < |a| ensures IsAggregateFunction(UnwrapAlias(a[i])) {
      assert Functions(Partial(p.groupBy, a))[i] == UnwrapAlias(a[i]);
    }
    MapAllFixed(f, p.groupBy);
    MapAllFixed(f, a);
  }

  lemma MapSort(rt: Runtime, bools: set<string>, p: LogicalPlan, f: Expr -> Expr)
    requires GoodRewrite(bools, f) && p.Sort? && Optimizable(rt, bools, p)
    ensures MapKeys(f, p.keys) == p.keys
  {
    MapKeysFixed(f, p.keys);
  }

  lemma {:induction false} MapExpressionsRefines(rt: Runtime, bools: set<string>, p: LogicalPlan, f: Expr -> Expr)
    requires GoodRewrite(bools, f) && Optimizable(rt, bools, p)
    ensures Refines(rt, bools, p, MapExpressions(p, f))
  {
    hide Analyzed, FreshAliases, BooleansOk, Rows, Names, AllNames;
    match p
    case Scan(_, _, _, _) =>
    case Filter(c, cond) =>
      FilterFacts(rt, bools, c, cond);
      MapExpressionsRefines(rt, bools, c, f);
      MapFilter(rt, bools, p, f);
      FilterOver(rt, bools, Filter(c, f(cond)), MapExpressions(c, f));
      RefinesTrans(rt, bools, p, Filter(c, f(cond)), MapExpressions(p, f));
    case Project(c, cols) =>
      ProjectFacts(rt, bools, p);
      MapExpressionsRefines(rt, bools, c, f);
      MapProject(rt, bools, p, f);
      ProjectOver(rt, bools, Project(c, MapAll(f, cols)), MapExpressions(c, f));
      RefinesTrans(rt, bools, p, Project(c, MapAll(f, cols)), MapExpressions(p, f));
    case Aggregation(c, g, a) =>
      AggregationFacts(rt, bools, p);
      MapExpressionsRefines(rt, bools, c, f);
      MapAggregation(rt, bools, p, f);
      AggregationOver(rt, bools, p, MapExpressions(c, f));
    case Join(l, r, _, _) =>
      JoinFacts(rt, bools, p);
      MapExpressionsRefines(rt, bools, l, f);
      MapExpressionsRefines(rt, bools, r, f);
      JoinOver(rt, bools, p, MapExpressions(l, f), MapExpressions(r, f));
    case Sort(c, ks) =>
      SortFacts(rt, bools, p);
      MapExpressionsRefines(rt, bools, c, f);
      MapSort(rt, bools, p, f);
      SortOver(rt, bools, p, MapExpressions(c, f));
  }

  /** ConstantFolding keeps the plan's rows. */
  lemma ConstantFoldingRefines(rt: Runtime, bools: set<string>, p: LogicalPlan)
    requires Optimizable(rt, bools, p)
    ensures Refines(rt, bools, p, MapExpressions(p, Fold))
  {
    FoldIsGood(bools);
    MapExpressionsRefines(rt, bools, p, Fold);
  }

  /** FilterSimplification keeps the plan's rows. */
  lemma FilterSimplificationRefines(rt: Runtime, bools: set<string>, p: LogicalPlan)
    requires Optimizable(rt, bools, p)
    ensures Refines(rt, bools, p, MapExpressions(p, Simplify))
  {
    SimplifyIsGood(bools);
    MapExpressionsRefines(rt, bools, p, Simplify);
  }

  // ---- PredicatePushdown ---------------------------------------------------

  /** Where a Filter goes over an already rewritten child. */
  function PushFilter(rt: Runtime, c: LogicalPlan, cond: Expr): LogicalPlan {
    var needed := ReferencedColumns(cond);
    if c.Project? && needed <= Columns(rt, c.child) then Project(Filter(c.child, cond), c.columns)
    else if c.Join? && needed <= Columns(rt, c.left) then Join(Filter(c.left, cond), c.right, c.on, c.broadcast)
    else if c.Join? && needed <= Columns(rt, c.right) then Join(c.left, Filter(c.right, cond), c.on, c.broadcast)
    else Filter(c, cond)
  }

  function Pushdown(rt: Runtime, p: LogicalPlan): LogicalPlan {
    match p
    case Scan(_, _, _, _) => p
    case Project(c, cols) => Project(Pushdown(rt, c), cols)
    case Aggregation(c, g, a) => Aggregation(Pushdown(rt, c), g, a)
    case Join(l, r, on, b) => Join(Pushdown(rt, l), Pushdown(rt, r), on, b)
    case Sort(c, ks) => Sort(Pushdown(rt, c), ks)
    case Filter(c, cond) => PushFilter(rt, Pushdown(rt, c), cond)
  }

  /** A plain column of a projection is passed through unchanged. */
  lemma PlainColumnPassed(rt: Runtime, cols: seq<Expr>, x: Record, i: nat)
    requires i < |cols| && cols[i].Column? && cols[i].name in x && NoDuplicates(OutputNames(rt, cols))
    ensures var n, r := cols[i].name, ProjectRow(cols, OutputNames(rt, cols), x);
            n in r && r[n] == x[n]
  {
    RowFromAt(OutputNames(rt, cols), EvalAll(cols, x), i);
  }

  /** A column that exists on both sides of the Project is a plain column of it: an alias
      would have had to reuse the name. */
  lemma SharedColumn(rt: Runtime, bools: set<string>, c: LogicalPlan, n: string) returns (i: nat)
    requires c.Project? && Optimizable(rt, bools, c) && n in Columns(rt, c) && n in Columns(rt, c.child)
    ensures i < |c.columns| && c.columns[i] == Column(n)
  {
    ProjectFacts(rt, bools, c);
    var names := OutputNames(rt, c.columns);
    i :| 0 <= i < |names| && names[i] == n;
  }

  lemma PassedThrough(rt: Runtime, bools: set<string>, c: LogicalPlan, cond: Expr, x: Record)
    requires c.Project? && Optimizable(rt, bools, c) && RowOk(rt, bools, c.child, x)
    requires ReferencedColumns(cond) <= Columns(rt, c) && ReferencedColumns(cond) <= Columns(rt, c.child)
    ensures Eval(cond, ProjectRow(c.columns, OutputNames(rt, c.columns), x)) == Eval(cond, x)
    ensures Raises(cond, ProjectRow(c.columns, OutputNames(rt, c.columns), x)) == Raises(cond, x)
  {
    var r := ProjectRow(c.columns, OutputNames(rt, c.columns), x);
    ProjectFacts(rt, bools, c);
    forall n | n in ReferencedColumns(cond) ensures n in r && n in x && r[n] == x[n] {
      var i := SharedColumn(rt, bools, c, n);
      PlainColumnPassed(rt, c.columns, x, i);
    }
    EvalAgree(cond, r, x);
  }

  lemma FilterFacts(rt: Runtime, bools: set<string>, c: LogicalPlan, cond: Expr)
    requires Optimizable(rt, bools, Filter(c, cond))
    ensures Optimizable(rt, bools, c) && ReferencedColumns(cond) <= Columns(rt, c) && Condition(bools, cond)
  {
  }

  lemma PushBelowProjectShape(rt: Runtime, bools: set<string>, c: LogicalPlan, cond: Expr)
    requires c.Project? && Optimizable(rt, bools, c) && Condition(bools, cond)
    requires ReferencedColumns(cond) <= Columns(rt, c.child)
    ensures var q := Project(Filter(c.child, cond), c.columns);
            Names(rt, q) == Names(rt, c) && AllNames(rt, q) == AllNames(rt, c) && Optimizable(rt, bools, q)
  {
    ProjectFacts(rt, bools, c);
    assert Optimizable(rt, bools, Filter(c.child, cond));
    assert Columns(rt, Filter(c.child, cond)) == Columns(rt, c.child);
  }

  lemma PushBelowProject(rt: Runtime, bools: set<string>, c: LogicalPlan, cond: Expr)
    requires c.Project? && Optimizable(rt, bools, Filter(c, cond))
    requires ReferencedColumns(cond) <= Columns(rt, c.child)
    ensures Refines(rt, bools, Filter(c, cond), Project(Filter(c.child, cond), c.columns))
  {
    FilterFacts(rt, bools, c, cond);
    ProjectFacts(rt, bools, c);
    forall x | x in Rows(rt, c.child)
      ensures Eval(cond, ProjectRow(c.columns, OutputNames(rt, c.columns), x)) == Eval(cond, x)
    {
      RowsOk(rt, bools, c.child, x);
      PassedThrough(rt, bools, c, cond, x);
    }
    FilterBelowProject(cond, c.columns, OutputNames(rt, c.columns), Rows(rt, c.child));
    PushBelowProjectShape(rt, bools, c, cond);
  }

  /** Rows that meet agree on the join columns, so a merged row reads like either. */
  lemma MetRowsShare(on: seq<string>, l: Record, r: Record, n: string)
    requires Meet(JoinOn(on), l, r) && n in on && n in l && n in r
    ensures l[n] == r[n]
  {
    var i :| 0 <= i < |on| && on[i] == n;
    assert EvalAll(JoinOn(on).leftKeys, l)[i] == Eval(Column(n), l) && EvalAll(JoinOn(on).rightKeys, r)[i] == Eval(Column(n), r);
  }

  lemma MergedReadsSides(rt: Runtime, bools: set<string>, c: LogicalPlan, cond: Expr, l: Record, r: Record)
    requires c.Join? && Optimizable(rt, bools, c)
    requires RowOk(rt, bools, c.left, l) && RowOk(rt, bools, c.right, r) && Meet(JoinOn(c.on), l, r)
    ensures ReferencedColumns(cond) <= Columns(rt, c.left) ==> Eval(cond, Merged(JoinOn(c.on), l, r)) == Eval(cond, l)
    ensures ReferencedColumns(cond) <= Columns(rt, c.right) ==> Eval(cond, Merged(JoinOn(c.on), l, r)) == Eval(cond, r)
  {
    hide Meet, Eval, ReferencedColumns;
    var m := Merged(JoinOn(c.on), l, r);
    JoinFacts(rt, bools, c);
    hide Analyzed, FreshAliases, BooleansOk, Names;
    forall n | n in l && n in r ensures l[n] == r[n] {
      assert n in Columns(rt, c.left) * Columns(rt, c.right);
      assert n in NameSet(c.on);
      MetRowsShare(c.on, l, r, n);
    }
    if ReferencedColumns(cond) <= Columns(rt, c.left) { EvalAgree(cond, m, l); }
    if ReferencedColumns(cond) <= Columns(rt, c.right) { EvalAgree(cond, m, r); }
  }

  lemma JoinFacts(rt: Runtime, bools: set<string>, c: LogicalPlan)
    requires c.Join? && Optimizable(rt, bools, c)
    ensures Optimizable(rt, bools, c.left) && Optimizable(rt, bools, c.right) && c.on != []
    ensures NameSet(c.on) <= Columns(rt, c.left) && NameSet(c.on) <= Columns(rt, c.right)
    ensures Columns(rt, c.left) * Columns(rt, c.right) <= NameSet(c.on)
  {
  }

  lemma FilterWithin(rt: Runtime, bools: set<string>, c: LogicalPlan, cond: Expr)
    requires Optimizable(rt, bools, c) && ReferencedColumns(cond) <= Columns(rt, c) && Condition(bools, cond)
    ensures var q := Filter(c, cond);
            Optimizable(rt, bools, q) && Names(rt, q) == Names(rt, c) && AllNames(rt, q) == AllNames(rt, c)
  {
  }

  /** A join over sides with the same columns is as good a plan. */
  lemma JoinShape(rt: Runtime, bools: set<string>, c: LogicalPlan, l: LogicalPlan, r: LogicalPlan)
    requires c.Join? && Optimizable(rt, bools, c) && Optimizable(rt, bools, l) && Optimizable(rt, bools, r)
    requires Names(rt, l) == Names(rt, c.left) && Names(rt, r) == Names(rt, c.right)
    requires AllNames(rt, l) <= AllNames(rt, c.left) && AllNames(rt, r) <= AllNames(rt, c.right)
    ensures var q := Join(l, r, c.on, c.broadcast);
            Optimizable(rt, bools, q) && Names(rt, q) == Names(rt, c) && AllNames(rt, q) <= AllNames(rt, c)
  {
  }

  lemma PushBelowJoinRows(rt: Runtime, bools: set<string>, c: LogicalPlan, cond: Expr)
    requires c.Join? && Optimizable(rt, bools, c)
    ensures ReferencedColumns(cond) <= Columns(rt, c.left) ==>
              FilterRows(cond, Rows(rt, c)) == JoinRows(JoinOn(c.on), FilterRows(cond, Rows(rt, c.left)), Rows(rt, c.right))
    ensures ReferencedColumns(cond) <= Columns(rt, c.right) ==>
              FilterRows(cond, Rows(rt, c)) == JoinRows(JoinOn(c.on), Rows(rt, c.left), FilterRows(cond, Rows(rt, c.right)))
  {
    JoinFacts(rt, bools, c);
    var j, left, right := JoinOn(c.on), Rows(rt, c.left), Rows(rt, c.right);
    forall l, r | l in left && r in right && Meet(j, l, r)
      ensures ReferencedColumns(cond) <= Columns(rt, c.left) ==> Eval(cond, Merged(j, l, r)) == Eval(cond, l)
      ensures ReferencedColumns(cond) <= Columns(rt, c.right) ==> Eval(cond, Merged(j, l, r)) == Eval(cond, r)
    {
      RowsOk(rt, bools, c.left, l);
      RowsOk(rt, bools, c.right, r);
      MergedReadsSides(rt, bools, c, cond, l, r);
    }
    if ReferencedColumns(cond) <= Columns(rt, c.left) { FilterIntoLeft(cond, j, left, right); }
    if ReferencedColumns(cond) <= Columns(rt, c.right) { FilterIntoRight(cond, j, left, right); }
  }

  lemma PushBelowJoin(rt: Runtime, bools: set<string>, c: LogicalPlan, cond: Expr)
    requires c.Join? && Optimizable(rt, bools, Filter(c, cond))
    ensures ReferencedColumns(cond) <= Columns(rt, c.left) ==>
              Refines(rt, bools, Filter(c, cond), Join(Filter(c.left, cond), c.right, c.on, c.broadcast))
    ensures ReferencedColumns(cond) <= Columns(rt, c.right) ==>
              Refines(rt, bools, Filter(c, cond), Join(c.left, Filter(c.right, cond), c.on, c.broadcast))
  {
    FilterFacts(rt, bools, c, cond);
    JoinFacts(rt, bools, c);
    PushBelowJoinRows(rt, bools, c, cond);
    if ReferencedColumns(cond) <= Columns(rt, c.left) {
      FilterWithin(rt, bools, c.left, cond);
      JoinShape(rt, bools, c, Filter(c.left, cond), c.right);
    }
    if ReferencedColumns(cond) <= Columns(rt, c.right) {
      FilterWithin(rt, bools, c.right, cond);
      JoinShape(rt, bools, c, c.left, Filter(c.right, cond));
    }
  }

  lemma RefinesTrans(rt: Runtime, bools: set<string>, p: LogicalPlan, q: LogicalPlan, s: LogicalPlan)
    requires Refines(rt, bools, p, q) && Refines(rt, bools, q, s)
    ensures Refines(rt, bools, p, s)
  {
  }

  lemma FilterOver(rt: Runtime, bools: set<string>, p: LogicalPlan, q: LogicalPlan)
    requires p.Filter? && Optimizable(rt, bools, p) && Refines(rt, bools, p.child, q)
    ensures Refines(rt, bools, p, Filter(q, p.condition))
  {
    FilterFacts(rt, bools, p.child, p.condition);
    FilterWithin(rt, bools, q, p.condition);
  }

  lemma ProjectFacts(rt: Runtime, bools: set<string>, c: LogicalPlan)
    requires c.Project? && Optimizable(rt, bools, c)
    ensures Optimizable(rt, bools, c.child) && Columns(rt, c.child) <= AllNames(rt, c.child)
    ensures ReferencedByAll(c.columns) <= Columns(rt, c.child) && NoDuplicates(OutputNames(rt, c.columns))
    ensures forall i :: 0 <= i < |c.columns| ==>
              c.columns[i].Column? || (c.columns[i].Alias? && c.columns[i].name !in AllNames(rt, c.child))
    ensures forall i :: 0 <= i < |c.columns| ==> ReferencedColumns(c.columns[i]) <= Columns(rt, c.child)
  {
    NamesAreIn(rt, c.child);
    forall i | 0 <= i < |c.columns| ensures ReferencedColumns(c.columns[i]) <= Columns(rt, c.child) {
      assert ReferencedColumns(c.columns[i]) <= ReferencedByAll(c.columns);
    }
  }

  /** A Project may move onto another child that still has what it reads. */
  lemma ProjectShape(rt: Runtime, bools: set<string>, p: LogicalPlan, q: LogicalPlan)
    requires p.Project? && Optimizable(rt, bools, p) && Optimizable(rt, bools, q)
    requires ReferencedByAll(p.columns) <= Columns(rt, q) && AllNames(rt, q) <= AllNames(rt, p.child)
    ensures var d := Project(q, p.columns);
            Optimizable(rt, bools, d) && Names(rt, d) == Names(rt, p) && AllNames(rt, d) <= AllNames(rt, p)
  {
  }

  lemma ProjectOver(rt: Runtime, bools: set<string>, p: LogicalPlan, q: LogicalPlan)
    requires p.Project? && Optimizable(rt, bools, p) && Refines(rt, bools, p.child, q)
    ensures Refines(rt, bools, p, Project(q, p.columns))
  {
    ProjectFacts(rt, bools, p);
    ProjectShape(rt, bools, p, q);
  }

  lemma AggregationFacts(rt: Runtime, bools: set<string>, p: LogicalPlan)
    requires p.Aggregation? && Optimizable(rt, bools, p)
    ensures Optimizable(rt, bools, p.child)
    ensures ReferencedByAll(p.groupBy) + ReferencedByAll(p.aggregates) <= Columns(rt, p.child)
  {
  }

  lemma AggregationShape(rt: Runtime, bools: set<string>, p: LogicalPlan, q: LogicalPlan)
    requires p.Aggregation? && Optimizable(rt, bools, p) && Optimizable(rt, bools, q)
    requires ReferencedByAll(p.groupBy) + ReferencedByAll(p.aggregates) <= Columns(rt, q)
    requires AllNames(rt, q) <= AllNames(rt, p.child)
    ensures var d := Aggregation(q, p.groupBy, p.aggregates);
            Optimizable(rt, bools, d) && Names(rt, d) == Names(rt, p) && AllNames(rt, d) <= AllNames(rt, p)
  {
  }

  lemma AggregationOver(rt: Runtime, bools: set<string>, p: LogicalPlan, q: LogicalPlan)
    requires p.Aggregation? && Optimizable(rt, bools, p) && Refines(rt, bools, p.child, q)
    ensures Refines(rt, bools, p, Aggregation(q, p.groupBy, p.aggregates))
  {
    AggregationFacts(rt, bools, p);
    AggregationShape(rt, bools, p, q);
  }

  lemma SortFacts(rt: Runtime, bools: set<string>, p: LogicalPlan)
    requires p.Sort? && Optimizable(rt, bools, p)
    ensures Optimizable(rt, bools, p.child) && KeyColumns(p.keys) <= Columns(rt, p.child)
  {
  }

  lemma SortShape(rt: Runtime, bools: set<string>, p: LogicalPlan, q: LogicalPlan)
    requires p.Sort? && Optimizable(rt, bools, p) && Optimizable(rt, bools, q) && KeyColumns(p.keys) <= Columns(rt, q)
    ensures Optimizable(rt, bools, Sort(q, p.keys))
  {
  }

  lemma SortOver(rt: Runtime, bools: set<string>, p: LogicalPlan, q: LogicalPlan)
    requires p.Sort? && Optimizable(rt, bools, p) && Refines(rt, bools, p.child, q)
    ensures Refines(rt, bools, p, Sort(q, p.keys))
  {
    SortFacts(rt, bools, p);
    SortShape(rt, bools, p, q);
  }

  lemma JoinOver(rt: Runtime, bools: set<string>, p: LogicalPlan, l: LogicalPlan, r: LogicalPlan)
    requires p.Join? && Optimizable(rt, bools, p)
    requires Refines(rt, bools, p.left, l) && Refines(rt, bools, p.right, r)
    ensures Refines(rt, bools, p, Join(l, r, p.on, p.broadcast))
  {
    JoinShape(rt, bools, p, l, r);
  }

  lemma PushFilterRefines(rt: Runtime, bools: set<string>, c: LogicalPlan, cond: Expr)
    requires Optimizable(rt, bools, Filter(c, cond))
    ensures Refines(rt, bools, Filter(c, cond), PushFilter(rt, c, cond))
  {
    if c.Project? && ReferencedColumns(cond) <= Columns(rt, c.child) {
      PushBelowProject(rt, bools, c, cond);
    } else if c.Join? {
      PushBelowJoin(rt, bools, c, cond);
    }
  }

  /** PredicatePushdown keeps the plan's rows. */
  lemma {:induction false} PushdownRefines(rt: Runtime, bools: set<string>, p: LogicalPlan)
    requires Optimizable(rt, bools, p)
    ensures Refines(rt, bools, p, Pushdown(rt, p))
  {
    hide Analyzed, FreshAliases, BooleansOk, Rows, Names, AllNames;
    match p
    case Scan(_, _, _, _) =>
    case Project(c, _) =>
      ProjectFacts(rt, bools, p);
      PushdownRefines(rt, bools, c);
      ProjectOver(rt, bools, p, Pushdown(rt, c));
    case Aggregation(c, _, _) =>
      AggregationFacts(rt, bools, p);
      PushdownRefines(rt, bools, c);
      AggregationOver(rt, bools, p, Pushdown(rt, c));
    case Join(l, r, _, _) =>
      JoinFacts(rt, bools, p);
      PushdownRefines(rt, bools, l);
      PushdownRefines(rt, bools, r);
      JoinOver(rt, bools, p, Pushdown(rt, l), Pushdown(rt, r));
    case Sort(c, _) =>
      SortFacts(rt, bools, p);
      PushdownRefines(rt, bools, c);
      SortOver(rt, bools, p, Pushdown(rt, c));
    case Filter(c, cond) =>
      FilterFacts(rt, bools, c, cond);
      PushdownRefines(rt, bools, c);
      FilterOver(rt, bools, p, Pushdown(rt, c));
      PushFilterRefines(rt, bools, Pushdown(rt, c), cond);
      RefinesTrans(rt, bools, p, Filter(Pushdown(rt, c), cond), Pushdown(rt, p));
  }

  // ---- RedundantProjectionElimination --------------------------------------

  predicate PlainColumns(cols: seq<Expr>) {
    forall i :: 0 <= i < |cols| ==> cols[i].Column?
  }

  predicate IsPlainProjection(p: LogicalPlan) {
    p.Project? && PlainColumns(p.columns)
  }

  function EliminateProject(rt: Runtime, c: LogicalPlan, cols: seq<Expr>): LogicalPlan {
    if PlainColumns(cols) && OutputNames(rt, cols) == Names(rt, c) then c
    else if IsPlainProjection(c) then Project(c.child, cols)
    else Project(c, cols)
  }

  function Eliminate(rt: Runtime, p: LogicalPlan): LogicalPlan {
    match p
    case Scan(_, _, _, _) => p
    case Filter(c, cond) => Filter(Eliminate(rt, c), cond)
    case Aggregation(c, g, a) => Aggregation(Eliminate(rt, c), g, a)
    case Join(l, r, on, b) => Join(Eliminate(rt, l), Eliminate(rt, r), on, b)
    case Sort(c, ks) => Sort(Eliminate(rt, c), ks)
    case Project(c, cols) => EliminateProject(rt, Eliminate(rt, c), cols)
  }

  /** A plain projection passes every column it keeps through unchanged. */
  lemma PlainRow(rt: Runtime, cols: seq<Expr>, x: Record)
    requires PlainColumns(cols) && NoDuplicates(OutputNames(rt, cols)) && ReferencedByAll(cols) <= x.Keys
    ensures var r := ProjectRow(cols, OutputNames(rt, cols), x);
            r.Keys == NameSet(OutputNames(rt, cols)) && Agree(r.Keys, r, x)
  {
    var names, vs := OutputNames(rt, cols), EvalAll(cols, x);
    var r := RowFrom(names, vs);
    forall n | n in names ensures n in r && n in x && r[n] == x[n] {
      var i :| 0 <= i < |names| && names[i] == n;
      RowFromAt(names, vs, i);
      assert ReferencedColumns(cols[i]) <= ReferencedByAll(cols);
    }
  }

  lemma IdentityProjection(rt: Runtime, bools: set<string>, c: LogicalPlan, cols: seq<Expr>)
    requires Optimizable(rt, bools, Project(c, cols)) && PlainColumns(cols) && OutputNames(rt, cols) == Names(rt, c)
    ensures Refines(rt, bools, Project(c, cols), c)
  {
    var p, rows := Project(c, cols), Rows(rt, c);
    ProjectFacts(rt, bools, p);
    forall i | 0 <= i < |rows| ensures Rows(rt, p)[i] == rows[i] {
      RowsOk(rt, bools, c, rows[i]);
      PlainRow(rt, cols, rows[i]);
      SameRecord(ProjectRow(cols, OutputNames(rt, cols), rows[i]), rows[i]);
    }
  }

  lemma SameRecord(a: Record, b: Record)
    requires a.Keys == b.Keys && Agree(a.Keys, a, b)
    ensures a == b
  {
    assert forall n :: n in a ==> n in a.Keys;
  }

  lemma CollapseRow(rt: Runtime, outer: seq<Expr>, inner: seq<Expr>, x: Record)
    requires PlainColumns(inner) && NoDuplicates(OutputNames(rt, inner)) && ReferencedByAll(inner) <= x.Keys
    requires ReferencedByAll(outer) <= NameSet(OutputNames(rt, inner))
    ensures EvalAll(outer, ProjectRow(inner, OutputNames(rt, inner), x)) == EvalAll(outer, x)
  {
    PlainRow(rt, inner, x);
    EvalAllAgree(outer, ProjectRow(inner, OutputNames(rt, inner), x), x);
  }

  lemma PlainColumnsKept(rt: Runtime, cols: seq<Expr>)
    requires PlainColumns(cols)
    ensures NameSet(OutputNames(rt, cols)) <= ReferencedByAll(cols)
  {
    var names := OutputNames(rt, cols);
    forall n | n in names ensures n in ReferencedByAll(cols) {
      var i :| 0 <= i < |names| && names[i] == n;
      assert ReferencedColumns(cols[i]) <= ReferencedByAll(cols);
    }
  }

  lemma CollapseShape(rt: Runtime, bools: set<string>, c: LogicalPlan, cols: seq<Expr>)
    requires Optimizable(rt, bools, Project(c, cols)) && Optimizable(rt, bools, c) && IsPlainProjection(c)
    ensures var q := Project(c.child, cols);
            AllNames(rt, q) <= AllNames(rt, Project(c, cols)) && Optimizable(rt, bools, q)
  {
    ProjectFacts(rt, bools, Project(c, cols));
    ProjectFacts(rt, bools, c);
    PlainColumnsKept(rt, c.columns);
    assert AllNames(rt, c.child) <= AllNames(rt, c);
    assert ReferencedByAll(cols) <= Columns(rt, c.child);
  }

  lemma CollapseProjection(rt: Runtime, bools: set<string>, c: LogicalPlan, cols: seq<Expr>)
    requires Optimizable(rt, bools, Project(c, cols)) && IsPlainProjection(c)
    ensures Refines(rt, bools, Project(c, cols), Project(c.child, cols))
  {
    ProjectFacts(rt, bools, Project(c, cols));
    ProjectFacts(rt, bools, c);
    var names, inner, rows := OutputNames(rt, cols), OutputNames(rt, c.columns), Rows(rt, c.child);
    assert Rows(rt, c) == ProjectRows(c.columns, inner, rows);
    forall i | 0 <= i < |rows|
      ensures ProjectRow(cols, names, ProjectRow(c.columns, inner, rows[i])) == ProjectRow(cols, names, rows[i])
    {
      RowsOk(rt, bools, c.child, rows[i]);
      CollapseRow(rt, cols, c.columns, rows[i]);
    }
    assert ProjectRows(cols, names, ProjectRows(c.columns, inner, rows)) == ProjectRows(cols, names, rows);
    CollapseShape(rt, bools, c, cols);
  }

  /** RedundantProjectionElimination keeps the plan's rows. */
  lemma {:induction false} EliminateRefines(rt: Runtime, bools: set<string>, p: LogicalPlan)
    requires Optimizable(rt, bools, p)
    ensures Refines(rt, bools, p, Eliminate(rt, p))
  {
    hide Analyzed, FreshAliases, BooleansOk, Rows, Names, AllNames;
    match p
    case Scan(_, _, _, _) =>
    case Filter(c, cond) =>
      FilterFacts(rt, bools, c, cond);
      EliminateRefines(rt, bools, c);
      FilterOver(rt, bools, p, Eliminate(rt, c));
    case Aggregation(c, _, _) =>
      AggregationFacts(rt, bools, p);
      EliminateRefines(rt, bools, c);
      AggregationOver(rt, bools, p, Eliminate(rt, c));
    case Join(l, r, _, _) =>
      JoinFacts(rt, bools, p);
      EliminateRefines(rt, bools, l);
      EliminateRefines(rt, bools, r);
      JoinOver(rt, bools, p, Eliminate(rt, l), Eliminate(rt, r));
    case Sort(c, _) =>
      SortFacts(rt, bools, p);
      EliminateRefines(rt, bools, c);
      SortOver(rt, bools, p, Eliminate(rt, c));
    case Project(c, cols) =>
      ProjectFacts(rt, bools, p);
      EliminateRefines(rt, bools, c);
      var d := Eliminate(rt, c);
      ProjectOver(rt, bools, p, d);
      if PlainColumns(cols) && OutputNames(rt, cols) == Names(rt, d) {
        IdentityProjection(rt, bools, d, cols);
      } else if IsPlainProjection(d) {
        CollapseProjection(rt, bools, d, cols);
      }
      RefinesTrans(rt, bools, p, Project(d, cols), Eliminate(rt, p));
  }
}
