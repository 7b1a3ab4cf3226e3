/**
 The rules also keep what distributed execution relies on (Logical.Executable), and
 never make a sort split a range it did not split before: no rule types a column as a
 number that was not typed so, nor turns a plan into one that can be run while planning
 (minispark/optimizer/rules.py, minispark/logical/nodes.py `_output_field`).
 */
module ExecutablePlans {
  import opened Options
  import opened Values
  import opened Expressions
  import opened ExpressionRules
  import opened Sequences
  import opened Sorting
  import opened AggregateFunctions
  import opened GroupTables
  import opened Joins
  import opened RowOperators
  import opened Logical
  import opened PlanRules
  import opened Pruning
  import opened Optimizers

  ghost predicate Carries(rt: Runtime, p: LogicalPlan, q: LogicalPlan) {
    && Executable(rt, q)
    && NumericColumns(rt, q) <= NumericColumns(rt, p)
    && (RowByRow(q) ==> RowByRow(p))
    && (Straight(p) ==> Straight(q))
  }

  // ---- one node ------------------------------------------------------------

  lemma ProjectCarries(rt: Runtime, p: LogicalPlan, q: LogicalPlan)
    requires p.Project? && Executable(rt, p) && Carries(rt, p.child, q)
    ensures Carries(rt, p, Project(q, p.columns))
  {
    NumericOutputsGrow(rt, p.columns, NumericColumns(rt, q), NumericColumns(rt, p.child));
  }

  lemma AggregationCarries(rt: Runtime, p: LogicalPlan, q: LogicalPlan)
    requires p.Aggregation? && Executable(rt, p) && Carries(rt, p.child, q)
    requires Commuting(Partial(p.groupBy, p.aggregates), Rows(rt, p.child)) ==> Commuting(Partial(p.groupBy, p.aggregates), Rows(rt, q))
    ensures Carries(rt, p, Aggregation(q, p.groupBy, p.aggregates))
  {
    hide Commuting, Unspilled, Groupable;
    NumericOutputsGrow(rt, p.groupBy, NumericColumns(rt, q), NumericColumns(rt, p.child));
    NumericOutputsGrow(rt, p.aggregates, NumericColumns(rt, q), NumericColumns(rt, p.child));
  }

  lemma JoinCarries(rt: Runtime, p: LogicalPlan, l: LogicalPlan, r: LogicalPlan)
    requires p.Join? && Executable(rt, p) && Carries(rt, p.left, l) && Carries(rt, p.right, r)
    ensures Carries(rt, p, Join(l, r, p.on, p.broadcast))
  {
  }

  lemma KeysSplitCarries(rt: Runtime, c: LogicalPlan, q: LogicalPlan, ks: seq<SortKey>)
    requires KeysSplit(rt, c, ks) && Carries(rt, c, q) && AgreeRows(KeyColumns(ks), Rows(rt, q), Rows(rt, c))
    ensures KeysSplit(rt, q, ks)
  {
    hide Rows, NumericColumns, RowByRow;
    if SplitsRange(rt, q, ks) {
      assert SplitsRange(rt, c, ks);
      forall r | r in Rows(rt, q) ensures exists x :: x in Rows(rt, c) && Eval(ks[0].expr, x) == Eval(ks[0].expr, r) {
        var i :| 0 <= i < |Rows(rt, q)| && Rows(rt, q)[i] == r;
        assert Rows(rt, c)[i] in Rows(rt, c);
        EvalAgree(ks[0].expr, r, Rows(rt, c)[i]);
      }
    }
  }

  lemma SortCarries(rt: Runtime, p: LogicalPlan, q: LogicalPlan)
    requires p.Sort? && Executable(rt, p) && Carries(rt, p.child, q)
    requires AgreeRows(KeyColumns(p.keys), Rows(rt, q), Rows(rt, p.child))
    ensures Carries(rt, p, Sort(q, p.keys))
  {
    KeysSplitCarries(rt, p.child, q, p.keys);
  }

  lemma SameRowsAgree(cols: set<string>, a: seq<Record>)
    ensures AgreeRows(cols, a, a)
  {
  }

  lemma CarriesTrans(rt: Runtime, p: LogicalPlan, q: LogicalPlan, s: LogicalPlan)
    requires Carries(rt, p, q) && Carries(rt, q, s)
    ensures Carries(rt, p, s)
  {
  }

  // ---- rewritten expressions -----------------------------------------------

  /** A rewritten column is a plain reference only if it was, or if it is boolean. */
  ghost predicate KeepsTypes(bools: set<string>, e: Expr, d: Expr) {
    BooleanOperands(bools, e) && UnwrapAlias(d).Column? ==> UnwrapAlias(d) == UnwrapAlias(e) || UnwrapAlias(d).name in bools
  }

  lemma FoldKeepsTypes(bools: set<string>, e: Expr)
    ensures KeepsTypes(bools, e, Fold(e))
  {
    if e.Alias? { FoldKeepsKind(e.child); }
  }

  lemma SimplifyKeepsTypes(bools: set<string>, e: Expr)
    ensures KeepsTypes(bools, e, Simplify(e))
  {
    if BooleanOperands(bools, e) {
      SimplifyKeepsBoolean(bools, e);
      if e.Alias? { SimplifyKeepsBoolean(bools, e.child); }
    }
  }

  lemma {:induction false} MapOutputsGrow(rt: Runtime, bools: set<string>, f: Expr -> Expr, es: seq<Expr>,
                                          some: set<string>, all: set<string>)
    requires forall i :: 0 <= i < |es| ==> BooleanOperands(bools, es[i]) && (es[i].Column? || es[i].Alias?)
    requires forall e :: KeepsShape(e, f(e)) && KeepsTypes(bools, e, f(e))
    requires some <= all && bools !! all
    ensures NumericOutputs(rt, MapAll(f, es), some) <= NumericOutputs(rt, es, all)
  {
    if es != [] {
      assert KeepsShape(es[0], f(es[0])) && KeepsTypes(bools, es[0], f(es[0]));
      assert MapAll(f, es)[1..] == MapAll(f, es[1..]);
      MapOutputsGrow(rt, bools, f, es[1..], some, all);
    }
  }

  lemma MapProjectCarries(rt: Runtime, bools: set<string>, p: LogicalPlan, f: Expr -> Expr, q: LogicalPlan)
    requires p.Project? && Optimizable(rt, bools, p) && Executable(rt, p) && Carries(rt, p.child, q)
    requires forall e :: KeepsShape(e, f(e)) && KeepsTypes(bools, e, f(e))
    ensures Carries(rt, p, Project(q, MapAll(f, p.columns)))
  {
    ProjectFacts(rt, bools, p);
    BooleansNotNumeric(rt, bools, p.child);
    MapOutputsGrow(rt, bools, f, p.columns, NumericColumns(rt, q), NumericColumns(rt, p.child));
  }

  lemma {:induction false} MapCarries(rt: Runtime, bools: set<string>, p: LogicalPlan, f: Expr -> Expr)
    requires GoodRewrite(bools, f) && (forall e :: KeepsShape(e, f(e)) && KeepsTypes(bools, e, f(e)))
    requires Optimizable(rt, bools, p) && Executable(rt, p)
    ensures Carries(rt, p, MapExpressions(p, f))
  {
    hide Analyzed, FreshAliases, BooleansOk, Rows, Names, AllNames, Commuting, Unspilled, Groupable;
    match p
    case Scan(_, _, _, _) =>
    case Filter(c, cond) => FilterFacts(rt, bools, c, cond); MapCarries(rt, bools, c, f);
    case Project(c, cols) =>
      ProjectFacts(rt, bools, p);
      MapCarries(rt, bools, c, f);
      MapProjectCarries(rt, bools, p, f, MapExpressions(c, f));
    case Aggregation(c, g, a) =>
      AggregationFacts(rt, bools, p);
      MapCarries(rt, bools, c, f);
      MapExpressionsRefines(rt, bools, c, f);
      MapAggregation(rt, bools, p, f);
      AggregationCarries(rt, p, MapExpressions(c, f));
    case Join(l, r, _, _) =>
      JoinFacts(rt, bools, p);
      MapCarries(rt, bools, l, f);
      MapCarries(rt, bools, r, f);
      JoinCarries(rt, p, MapExpressions(l, f), MapExpressions(r, f));
    case Sort(c, ks) =>
      SortFacts(rt, bools, p);
      MapCarries(rt, bools, c, f);
      MapExpressionsRefines(rt, bools, c, f);
      MapSort(rt, bools, p, f);
      SameRowsAgree(KeyColumns(ks), Rows(rt, c));
      SortCarries(rt, p, MapExpressions(c, f));
  }

  // ---- the other rules -----------------------------------------------------

  /** A filter makes no difference here. */
  lemma FilterCarries(rt: Runtime, c: LogicalPlan, cond: Expr)
    requires Executable(rt, c)
    ensures Carries(rt, c, c) && Carries(rt, c, Filter(c, cond)) && Carries(rt, Filter(c, cond), c)
  {
    hide Settled, Groupable, KeysSplit;
  }

  lemma PushFilterCarries(rt: Runtime, c: LogicalPlan, cond: Expr)
    requires Executable(rt, c)
    ensures Carries(rt, Filter(c, cond), PushFilter(rt, c, cond))
  {
    hide Carries, Settled, Groupable, KeysSplit;
    FilterCarries(rt, c, cond);
    if c.Project? {
      FilterCarries(rt, c.child, cond);
      ProjectCarries(rt, c, Filter(c.child, cond));
      CarriesTrans(rt, Filter(c, cond), c, Project(Filter(c.child, cond), c.columns));
    } else if c.Join? {
      FilterCarries(rt, c.left, cond);
      FilterCarries(rt, c.right, cond);
      JoinCarries(rt, c, Filter(c.left, cond), c.right);
      JoinCarries(rt, c, c.left, Filter(c.right, cond));
      CarriesTrans(rt, Filter(c, cond), c, Join(Filter(c.left, cond), c.right, c.on, c.broadcast));
      CarriesTrans(rt, Filter(c, cond), c, Join(c.left, Filter(c.right, cond), c.on, c.broadcast));
    }
    SelfCarries(rt, Filter(c, cond));
  }

  lemma SelfCarries(rt: Runtime, p: LogicalPlan)
    requires Executable(rt, p)
    ensures Carries(rt, p, p)
  {
  }

  lemma {:induction false} PushdownCarries(rt: Runtime, bools: set<string>, p: LogicalPlan)
    requires Optimizable(rt, bools, p) && Executable(rt, p)
    ensures Carries(rt, p, Pushdown(rt, p))
  {
    hide Analyzed, FreshAliases, BooleansOk, Rows, Names, AllNames, Commuting, Unspilled, Groupable;
    match p
    case Scan(_, _, _, _) =>
    case Project(c, _) =>
      ProjectFacts(rt, bools, p);
      PushdownCarries(rt, bools, c);
      ProjectCarries(rt, p, Pushdown(rt, c));
    case Aggregation(c, _, _) =>
      AggregationFacts(rt, bools, p);
      PushdownCarries(rt, bools, c);
      PushdownRefines(rt, bools, c);
      AggregationCarries(rt, p, Pushdown(rt, c));
    case Join(l, r, _, _) =>
      JoinFacts(rt, bools, p);
      PushdownCarries(rt, bools, l);
      PushdownCarries(rt, bools, r);
      JoinCarries(rt, p, Pushdown(rt, l), Pushdown(rt, r));
    case Sort(c, ks) =>
      SortFacts(rt, bools, p);
      PushdownCarries(rt, bools, c);
      PushdownRefines(rt, bools, c);
      SameRowsAgree(KeyColumns(ks), Rows(rt, c));
      SortCarries(rt, p, Pushdown(rt, c));
    case Filter(c, cond) =>
      FilterFacts(rt, bools, c, cond);
      PushdownCarries(rt, bools, c);
      PushFilterCarries(rt, Pushdown(rt, c), cond);
      CarriesTrans(rt, p, Filter(Pushdown(rt, c), cond), Pushdown(rt, p));
  }

  lemma {:induction false} NumericPlain(rt: Runtime, cols: seq<Expr>, numeric: set<string>)
    requires PlainColumns(cols)
    ensures NumericOutputs(rt, cols, numeric) == numeric * NameSet(OutputNames(rt, cols))
  {
    if cols != [] {
      NumericPlain(rt, cols[1..], numeric);
      var names := OutputNames(rt, cols);
      assert names == [cols[0].name] + OutputNames(rt, cols[1..]);
      assert NameSet(names) == {cols[0].name} + NameSet(OutputNames(rt, cols[1..]));
    }
  }

  lemma {:induction false} NumericOutputsWithin(rt: Runtime, es: seq<Expr>, numeric: set<string>, own: set<string>)
    requires ReferencedByAll(es) <= own
    ensures NumericOutputs(rt, es, numeric) == NumericOutputs(rt, es, numeric * own)
  {
    if es != [] {
      NumericOutputsWithin(rt, es[1..], numeric, own);
      assert UnwrapAlias(es[0]).Column? ==> UnwrapAlias(es[0]).name in ReferencedColumns(es[0]);
    }
  }

  lemma {:induction false} NumericOutputsNamed(rt: Runtime, es: seq<Expr>, numeric: set<string>)
    ensures NumericOutputs(rt, es, numeric) + NumericAggregates(rt, es, numeric) <= NameSet(OutputNames(rt, es))
  {
    if es != [] {
      NumericOutputsNamed(rt, es[1..], numeric);
      assert OutputNames(rt, es) == [OutputName(rt, es[0])] + OutputNames(rt, es[1..]);
    }
  }

  lemma {:induction false} NumericAreColumns(rt: Runtime, p: LogicalPlan)
    ensures NumericColumns(rt, p) <= Columns(rt, p)
  {
    match p
    case Scan(_, _, _, _) =>
    case Filter(c, _) => NumericAreColumns(rt, c);
    case Project(c, cols) => NumericOutputsNamed(rt, cols, NumericColumns(rt, c));
    case Aggregation(c, g, a) =>
      NumericOutputsNamed(rt, g, NumericColumns(rt, c));
      NumericOutputsNamed(rt, a, NumericColumns(rt, c));
    case Join(l, r, _, _) => NumericAreColumns(rt, l); NumericAreColumns(rt, r); JoinColumns(rt, p);
    case Sort(c, _) => NumericAreColumns(rt, c);
  }

  lemma EliminateProjectCarries(rt: Runtime, bools: set<string>, c: LogicalPlan, cols: seq<Expr>)
    requires Optimizable(rt, bools, Project(c, cols)) && Executable(rt, c)
    ensures Carries(rt, Project(c, cols), EliminateProject(rt, c, cols))
  {
    hide Settled, Groupable, KeysSplit, Rows, Analyzed, FreshAliases, BooleansOk, RowByRow, Straight;
    ProjectFacts(rt, bools, Project(c, cols));
    if PlainColumns(cols) && OutputNames(rt, cols) == Names(rt, c) {
      UnprojectedCarries(rt, c, cols);
    } else if IsPlainProjection(c) {
      CollapsedCarries(rt, c, cols);
    } else {
      SelfCarries(rt, Project(c, cols));
    }
  }

  lemma UnprojectedCarries(rt: Runtime, c: LogicalPlan, cols: seq<Expr>)
    requires Executable(rt, c) && PlainColumns(cols) && OutputNames(rt, cols) == Names(rt, c)
    ensures Carries(rt, Project(c, cols), c)
  {
    NumericPlain(rt, cols, NumericColumns(rt, c));
    NumericAreColumns(rt, c);
    assert NumericColumns(rt, c) == NumericColumns(rt, Project(c, cols));
    hide Executable, NumericColumns;
  }

  lemma CollapsedCarries(rt: Runtime, c: LogicalPlan, cols: seq<Expr>)
    requires Executable(rt, c) && IsPlainProjection(c) && ReferencedByAll(cols) <= Columns(rt, c)
    ensures Carries(rt, Project(c, cols), Project(c.child, cols))
  {
    hide Settled, Groupable, KeysSplit, Rows;
    var q := Project(c.child, cols);
    assert NumericColumns(rt, Project(c, cols)) == NumericColumns(rt, q) by {
      NumericPlain(rt, c.columns, NumericColumns(rt, c.child));
      NumericOutputsWithin(rt, cols, NumericColumns(rt, c.child), Columns(rt, c));
    }
    assert RowByRow(q) == RowByRow(c.child) == RowByRow(c);
    assert Straight(q) == Straight(c.child) == Straight(c);
  }

  lemma {:induction false} EliminateCarries(rt: Runtime, bools: set<string>, p: LogicalPlan)
    requires Optimizable(rt, bools, p) && Executable(rt, p)
    ensures Carries(rt, p, Eliminate(rt, p))
  {
    hide Analyzed, FreshAliases, BooleansOk, Rows, Names, AllNames, Commuting, Unspilled, Groupable;
    match p
    case Scan(_, _, _, _) =>
    case Filter(c, cond) => FilterFacts(rt, bools, c, cond); EliminateCarries(rt, bools, c);
    case Project(c, cols) =>
      ProjectFacts(rt, bools, p);
      EliminateCarries(rt, bools, c);
      EliminateRefines(rt, bools, c);
      var d := Eliminate(rt, c);
      ProjectOver(rt, bools, p, d);
      ProjectCarries(rt, p, d);
      EliminateProjectCarries(rt, bools, d, cols);
      CarriesTrans(rt, p, Project(d, cols), Eliminate(rt, p));
    case Aggregation(c, _, _) =>
      AggregationFacts(rt, bools, p);
      EliminateCarries(rt, bools, c);
      EliminateRefines(rt, bools, c);
      AggregationCarries(rt, p, Eliminate(rt, c));
    case Join(l, r, _, _) =>
      JoinFacts(rt, bools, p);
      EliminateCarries(rt, bools, l);
      EliminateCarries(rt, bools, r);
      JoinCarries(rt, p, Eliminate(rt, l), Eliminate(rt, r));
    case Sort(c, ks) =>
      SortFacts(rt, bools, p);
      EliminateCarries(rt, bools, c);
      EliminateRefines(rt, bools, c);
      SameRowsAgree(KeyColumns(ks), Rows(rt, c));
      SortCarries(rt, p, Eliminate(rt, c));
  }

  lemma PruneScanCarries(rt: Runtime, p: LogicalPlan, needed: set<string>)
    requires p.Scan?
    ensures Carries(rt, p, PruneScan(p, needed))
  {
    var keep := Keeping(p.names, needed);
    NumericPlain(rt, ColumnsOf(keep), NumericColumns(rt, p));
  }

  lemma CommutingAgree(h: HashAgg, a: seq<Record>, b: seq<Record>)
    requires h.isPartial && Commuting(h, b) && AgreeRows(ReferencedByAll(h.groupBy) + ReferencedByAll(h.aggregates), a, b)
    ensures Commuting(h, a)
  {
    hide MergeAll, Contribution;
    forall x, y | x in a && y in a ensures Commute(h, x, y) {
      var i :| 0 <= i < |a| && a[i] == x;
      var j :| 0 <= j < |a| && a[j] == y;
      SameContribution(h, x, b[i]);
      SameContribution(h, y, b[j]);
      assert Commute(h, b[i], b[j]);
    }
  }

  lemma SameContribution(h: HashAgg, x: Record, y: Record)
    requires h.isPartial && Agree(ReferencedByAll(h.groupBy) + ReferencedByAll(h.aggregates), x, y)
    ensures KeyOf(h, x) == KeyOf(h, y) && Contribution(h, x) == Contribution(h, y)
  {
    EvalAllAgree(h.groupBy, x, y);
    ContributionAgree(h, x, y);
  }

  lemma {:induction false} PruneCarries(rt: Runtime, bools: set<string>, p: LogicalPlan, needed: Option<set<string>>)
    requires Optimizable(rt, bools, p) && Executable(rt, p)
    ensures Carries(rt, p, Prune(rt, p, needed))
  {
    hide Analyzed, FreshAliases, BooleansOk, Rows, Names, AllNames, Commuting, Unspilled, Groupable;
    match p
    case Scan(_, _, _, _) => if needed.Some? { PruneScanCarries(rt, p, needed.value); }
    case Filter(c, cond) =>
      FilterFacts(rt, bools, c, cond);
      PruneCarries(rt, bools, c, AndAlso(needed, ReferencedColumns(cond)));
    case Project(c, cols) =>
      ProjectFacts(rt, bools, p);
      PruneCarries(rt, bools, c, Some(ReferencedByAll(cols)));
      ProjectCarries(rt, p, Prune(rt, c, Some(ReferencedByAll(cols))));
    case Aggregation(c, g, a) =>
      AggregationFacts(rt, bools, p);
      var all := ReferencedByAll(g) + ReferencedByAll(a);
      PruneCarries(rt, bools, c, Some(all));
      PruneNarrows(rt, bools, c, all);
      if Commuting(Partial(g, a), Rows(rt, c)) {
        CommutingAgree(Partial(g, a), Rows(rt, Prune(rt, c, Some(all))), Rows(rt, c));
      }
      AggregationCarries(rt, p, Prune(rt, c, Some(all)));
    case Join(l, r, _, _) =>
      JoinFacts(rt, bools, p);
      var (ln, rn) := SideNeeds(rt, p, needed);
      PruneCarries(rt, bools, l, Some(ln));
      PruneCarries(rt, bools, r, Some(rn));
      JoinCarries(rt, p, Prune(rt, l, Some(ln)), Prune(rt, r, Some(rn)));
    case Sort(c, ks) =>
      SortFacts(rt, bools, p);
      var all := AndAlso(needed, KeyColumns(ks));
      PruneCarries(rt, bools, c, all);
      PrunedAgree(rt, bools, c, needed, KeyColumns(ks));
      SortCarries(rt, p, Prune(rt, c, all));
  }

  lemma ApplyCarries(rt: Runtime, bools: set<string>, rule: Rule, p: LogicalPlan)
    requires Optimizable(rt, bools, p) && Executable(rt, p)
    ensures Carries(rt, p, Apply(rt, rule, p))
  {
    hide Analyzed, FreshAliases, BooleansOk, Rows, Names, AllNames, Commuting, Unspilled, Groupable;
    match rule
    case ConstantFolding =>
      FoldIsGood(bools);
      forall e ensures KeepsTypes(bools, e, Fold(e)) { FoldKeepsTypes(bools, e); }
      MapCarries(rt, bools, p, Fold);
    case FilterSimplification =>
      SimplifyIsGood(bools);
      forall e ensures KeepsTypes(bools, e, Simplify(e)) { SimplifyKeepsTypes(bools, e); }
      MapCarries(rt, bools, p, Simplify);
    case PredicatePushdown => PushdownCarries(rt, bools, p);
    case ProjectionPruning => PruneCarries(rt, bools, p, None);
    case RedundantProjectionElimination => EliminateCarries(rt, bools, p);
  }

  lemma {:induction false} PassCarries(rt: Runtime, bools: set<string>, rules: seq<Rule>, p: LogicalPlan)
    requires Optimizable(rt, bools, p) && Executable(rt, p)
    ensures Carries(rt, p, Pass(rt, rules, p))
  {
    hide Analyzed, FreshAliases, BooleansOk, Rows, Names, AllNames, Commuting, Unspilled, Groupable;
    if rules != [] {
      var before := Pass(rt, rules[..|rules| - 1], p);
      PassCarries(rt, bools, rules[..|rules| - 1], p);
      PassRefines(rt, bools, rules[..|rules| - 1], p);
      ApplyCarries(rt, bools, rules[|rules| - 1], before);
      CarriesTrans(rt, p, before, Pass(rt, rules, p));
    }
  }

  /** An executable plan is executable after any number of passes, and splits no range
      that it did not split before. */
  lemma {:induction false} PassesCarry(rt: Runtime, bools: set<string>, rules: seq<Rule>, n: nat, p: LogicalPlan)
    requires Optimizable(rt, bools, p) && Executable(rt, p)
    ensures Carries(rt, p, Passes(rt, rules, n, p))
  {
    hide Analyzed, FreshAliases, BooleansOk, Rows, Names, AllNames, Commuting, Unspilled, Groupable;
    if n > 0 {
      var q := Pass(rt, rules, p);
      PassCarries(rt, bools, rules, p);
      PassRefines(rt, bools, rules, p);
      PassesCarry(rt, bools, rules, n - 1, q);
      CarriesTrans(rt, p, q, Passes(rt, rules, n - 1, q));
    }
  }
}
