/**
 Which rewrites can make a query raise that did not raise before
 (minispark/optimizer/rules.py).  Rows are given a meaning even where an expression
 raises; here is when none does.
 */
module QuietPlans {
  import opened Options
  import opened Values
  import opened Expressions
  import opened ExpressionRules
  import opened Sequences
  import opened Sorting
  import opened AggregateFunctions
  import opened GroupTables
  import opened Joins
  import opened RowOperators
  import opened Logical
  import opened PlanRules
  import opened Pruning

  /** Evaluating e raises on none of the rows. */
  ghost predicate Silent(e: Expr, rows: seq<Record>) {
    forall i :: 0 <= i < |rows| ==> !Raises(e, rows[i])
  }

  /** What an aggregate evaluates on every row: its argument. */
  ghost predicate SilentAggregate(e: Expr, rows: seq<Record>) {
    UnwrapAlias(e).Aggregate? ==> Silent(UnwrapAlias(e).child, rows)
  }

  /** Running the plan evaluates no expression on a row it raises on. */
  ghost predicate Quiet(rt: Runtime, p: LogicalPlan) {
    match p
    case Scan(_, _, _, _) => true
    case Filter(c, cond) => Quiet(rt, c) && Silent(cond, Rows(rt, c))
    case Project(c, cols) => Quiet(rt, c) && forall i :: 0 <= i < |cols| ==> Silent(cols[i], Rows(rt, c))
    case Aggregation(c, _, a) => Quiet(rt, c) && forall i :: 0 <= i < |a| ==> SilentAggregate(a[i], Rows(rt, c))
    case Join(l, r, _, _) => Quiet(rt, l) && Quiet(rt, r)
    case Sort(c, _) => Quiet(rt, c)
  }

  lemma SilentAgree(e: Expr, cols: set<string>, a: seq<Record>, b: seq<Record>)
    requires ReferencedColumns(e) <= cols && AgreeRows(cols, a, b)
    ensures Silent(e, a) <==> Silent(e, b)
  {
    forall i | 0 <= i < |a| ensures Raises(e, a[i]) == Raises(e, b[i]) { EvalAgree(e, a[i], b[i]); }
  }

  // ---- rewritten expressions -----------------------------------------------

  /** A rewrite that makes no expression raise on a row it did not raise on. */
  ghost predicate KeepsQuiet(bools: set<string>, e: Expr, d: Expr, r: Record) {
    (BooleanOperands(bools, e) || Condition(bools, e)) && HoldsBooleans(bools, ReferencedColumns(e), r) && !Raises(e, r)
    ==> !Raises(d, r)
  }

  lemma {:induction false} SimplifyConditionIsSafe(bools: set<string>, e: Expr, r: Record)
    requires Condition(bools, e) && HoldsBooleans(bools, ReferencedColumns(e), r) && !Raises(e, r)
    ensures !Raises(Simplify(e), r)
  {
    match e
    case Binary(op, a, b) =>
      if op.And? || op.Or? {
        SimplifyConditionIsSafe(bools, a, r);
        SimplifyConditionIsSafe(bools, b, r);
      } else {
        SimplifyIsSafe(bools, e, r);
      }
    case Not(c) => SimplifyConditionIsSafe(bools, c, r);
    case Alias(c, _) => SimplifyConditionIsSafe(bools, c, r);
    case _ =>
  }

  lemma RulesKeepQuiet(bools: set<string>, e: Expr, r: Record)
    ensures KeepsQuiet(bools, e, Fold(e), r) && KeepsQuiet(bools, e, Simplify(e), r)
  {
    if !Raises(e, r) && HoldsBooleans(bools, ReferencedColumns(e), r) {
      FoldIsSafe(e, r);
      if Condition(bools, e) { SimplifyConditionIsSafe(bools, e, r); }
      if BooleanOperands(bools, e) { SimplifyIsSafe(bools, e, r); }
    }
  }

  lemma MapSilent(rt: Runtime, bools: set<string>, c: LogicalPlan, f: Expr -> Expr, e: Expr)
    requires Optimizable(rt, bools, c) && ReferencedColumns(e) <= Columns(rt, c)
    requires BooleanOperands(bools, e) || Condition(bools, e)
    requires forall d, r :: KeepsQuiet(bools, d, f(d), r)
    requires Silent(e, Rows(rt, c))
    ensures Silent(f(e), Rows(rt, c))
  {
    var rows := Rows(rt, c);
    forall i | 0 <= i < |rows| ensures !Raises(f(e), rows[i]) {
      RowsOk(rt, bools, c, rows[i]);
      assert KeepsQuiet(bools, e, f(e), rows[i]);
    }
  }

  lemma ProjectBooleans(rt: Runtime, bools: set<string>, p: LogicalPlan, i: nat)
    requires p.Project? && Optimizable(rt, bools, p) && i < |p.columns|
    ensures BooleanOperands(bools, p.columns[i])
  {
  }

  /** ConstantFolding and FilterSimplification make no plan raise. */
  lemma {:induction false} MapQuiet(rt: Runtime, bools: set<string>, p: LogicalPlan, f: Expr -> Expr)
    requires Optimizable(rt, bools, p) && Quiet(rt, p) && GoodRewrite(bools, f)
    requires forall d, r :: KeepsQuiet(bools, d, f(d), r)
    ensures Quiet(rt, MapExpressions(p, f))
  {
    hide Analyzed, FreshAliases, BooleansOk, Rows, Names, AllNames;
    match p
    case Scan(_, _, _, _) =>
    case Filter(c, cond) =>
      FilterFacts(rt, bools, c, cond);
      MapQuiet(rt, bools, c, f);
      MapExpressionsRefines(rt, bools, c, f);
      MapSilent(rt, bools, c, f, cond);
    case Project(c, cols) =>
      ProjectFacts(rt, bools, p);
      MapQuiet(rt, bools, c, f);
      MapExpressionsRefines(rt, bools, c, f);
      forall i | 0 <= i < |cols| ensures Silent(f(cols[i]), Rows(rt, c)) {
        ProjectBooleans(rt, bools, p, i);
        MapSilent(rt, bools, c, f, cols[i]);
      }
    case Aggregation(c, _, _) =>
      AggregationFacts(rt, bools, p);
      MapQuiet(rt, bools, c, f);
      MapExpressionsRefines(rt, bools, c, f);
      MapAggregation(rt, bools, p, f);
    case Join(l, r, _, _) =>
      JoinFacts(rt, bools, p);
      MapQuiet(rt, bools, l, f);
      MapQuiet(rt, bools, r, f);
    case Sort(c, _) =>
      SortFacts(rt, bools, p);
      MapQuiet(rt, bools, c, f);
  }

  lemma ExpressionRulesQuiet(rt: Runtime, bools: set<string>, p: LogicalPlan)
    requires Optimizable(rt, bools, p) && Quiet(rt, p)
    ensures Quiet(rt, MapExpressions(p, Fold)) && Quiet(rt, MapExpressions(p, Simplify))
  {
    FoldIsGood(bools);
    SimplifyIsGood(bools);
    forall e, r ensures KeepsQuiet(bools, e, Fold(e), r) && KeepsQuiet(bools, e, Simplify(e), r) {
      RulesKeepQuiet(bools, e, r);
    }
    MapQuiet(rt, bools, p, Fold);
    MapQuiet(rt, bools, p, Simplify);
  }

  // ---- pushing filters -----------------------------------------------------

  lemma {:induction false} SilentFewer(e: Expr, cond: Expr, rows: seq<Record>)
    requires Silent(e, rows)
    ensures Silent(e, FilterRows(cond, rows))
  {
    var kept := FilterRows(cond, rows);
    forall i | 0 <= i < |kept| ensures !Raises(e, kept[i]) {
      FilterMembers(cond, rows, kept[i]);
      var j :| 0 <= j < |rows| && rows[j] == kept[i];
    }
  }

  lemma PushBelowProjectSilent(rt: Runtime, bools: set<string>, c: LogicalPlan, cond: Expr)
    requires c.Project? && Optimizable(rt, bools, Filter(c, cond)) && ReferencedColumns(cond) <= Columns(rt, c.child)
    ensures Silent(cond, Rows(rt, c)) <==> Silent(cond, Rows(rt, c.child))
  {
    FilterFacts(rt, bools, c, cond);
    ProjectFacts(rt, bools, c);
    var rows, out := Rows(rt, c.child), Rows(rt, c);
    assert out == ProjectRows(c.columns, OutputNames(rt, c.columns), rows);
    forall i | 0 <= i < |rows| ensures Raises(cond, out[i]) == Raises(cond, rows[i]) {
      RowsOk(rt, bools, c.child, rows[i]);
      PassedThrough(rt, bools, c, cond, rows[i]);
    }
  }

  /** Where PushFilter puts the filter, if into a side of a join. */
  ghost predicate PushedSideSilent(rt: Runtime, c: LogicalPlan, cond: Expr) {
    c.Join? ==>
      if ReferencedColumns(cond) <= Columns(rt, c.left) then Silent(cond, Rows(rt, c.left))
      else ReferencedColumns(cond) <= Columns(rt, c.right) ==> Silent(cond, Rows(rt, c.right))
  }

  /** Pushing a filter down keeps a plan quiet exactly when, if it goes below a join, its
      condition raises on no row of that side: rows that join nothing are now evaluated
      too. */
  lemma PushFilterQuietIff(rt: Runtime, bools: set<string>, c: LogicalPlan, cond: Expr)
    requires Optimizable(rt, bools, Filter(c, cond)) && Quiet(rt, Filter(c, cond))
    ensures Quiet(rt, PushFilter(rt, c, cond)) <==> PushedSideSilent(rt, c, cond)
  {
    if c.Project? && ReferencedColumns(cond) <= Columns(rt, c.child) {
      PushBelowProjectSilent(rt, bools, c, cond);
      forall i | 0 <= i < |c.columns| ensures Silent(c.columns[i], FilterRows(cond, Rows(rt, c.child))) {
        SilentFewer(c.columns[i], cond, Rows(rt, c.child));
      }
      assert Quiet(rt, Filter(c.child, cond));
    } else if c.Join? {
      assert Quiet(rt, c.left) && Quiet(rt, c.right);
    }
  }

  lemma OneRow(x: Record)
    ensures Flatten([[x]]) == [x]
  {
    assert [[x]] == [] + [[x]];
    FlattenSnoc([], [x]);
  }

  lemma PushedJoinRaises(rt: Runtime, l: LogicalPlan, r: LogicalPlan, on: seq<string>, cond: Expr)
    requires l.Scan? && r.Scan? && ReferencedColumns(cond) <= Columns(rt, l)
    requires !Silent(cond, Rows(rt, l)) && Rows(rt, Join(l, r, on, false)) == []
    ensures var p := Filter(Join(l, r, on, false), cond);
            Quiet(rt, p) && !Quiet(rt, PushFilter(rt, p.child, cond))
  {
    hide Rows, Raises, Columns;
    var join := Join(l, r, on, false);
    assert Quiet(rt, join);
    assert Silent(cond, []);
    assert Silent(cond, Rows(rt, join));
    assert PushFilter(rt, join, cond) == Join(Filter(l, cond), r, on, false);
    assert !Quiet(rt, Filter(l, cond));
  }

  /** A row that joins nothing, on which the pushed condition divides by zero. */
  lemma PushBelowJoinCanRaise(rt: Runtime)
    ensures var l := Scan([[map["k" := Num(1.0), "x" := Num(0.0)]]], ["k", "x"], map[], None);
            var r := Scan([[map["k" := Num(2.0)]]], ["k"], map[], None);
            var cond := Binary(Gt, Binary(Div, Literal(Num(1.0)), Column("x")), Literal(Num(0.0)));
            var p := Filter(Join(l, r, ["k"], false), cond);
            Quiet(rt, p) && !Quiet(rt, PushFilter(rt, p.child, cond))
  {
    hide Quiet, PushFilter, Raises, JoinRows, Flatten;
    var a, b := map["k" := Num(1.0), "x" := Num(0.0)], map["k" := Num(2.0)];
    var l, r := Scan([[a]], ["k", "x"], map[], None), Scan([[b]], ["k"], map[], None);
    var cond := Binary(Gt, Binary(Div, Literal(Num(1.0)), Column("x")), Literal(Num(0.0)));
    OneRow(a);
    OneRow(b);
    assert Rows(rt, l) == [a] && Rows(rt, r) == [b];
    NothingMeets(a, b);
    DividesByZero(cond, a);
    assert Raises(cond, Rows(rt, l)[0]);
    assert "x" in Columns(rt, l);
    PushedJoinRaises(rt, l, r, ["k"], cond);
  }

  lemma NothingMeets(a: Record, b: Record)
    requires a == map["k" := Num(1.0), "x" := Num(0.0)] && b == map["k" := Num(2.0)]
    ensures JoinRows(JoinOn(["k"]), [a], [b]) == []
  {
    var j := JoinOn(["k"]);
    assert EvalAll(j.leftKeys, a)[0] == Num(1.0) && EvalAll(j.rightKeys, b)[0] == Num(2.0);
    MatchesSnoc(j, EvalAll(j.rightKeys, b), [], a);
    JoinSnoc(j, [a], [], b);
    assert [] + [a] == [a] && [] + [b] == [b];
  }

  lemma DividesByZero(cond: Expr, a: Record)
    requires cond == Binary(Gt, Binary(Div, Literal(Num(1.0)), Column("x")), Literal(Num(0.0)))
    requires "x" in a && a["x"] == Num(0.0)
    ensures Raises(cond, a) && ReferencedColumns(cond) == {"x"}
  {
  }

  // ---- projections ---------------------------------------------------------

  lemma CollapseSilent(rt: Runtime, bools: set<string>, c: LogicalPlan, e: Expr)
    requires Optimizable(rt, bools, c) && IsPlainProjection(c) && ReferencedColumns(e) <= Columns(rt, c)
    ensures Silent(e, Rows(rt, c)) ==> Silent(e, Rows(rt, c.child))
  {
    hide Raises, ProjectRow;
    ProjectFacts(rt, bools, c);
    var rows, out := Rows(rt, c.child), Rows(rt, c);
    assert out == ProjectRows(c.columns, OutputNames(rt, c.columns), rows);
    forall i | 0 <= i < |rows| ensures Raises(e, out[i]) == Raises(e, rows[i]) {
      RowsOk(rt, bools, c.child, rows[i]);
      PlainRow(rt, c.columns, rows[i]);
      EvalAgree(e, out[i], rows[i]);
    }
  }

  lemma EliminateProjectQuiet(rt: Runtime, bools: set<string>, c: LogicalPlan, cols: seq<Expr>)
    requires Optimizable(rt, bools, Project(c, cols)) && Quiet(rt, Project(c, cols))
    ensures Quiet(rt, EliminateProject(rt, c, cols))
  {
    ProjectFacts(rt, bools, Project(c, cols));
    if IsPlainProjection(c) {
      forall i | 0 <= i < |cols| ensures Silent(cols[i], Rows(rt, c.child)) { CollapseSilent(rt, bools, c, cols[i]); }
    }
  }

  /** RedundantProjectionElimination makes no plan raise. */
  lemma {:induction false} EliminateQuiet(rt: Runtime, bools: set<string>, p: LogicalPlan)
    requires Optimizable(rt, bools, p) && Quiet(rt, p)
    ensures Quiet(rt, Eliminate(rt, p))
  {
    hide Analyzed, FreshAliases, BooleansOk, Rows, Names, AllNames;
    match p
    case Scan(_, _, _, _) =>
    case Filter(c, cond) =>
      FilterFacts(rt, bools, c, cond);
      EliminateQuiet(rt, bools, c);
      EliminateRefines(rt, bools, c);
    case Project(c, cols) =>
      ProjectFacts(rt, bools, p);
      EliminateQuiet(rt, bools, c);
      EliminateRefines(rt, bools, c);
      ProjectOver(rt, bools, p, Eliminate(rt, c));
      EliminateProjectQuiet(rt, bools, Eliminate(rt, c), cols);
    case Aggregation(c, _, _) =>
      AggregationFacts(rt, bools, p);
      EliminateQuiet(rt, bools, c);
      EliminateRefines(rt, bools, c);
    case Join(l, r, _, _) =>
      JoinFacts(rt, bools, p);
      EliminateQuiet(rt, bools, l);
      EliminateQuiet(rt, bools, r);
    case Sort(c, _) =>
      SortFacts(rt, bools, p);
      EliminateQuiet(rt, bools, c);
  }

  lemma PruneScanQuiet(rt: Runtime, bools: set<string>, p: LogicalPlan, needed: set<string>)
    requires p.Scan? && Optimizable(rt, bools, p)
    ensures Quiet(rt, PruneScan(p, needed))
  {
    ScanFacts(rt, bools, p);
    var keep, rows := Keeping(p.names, needed), Rows(rt, p);
    forall i, j | 0 <= i < |keep| && 0 <= j < |rows| ensures !Raises(ColumnsOf(keep)[i], rows[j]) {
      assert keep[i] in keep && rows[j] in rows;
      assert keep[i] in rows[j].Keys;
    }
  }

  /** ProjectionPruning makes no plan raise. */
  lemma {:induction false} PruneQuiet(rt: Runtime, bools: set<string>, p: LogicalPlan, needed: Option<set<string>>)
    requires Optimizable(rt, bools, p) && Quiet(rt, p)
    ensures Quiet(rt, Prune(rt, p, needed))
  {
    hide Analyzed, FreshAliases, BooleansOk, Rows, Names, AllNames;
    match p
    case Scan(_, _, _, _) => if needed.Some? { PruneScanQuiet(rt, bools, p, needed.value); }
    case Filter(c, cond) =>
      FilterFacts(rt, bools, c, cond);
      var q := Prune(rt, c, AndAlso(needed, ReferencedColumns(cond)));
      PruneQuiet(rt, bools, c, AndAlso(needed, ReferencedColumns(cond)));
      PrunedAgree(rt, bools, c, needed, ReferencedColumns(cond));
      SilentAgree(cond, ReferencedColumns(cond), Rows(rt, q), Rows(rt, c));
    case Project(c, cols) =>
      ProjectFacts(rt, bools, p);
      var all := ReferencedByAll(cols);
      PruneQuiet(rt, bools, c, Some(all));
      PruneNarrows(rt, bools, c, all);
      forall i | 0 <= i < |cols| ensures Silent(cols[i], Rows(rt, Prune(rt, c, Some(all)))) {
        assert ReferencedColumns(cols[i]) <= all;
        SilentAgree(cols[i], all, Rows(rt, Prune(rt, c, Some(all))), Rows(rt, c));
      }
    case Aggregation(c, g, a) =>
      AggregationFacts(rt, bools, p);
      var all := ReferencedByAll(g) + ReferencedByAll(a);
      PruneQuiet(rt, bools, c, Some(all));
      PruneNarrows(rt, bools, c, all);
      forall i | 0 <= i < |a| ensures SilentAggregate(a[i], Rows(rt, Prune(rt, c, Some(all)))) {
        assert ReferencedColumns(a[i]) <= ReferencedByAll(a);
        SilentAggregateAgree(a[i], all, Rows(rt, Prune(rt, c, Some(all))), Rows(rt, c));
      }
    case Join(l, r, _, _) =>
      JoinFacts(rt, bools, p);
      var (ln, rn) := SideNeeds(rt, p, needed);
      PruneQuiet(rt, bools, l, Some(ln));
      PruneQuiet(rt, bools, r, Some(rn));
    case Sort(c, ks) =>
      SortFacts(rt, bools, p);
      PruneQuiet(rt, bools, c, AndAlso(needed, KeyColumns(ks)));
  }

  lemma SilentAggregateAgree(e: Expr, cols: set<string>, a: seq<Record>, b: seq<Record>)
    requires ReferencedColumns(e) <= cols && AgreeRows(cols, a, b) && SilentAggregate(e, b)
    ensures SilentAggregate(e, a)
  {
    var f := UnwrapAlias(e);
    if f.Aggregate? {
      assert ReferencedColumns(f.child) == ReferencedColumns(f) == ReferencedColumns(e);
      SilentAgree(f.child, cols, a, b);
    }
  }

  // ---- the whole pushdown --------------------------------------------------

  /** Wherever the pass moves a filter into a side of a join, its condition raises on no
      row of that side. */
  ghost predicate PushesQuietly(rt: Runtime, p: LogicalPlan) {
    match p
    case Scan(_, _, _, _) => true
    case Filter(c, cond) => PushesQuietly(rt, c) && PushedSideSilent(rt, Pushdown(rt, c), cond)
    case Project(c, _) => PushesQuietly(rt, c)
    case Aggregation(c, _, _) => PushesQuietly(rt, c)
    case Join(l, r, _, _) => PushesQuietly(rt, l) && PushesQuietly(rt, r)
    case Sort(c, _) => PushesQuietly(rt, c)
  }

  /** A projection at the root raises on no row of its input, filtered or not. */
  ghost predicate HeadSilent(rt: Runtime, p: LogicalPlan) {
    p.Project? ==> forall i :: 0 <= i < |p.columns| ==> Silent(p.columns[i], Rows(rt, p.child))
  }

  lemma PushFilterHeadSilent(rt: Runtime, c: LogicalPlan, cond: Expr)
    requires HeadSilent(rt, c)
    ensures HeadSilent(rt, PushFilter(rt, c, cond))
  {
    hide Silent;
    if c.Project? && ReferencedColumns(cond) <= Columns(rt, c.child) {
      forall i | 0 <= i < |c.columns| ensures Silent(c.columns[i], FilterRows(cond, Rows(rt, c.child))) {
        SilentFewer(c.columns[i], cond, Rows(rt, c.child));
      }
    }
  }

  lemma {:induction false} PushdownHeadSilent(rt: Runtime, bools: set<string>, p: LogicalPlan)
    requires Optimizable(rt, bools, p) && Quiet(rt, p)
    ensures HeadSilent(rt, Pushdown(rt, p))
  {
    hide Analyzed, FreshAliases, BooleansOk, Rows, Names, AllNames, PushFilter;
    match p
    case Filter(c, cond) =>
      FilterFacts(rt, bools, c, cond);
      PushdownHeadSilent(rt, bools, c);
      PushFilterHeadSilent(rt, Pushdown(rt, c), cond);
    case Project(c, _) =>
      ProjectFacts(rt, bools, p);
      PushdownRefines(rt, bools, c);
    case _ =>
  }

  /** Pushing a filter hides no raise of the plan it is pushed into. */
  lemma QuietBelow(rt: Runtime, c: LogicalPlan, cond: Expr)
    requires HeadSilent(rt, c) && Quiet(rt, PushFilter(rt, c, cond))
    ensures Quiet(rt, c)
  {
    hide Silent, Rows, Names;
  }

  lemma PushFilterQuiet(rt: Runtime, bools: set<string>, p: LogicalPlan)
    requires p.Filter? && Optimizable(rt, bools, p) && Quiet(rt, p)
    requires Quiet(rt, Pushdown(rt, p.child)) <==> PushesQuietly(rt, p.child)
    ensures Quiet(rt, Pushdown(rt, p)) <==> PushesQuietly(rt, p)
  {
    hide Analyzed, FreshAliases, BooleansOk, Rows, Names, AllNames, PushFilter, PushedSideSilent, HeadSilent;
    var d := Pushdown(rt, p.child);
    FilterFacts(rt, bools, p.child, p.condition);
    PushdownRefines(rt, bools, p.child);
    FilterOver(rt, bools, p, d);
    PushdownHeadSilent(rt, bools, p.child);
    if Quiet(rt, PushFilter(rt, d, p.condition)) { QuietBelow(rt, d, p.condition); }
    if Quiet(rt, d) { PushFilterQuietIff(rt, bools, d, p.condition); }
  }

  /** PredicatePushdown keeps a plan quiet exactly when every filter it moves below a join
      raises on no row of the side it moves to. */
  lemma {:induction false} PushdownQuietIff(rt: Runtime, bools: set<string>, p: LogicalPlan)
    requires Optimizable(rt, bools, p) && Quiet(rt, p)
    ensures Quiet(rt, Pushdown(rt, p)) <==> PushesQuietly(rt, p)
  {
    hide Analyzed, FreshAliases, BooleansOk, Rows, Names, AllNames, PushFilter, PushedSideSilent, Silent;
    match p
    case Scan(_, _, _, _) =>
    case Filter(c, cond) =>
      FilterFacts(rt, bools, c, cond);
      PushdownQuietIff(rt, bools, c);
      PushFilterQuiet(rt, bools, p);
    case Project(c, cols) =>
      ProjectFacts(rt, bools, p);
      PushdownQuietIff(rt, bools, c);
      PushdownRefines(rt, bools, c);
    case Aggregation(c, _, _) =>
      AggregationFacts(rt, bools, p);
      PushdownQuietIff(rt, bools, c);
      PushdownRefines(rt, bools, c);
    case Join(l, r, _, _) =>
      JoinFacts(rt, bools, p);
      PushdownQuietIff(rt, bools, l);
      PushdownQuietIff(rt, bools, r);
    case Sort(c, _) =>
      SortFacts(rt, bools, p);
      PushdownQuietIff(rt, bools, c);
  }

  predicate JoinFree(p: LogicalPlan) {
    match p
    case Scan(_, _, _, _) => true
    case Filter(c, _) => JoinFree(c)
    case Project(c, _) => JoinFree(c)
    case Aggregation(c, _, _) => JoinFree(c)
    case Join(_, _, _, _) => false
    case Sort(c, _) => JoinFree(c)
  }

  /** Without joins no filter can. */
  lemma {:induction false} JoinFreePushesQuietly(rt: Runtime, p: LogicalPlan)
    requires JoinFree(p)
    ensures PushesQuietly(rt, p) && JoinFree(Pushdown(rt, p))
  {
    match p
    case Scan(_, _, _, _) =>
    case Filter(c, cond) =>
      JoinFreePushesQuietly(rt, c);
      assert Pushdown(rt, p) == PushFilter(rt, Pushdown(rt, c), cond);
      assert Pushdown(rt, c).Project? ==> JoinFree(Filter(Pushdown(rt, c).child, cond));
    case Project(c, _) => JoinFreePushesQuietly(rt, c);
    case Aggregation(c, _, _) => JoinFreePushesQuietly(rt, c);
    case Sort(c, _) => JoinFreePushesQuietly(rt, c);
  }

  lemma PushdownQuiet(rt: Runtime, bools: set<string>, p: LogicalPlan)
    requires Optimizable(rt, bools, p) && Quiet(rt, p) && JoinFree(p)
    ensures Quiet(rt, Pushdown(rt, p))
  {
    JoinFreePushesQuietly(rt, p);
    PushdownQuietIff(rt, bools, p);
  }
}
