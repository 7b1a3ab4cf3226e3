/**
 When the optimizer itself raises, and when its passes leave a plan that raises
 (minispark/optimizer/rules.py, minispark/optimizer/optimizer.py).
 */
module QuietPasses {
  import opened Options
  import opened Values
  import opened Expressions
  import opened ExpressionRules
  import opened Sequences
  import opened Sorting
  import opened AggregateFunctions
  import opened GroupTables
  import opened Joins
  import opened RowOperators
  import opened Logical
  import opened PlanRules
  import opened QuietPlans
  import opened Optimizers

  // ---- folding raises ------------------------------------------------------

  ghost predicate AnyFoldRaises(es: seq<Expr>) {
    exists i :: 0 <= i < |es| && FoldRaises(es[i])
  }

  /** Does ConstantFolding raise on the plan?  It folds every expression the plan holds. */
  ghost predicate FoldPassRaises(p: LogicalPlan) {
    match p
    case Scan(_, _, _, _) => false
    case Filter(c, cond) => FoldPassRaises(c) || FoldRaises(cond)
    case Project(c, cols) => FoldPassRaises(c) || AnyFoldRaises(cols)
    case Aggregation(c, g, a) => FoldPassRaises(c) || AnyFoldRaises(g) || AnyFoldRaises(a)
    case Join(l, r, _, _) => FoldPassRaises(l) || FoldPassRaises(r)
    case Sort(c, ks) => FoldPassRaises(c) || exists i :: 0 <= i < |ks| && FoldRaises(ks[i].expr)
  }

  /** 1 / 0 > 0. */
  function Poison(): Expr {
    Binary(Gt, Binary(Div, Literal(Num(1.0)), Literal(Num(0.0))), Literal(Num(0.0)))
  }

  lemma PoisonRaises()
    ensures FoldRaises(Poison()) && FoldRaises(Alias(Poison(), "")) && forall r :: Raises(Poison(), r)
  {
  }

  /** A filter that no row makes raise can be folded, whatever it asks, exactly when some
      row reaches it. */
  lemma FilterFoldsIff(rt: Runtime, c: LogicalPlan)
    requires Quiet(rt, c)
    ensures (forall cond :: Quiet(rt, Filter(c, cond)) ==> !FoldRaises(cond)) <==> Rows(rt, c) != []
  {
    if Rows(rt, c) == [] {
      assert Quiet(rt, Filter(c, Poison())) && FoldRaises(Poison());
    } else {
      forall cond | Quiet(rt, Filter(c, cond)) ensures !FoldRaises(cond) { FoldIsSafe(cond, Rows(rt, c)[0]); }
    }
  }

  /** A query that returns nothing, on which the optimizer raises. */
  lemma FoldingRaisesOnNothing(rt: Runtime)
    ensures var p := Filter(Scan([[]], ["x"], map["x" := IntType], None), Poison());
            Quiet(rt, p) && Rows(rt, p) == [] && FoldPassRaises(p)
  {
    var scan := Scan([[]], ["x"], map["x" := IntType], None);
    FlattenAllEmpty<Record>([[]]);
    assert Rows(rt, scan) == [];
  }

  /** Some expression that a filter or projection evaluates is given no row, and folding it
      raises. */
  ghost predicate StarvedFoldRaises(rt: Runtime, p: LogicalPlan) {
    match p
    case Scan(_, _, _, _) => false
    case Filter(c, cond) => StarvedFoldRaises(rt, c) || (Rows(rt, c) == [] && FoldRaises(cond))
    case Project(c, cols) => StarvedFoldRaises(rt, c) || (Rows(rt, c) == [] && AnyFoldRaises(cols))
    case Aggregation(c, _, _) => StarvedFoldRaises(rt, c)
    case Join(l, r, _, _) => StarvedFoldRaises(rt, l) || StarvedFoldRaises(rt, r)
    case Sort(c, _) => StarvedFoldRaises(rt, c)
  }

  /** Group columns, aggregates and sort keys have nothing to fold. */
  lemma NothingToFold(rt: Runtime, p: LogicalPlan)
    requires Analyzed(rt, p)
    ensures p.Aggregation? ==> !AnyFoldRaises(p.groupBy) && !AnyFoldRaises(p.aggregates)
    ensures p.Sort? ==> forall i :: 0 <= i < |p.keys| ==> !FoldRaises(p.keys[i].expr)
  {
    if p.Aggregation? {
      forall i | 0 <= i < |p.aggregates| ensures !FoldRaises(p.aggregates[i]) {
        assert IsAggregateFunction(Functions(Partial(p.groupBy, p.aggregates))[i]);
      }
    }
  }

  /** ConstantFolding raises on a quiet plan exactly when it folds to an error an expression
      that no row reaches. */
  lemma {:induction false} FoldPassRaisesIff(rt: Runtime, p: LogicalPlan)
    requires Analyzed(rt, p) && Quiet(rt, p)
    ensures FoldPassRaises(p) <==> StarvedFoldRaises(rt, p)
  {
    hide Rows, FoldRaises;
    NothingToFold(rt, p);
    match p
    case Scan(_, _, _, _) =>
    case Filter(c, cond) =>
      FoldPassRaisesIff(rt, c);
      if Rows(rt, c) != [] { FoldIsSafe(cond, Rows(rt, c)[0]); }
    case Project(c, cols) =>
      FoldPassRaisesIff(rt, c);
      if Rows(rt, c) != [] {
        forall i | 0 <= i < |cols| ensures !FoldRaises(cols[i]) { FoldIsSafe(cols[i], Rows(rt, c)[0]); }
      }
    case Aggregation(c, _, _) => FoldPassRaisesIff(rt, c);
    case Join(l, r, _, _) => FoldPassRaisesIff(rt, l); FoldPassRaisesIff(rt, r);
    case Sort(c, _) => FoldPassRaisesIff(rt, c);
  }

  // ---- whatever the expressions --------------------------------------------

  /** Every filter and every projection of the plan is given rows. */
  ghost predicate Fed(rt: Runtime, p: LogicalPlan) {
    match p
    case Scan(_, _, _, _) => true
    case Filter(c, _) => Fed(rt, c) && Rows(rt, c) != []
    case Project(c, cols) => Fed(rt, c) && (cols != [] ==> Rows(rt, c) != [])
    case Aggregation(c, _, _) => Fed(rt, c)
    case Join(l, r, _, _) => Fed(rt, l) && Fed(rt, r)
    case Sort(c, _) => Fed(rt, c)
  }

  /** The same plan with other conditions and other columns under the same names, of which
      every node computes the same rows. */
  ghost predicate Alike(rt: Runtime, p: LogicalPlan, q: LogicalPlan) {
    && Rows(rt, p) == Rows(rt, q)
    && match p
       case Scan(_, _, _, _) => q == p
       case Filter(c, _) => q.Filter? && Alike(rt, c, q.child)
       case Project(c, cols) => q.Project? && OutputNames(rt, q.columns) == OutputNames(rt, cols) && Alike(rt, c, q.child)
       case Aggregation(c, g, a) => q.Aggregation? && q.groupBy == g && q.aggregates == a && Alike(rt, c, q.child)
       case Join(l, r, on, b) => q.Join? && q.on == on && q.broadcast == b && Alike(rt, l, q.left) && Alike(rt, r, q.right)
       case Sort(c, ks) => q.Sort? && q.keys == ks && Alike(rt, c, q.child)
  }

  lemma {:induction false} AlikeItself(rt: Runtime, p: LogicalPlan)
    ensures Alike(rt, p, p)
  {
    hide Rows;
    match p
    case Scan(_, _, _, _) =>
    case Filter(c, _) => AlikeItself(rt, c);
    case Project(c, _) => AlikeItself(rt, c);
    case Aggregation(c, _, _) => AlikeItself(rt, c);
    case Join(l, r, _, _) => AlikeItself(rt, l); AlikeItself(rt, r);
    case Sort(c, _) => AlikeItself(rt, c);
  }

  /** A plan that is fed folds safely, and so does every plan like it. */
  lemma {:induction false} FedFoldsSafely(rt: Runtime, p: LogicalPlan, q: LogicalPlan)
    requires Analyzed(rt, p) && Fed(rt, p) && Alike(rt, p, q) && Quiet(rt, q)
    ensures !FoldPassRaises(q)
  {
    hide Rows, FoldRaises;
    NothingToFold(rt, p);
    match p
    case Scan(_, _, _, _) =>
    case Filter(c, _) =>
      FedFoldsSafely(rt, c, q.child);
      FoldIsSafe(q.condition, Rows(rt, c)[0]);
    case Project(c, cols) =>
      FedFoldsSafely(rt, c, q.child);
      forall i | 0 <= i < |q.columns| ensures !FoldRaises(q.columns[i]) {
        assert |cols| == |OutputNames(rt, cols)| == |q.columns|;
        FoldIsSafe(q.columns[i], Rows(rt, c)[0]);
      }
    case Aggregation(c, _, _) => FedFoldsSafely(rt, c, q.child);
    case Join(l, r, _, _) => FedFoldsSafely(rt, l, q.left); FedFoldsSafely(rt, r, q.right);
    case Sort(c, _) => FedFoldsSafely(rt, c, q.child);
  }

  /** A projection of no rows, with its first column poisoned. */
  lemma PoisonProject(rt: Runtime, c: LogicalPlan, cols: seq<Expr>) returns (poisoned: seq<Expr>)
    requires Rows(rt, c) == [] && cols != []
    ensures OutputNames(rt, poisoned) == OutputNames(rt, cols) && AnyFoldRaises(poisoned)
    ensures Rows(rt, Project(c, poisoned)) == Rows(rt, Project(c, cols))
  {
    poisoned := cols[0 := Alias(Poison(), OutputName(rt, cols[0]))];
    assert FoldRaises(poisoned[0]);
    var a, b := OutputNames(rt, cols), OutputNames(rt, poisoned);
    forall i | 0 <= i < |cols| ensures a[i] == b[i] {
      assert b[i] == OutputName(rt, poisoned[i]);
    }
  }

  /** A plan that is not fed is like a quiet plan on which folding raises. */
  lemma {:induction false} UnfedRaises(rt: Runtime, p: LogicalPlan) returns (q: LogicalPlan)
    requires Quiet(rt, p) && !Fed(rt, p)
    ensures Alike(rt, p, q) && Quiet(rt, q) && FoldPassRaises(q)
  {
    hide Rows, FoldRaises, Raises, OutputNames;
    match p
    case Filter(c, cond) =>
      if Fed(rt, c) {
        q := Filter(c, Poison());
        AlikeItself(rt, c);
        assert FoldRaises(Poison()) by { PoisonRaises(); }
        assert Rows(rt, q) == Rows(rt, p) by { FilterNothing(rt, c, cond); FilterNothing(rt, c, Poison()); }
      } else {
        var d := UnfedRaises(rt, c);
        q := Filter(d, cond);
        SameFilter(rt, c, d, cond);
      }
    case Project(c, cols) =>
      if Fed(rt, c) {
        var poisoned := PoisonProject(rt, c, cols);
        q := Project(c, poisoned);
        AlikeItself(rt, c);
      } else {
        var d := UnfedRaises(rt, c);
        q := Project(d, cols);
        SameProject(rt, c, d, cols);
      }
    case Aggregation(c, g, a) =>
      var d := UnfedRaises(rt, c);
      q := Aggregation(d, g, a);
      SameAggregation(rt, c, d, g, a);
    case Join(l, r, on, b) =>
      AlikeItself(rt, l);
      AlikeItself(rt, r);
      if Fed(rt, l) {
        var d := UnfedRaises(rt, r);
        q := Join(l, d, on, b);
        SameJoin(rt, l, l, r, d, on, b);
      } else {
        var d := UnfedRaises(rt, l);
        q := Join(d, r, on, b);
        SameJoin(rt, l, d, r, r, on, b);
      }
    case Sort(c, ks) =>
      var d := UnfedRaises(rt, c);
      q := Sort(d, ks);
      SameSort(rt, c, d, ks);
  }

  lemma FilterNothing(rt: Runtime, c: LogicalPlan, cond: Expr)
    requires Rows(rt, c) == []
    ensures Rows(rt, Filter(c, cond)) == []
  {
  }

  lemma SameFilter(rt: Runtime, c: LogicalPlan, d: LogicalPlan, cond: Expr)
    requires Rows(rt, c) == Rows(rt, d)
    ensures Rows(rt, Filter(c, cond)) == Rows(rt, Filter(d, cond))
  {
    hide FilterRows;
  }

  lemma SameProject(rt: Runtime, c: LogicalPlan, d: LogicalPlan, cols: seq<Expr>)
    requires Rows(rt, c) == Rows(rt, d)
    ensures Rows(rt, Project(c, cols)) == Rows(rt, Project(d, cols))
  {
    hide ProjectRows;
  }

  lemma SameAggregation(rt: Runtime, c: LogicalPlan, d: LogicalPlan, g: seq<Expr>, a: seq<Expr>)
    requires Rows(rt, c) == Rows(rt, d)
    ensures Rows(rt, Aggregation(c, g, a)) == Rows(rt, Aggregation(d, g, a))
  {
    hide GroupRows;
  }

  lemma SameJoin(rt: Runtime, l: LogicalPlan, l': LogicalPlan, r: LogicalPlan, r': LogicalPlan, on: seq<string>, b: bool)
    requires Rows(rt, l) == Rows(rt, l') && Rows(rt, r) == Rows(rt, r')
    ensures Rows(rt, Join(l, r, on, b)) == Rows(rt, Join(l', r', on, b))
  {
    hide StableSort, JoinRows, FilterRows, ProjectRows, GroupRows, Flatten;
  }

  lemma SameSort(rt: Runtime, c: LogicalPlan, d: LogicalPlan, ks: seq<SortKey>)
    requires Rows(rt, c) == Rows(rt, d)
    ensures Rows(rt, Sort(c, ks)) == Rows(rt, Sort(d, ks))
  {
    hide StableSort, JoinRows, FilterRows, ProjectRows, GroupRows, Flatten;
  }

  /** ConstantFolding raises on no quiet plan like p, whatever its conditions and columns,
      exactly when p's filters and projections are all given rows. */
  lemma FoldingSafeIff(rt: Runtime, p: LogicalPlan)
    requires Analyzed(rt, p) && Quiet(rt, p)
    ensures (forall q :: Alike(rt, p, q) && Quiet(rt, q) ==> !FoldPassRaises(q)) <==> Fed(rt, p)
  {
    hide Alike, Quiet, FoldPassRaises, Fed, Analyzed;
    if Fed(rt, p) {
      forall q | Alike(rt, p, q) && Quiet(rt, q) ensures !FoldPassRaises(q) { FedFoldsSafely(rt, p, q); }
    } else {
      var q := UnfedRaises(rt, p);
    }
  }

  // ---- whole passes --------------------------------------------------------

  /** The rule neither raises on the plan nor moves a filter to rows it raises on. */
  ghost predicate Safe(rt: Runtime, rule: Rule, p: LogicalPlan) {
    match rule
    case ConstantFolding => !StarvedFoldRaises(rt, p)
    case PredicatePushdown => PushesQuietly(rt, p)
    case _ => true
  }

  /** Every rule of every pass is safe on the plan it gets. */
  ghost predicate AllSafe(rt: Runtime, rules: seq<Rule>, p: LogicalPlan) {
    rules != [] ==>
      var n := |rules| - 1;
      AllSafe(rt, rules[..n], p) && Safe(rt, rules[n], Pass(rt, rules[..n], p))
  }

  /** The rule raises nothing itself and leaves a plan that raises nowhere. */
  ghost predicate RunsQuietly(rt: Runtime, rule: Rule, p: LogicalPlan) {
    (rule.ConstantFolding? ==> !FoldPassRaises(p)) && Quiet(rt, Apply(rt, rule, p))
  }

  /** Every rule of the pass does. */
  ghost predicate PassQuietly(rt: Runtime, rules: seq<Rule>, p: LogicalPlan) {
    rules != [] ==>
      var n := |rules| - 1;
      PassQuietly(rt, rules[..n], p) && RunsQuietly(rt, rules[n], Pass(rt, rules[..n], p))
  }

  /** On a quiet plan a rule runs to its end and leaves a quiet plan exactly when it is safe. */
  lemma SafeRuleIff(rt: Runtime, bools: set<string>, rule: Rule, p: LogicalPlan)
    requires Optimizable(rt, bools, p) && Quiet(rt, p)
    ensures RunsQuietly(rt, rule, p) <==> Safe(rt, rule, p)
  {
    hide Quiet, FreshAliases, BooleansOk, Analyzed, Rows;
    match rule
    case ConstantFolding =>
      assert Analyzed(rt, p);
      FoldPassRaisesIff(rt, p);
      ExpressionRulesQuiet(rt, bools, p);
    case FilterSimplification => ExpressionRulesQuiet(rt, bools, p);
    case PredicatePushdown => PushdownQuietIff(rt, bools, p);
    case ProjectionPruning => PruneQuiet(rt, bools, p, None);
    case RedundantProjectionElimination => EliminateQuiet(rt, bools, p);
  }

  lemma {:induction false} SafePassIff(rt: Runtime, bools: set<string>, rules: seq<Rule>, p: LogicalPlan)
    requires Optimizable(rt, bools, p) && Quiet(rt, p)
    ensures PassQuietly(rt, rules, p) <==> AllSafe(rt, rules, p)
    ensures AllSafe(rt, rules, p) ==> Quiet(rt, Pass(rt, rules, p))
  {
    hide Optimizable, Quiet, Safe, Apply;
    if rules != [] {
      var n := |rules| - 1;
      SafePassIff(rt, bools, rules[..n], p);
      PassRefines(rt, bools, rules[..n], p);
      if AllSafe(rt, rules[..n], p) { SafeRuleIff(rt, bools, rules[n], Pass(rt, rules[..n], p)); }
    }
  }

  ghost predicate PassesSafe(rt: Runtime, rules: seq<Rule>, n: nat, p: LogicalPlan) {
    n > 0 ==> PassesSafe(rt, rules, n - 1, p) && AllSafe(rt, rules, Passes(rt, rules, n - 1, p))
  }

  ghost predicate PassesQuietly(rt: Runtime, rules: seq<Rule>, n: nat, p: LogicalPlan) {
    n > 0 ==> PassesQuietly(rt, rules, n - 1, p) && PassQuietly(rt, rules, Passes(rt, rules, n - 1, p))
  }

  lemma StillOptimizable(rt: Runtime, bools: set<string>, rules: seq<Rule>, n: nat, p: LogicalPlan)
    requires Optimizable(rt, bools, p)
    ensures Optimizable(rt, bools, Passes(rt, rules, n, p))
  {
    hide Optimizable, Passes;
    PassesRefine(rt, bools, rules, n, p);
  }

  /** Any number of passes over a plan that raises nowhere, each rule of each running to its
      end and leaving a plan that raises nowhere: exactly when every rule is safe on the plan
      it gets. */
  lemma {:induction false} SafePassesIff(rt: Runtime, bools: set<string>, rules: seq<Rule>, n: nat, p: LogicalPlan)
    requires Optimizable(rt, bools, p) && Quiet(rt, p)
    ensures PassesQuietly(rt, rules, n, p) <==> PassesSafe(rt, rules, n, p)
    ensures PassesSafe(rt, rules, n, p) ==> Quiet(rt, Passes(rt, rules, n, p))
  {
    hide Optimizable, Quiet, AllSafe, PassQuietly, Pass;
    assert Passes(rt, rules, 0, p) == p;
    hide Passes;
    if n > 0 {
      SafePassesIff(rt, bools, rules, n - 1, p);
      StillOptimizable(rt, bools, rules, n - 1, p);
      PassesSnoc(rt, rules, n - 1, p);
      if PassesSafe(rt, rules, n - 1, p) { SafePassIff(rt, bools, rules, Passes(rt, rules, n - 1, p)); }
    }
  }
}
