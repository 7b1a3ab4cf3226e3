/**
 The rule driver (minispark/optimizer/optimizer.py).
 */
module Optimizers {
  import opened Options
  import opened Values
  import opened Expressions
  import opened ExpressionRules
  import opened Joins
  import opened RowOperators
  import opened Logical
  import opened PlanRules
  import opened Pruning

  datatype Rule =
    | ConstantFolding
    | FilterSimplification
    | PredicatePushdown
    | ProjectionPruning
    | RedundantProjectionElimination

  datatype OptimizerConfig = OptimizerConfig(predicatePushdown: bool, projectionPruning: bool)

  function DefaultRules(config: OptimizerConfig): seq<Rule> {
    [ConstantFolding, FilterSimplification]
    + (if config.predicatePushdown then [PredicatePushdown] else [])
    + (if config.projectionPruning then [ProjectionPruning] else [])
    + [RedundantProjectionElimination]
  }

  function Apply(rt: Runtime, rule: Rule, p: LogicalPlan): LogicalPlan {
    match rule
    case ConstantFolding => MapExpressions(p, Fold)
    case FilterSimplification => MapExpressions(p, Simplify)
    case PredicatePushdown => Pushdown(rt, p)
    case ProjectionPruning => Prune(rt, p, None)
    case RedundantProjectionElimination => Eliminate(rt, p)
  }

  /** One pass: every rule in turn. */
  function Pass(rt: Runtime, rules: seq<Rule>, p: LogicalPlan): LogicalPlan {
    if rules == [] then p else Apply(rt, rules[|rules| - 1], Pass(rt, rules[..|rules| - 1], p))
  }

  /** n passes, come what may. */
  function Passes(rt: Runtime, rules: seq<Rule>, n: nat, p: LogicalPlan): LogicalPlan {
    if n == 0 then p else Passes(rt, rules, n - 1, Pass(rt, rules, p))
  }

  lemma ApplyRefines(rt: Runtime, bools: set<string>, rule: Rule, p: LogicalPlan)
    requires Optimizable(rt, bools, p)
    ensures Refines(rt, bools, p, Apply(rt, rule, p))
  {
    hide Analyzed, FreshAliases, BooleansOk, Rows, Names, AllNames;
    match rule
    case ConstantFolding => ConstantFoldingRefines(rt, bools, p);
    case FilterSimplification => FilterSimplificationRefines(rt, bools, p);
    case PredicatePushdown => PushdownRefines(rt, bools, p);
    case ProjectionPruning => PruneRefines(rt, bools, p);
    case RedundantProjectionElimination => EliminateRefines(rt, bools, p);
  }

  lemma {:induction false} PassRefines(rt: Runtime, bools: set<string>, rules: seq<Rule>, p: LogicalPlan)
    requires Optimizable(rt, bools, p)
    ensures Refines(rt, bools, p, Pass(rt, rules, p))
  {
    hide Analyzed, FreshAliases, BooleansOk, Rows, Names, AllNames;
    if rules != [] {
      var before := Pass(rt, rules[..|rules| - 1], p);
      PassRefines(rt, bools, rules[..|rules| - 1], p);
      ApplyRefines(rt, bools, rules[|rules| - 1], before);
      RefinesTrans(rt, bools, p, before, Pass(rt, rules, p));
    }
  }

  /** Any number of passes keeps the plan's rows, in order. */
  lemma {:induction false} PassesRefine(rt: Runtime, bools: set<string>, rules: seq<Rule>, n: nat, p: LogicalPlan)
    requires Optimizable(rt, bools, p)
    ensures Refines(rt, bools, p, Passes(rt, rules, n, p))
  {
    hide Analyzed, FreshAliases, BooleansOk, Rows, Names, AllNames;
    if n > 0 {
      var q := Pass(rt, rules, p);
      var s := Passes(rt, rules, n - 1, q);
      PassRefines(rt, bools, rules, p);
      PassesRefine(rt, bools, rules, n - 1, q);
      RefinesTrans(rt, bools, p, q, s);
      assert Passes(rt, rules, n, p) == s;
    }
  }

  lemma {:induction false} PassesSnoc(rt: Runtime, rules: seq<Rule>, n: nat, p: LogicalPlan)
    ensures Passes(rt, rules, n + 1, p) == Pass(rt, rules, Passes(rt, rules, n, p))
  {
    if n > 0 { PassesSnoc(rt, rules, n - 1, Pass(rt, rules, p)); }
  }

  /** Passes that change nothing can be skipped. */
  lemma {:induction false} FixedPoint(rt: Runtime, rules: seq<Rule>, n: nat, p: LogicalPlan)
    requires Pass(rt, rules, p) == p
    ensures Passes(rt, rules, n, p) == p
  {
    if n > 0 { FixedPoint(rt, rules, n - 1, p); }
  }

  lemma {:induction false} PassesSplit(rt: Runtime, rules: seq<Rule>, a: nat, b: nat, p: LogicalPlan)
    ensures Passes(rt, rules, a + b, p) == Passes(rt, rules, b, Passes(rt, rules, a, p))
  {
    if a > 0 { PassesSplit(rt, rules, a - 1, b, Pass(rt, rules, p)); }
  }

  /** explain tells two plans apart whenever they differ. */
  ghost predicate Faithful(explain: LogicalPlan -> string) {
    forall p, q :: explain(p) == explain(q) ==> p == q
  }

  class Optimizer {
    const rules: seq<Rule>
    const maxIterations: int

    constructor (rules: seq<Rule>, maxIterations: int)
      ensures this.rules == rules && this.maxIterations == maxIterations
    {
      this.rules := rules;
      this.maxIterations := maxIterations;
    }

    /** The plan after some number of passes: at most maxIterations, and fewer only when a
        pass left explain()'s text alone.  Stopping early costs nothing if the text
        determines the plan. */
    method Optimize(rt: Runtime, plan: LogicalPlan, explain: LogicalPlan -> string) returns (current: LogicalPlan, ghost passes: nat)
      ensures current == Passes(rt, rules, passes, plan)
      ensures passes == 0 || passes <= maxIterations
      ensures passes < maxIterations ==>
                passes > 0 && explain(Passes(rt, rules, passes - 1, plan)) == explain(current)
      ensures Faithful(explain) && maxIterations >= 0 ==> current == Passes(rt, rules, maxIterations, plan)
      ensures forall bools :: Optimizable(rt, bools, plan) ==> Refines(rt, bools, plan, current)
    {
      hide Rows, Names, AllNames, Optimizable, Pass;
      current := plan;
      passes := 0;
      var i := 0;
      while i < maxIterations
        invariant passes == i && (i == 0 || i <= maxIterations)
        invariant current == Passes(rt, rules, passes, plan)
      {
        var start := current;
        var before := explain(current);
        current := OnePass(rt, current);
        PassesSnoc(rt, rules, passes, plan);
        passes := passes + 1;
        if explain(current) == before {
          if Faithful(explain) {
            FixedPoint(rt, rules, maxIterations - passes, current);
            PassesSplit(rt, rules, passes, maxIterations - passes, plan);
          }
          break;
        }
        i := i + 1;
      }
      forall bools | Optimizable(rt, bools, plan) ensures Refines(rt, bools, plan, current) {
        PassesRefine(rt, bools, rules, passes, plan);
      }
    }

    method OnePass(rt: Runtime, plan: LogicalPlan) returns (current: LogicalPlan)
      ensures current == Pass(rt, rules, plan)
    {
      current := plan;
      for i := 0 to |rules|
        invariant current == Pass(rt, rules[..i], plan)
      {
        assert rules[..i + 1][..i] == rules[..i];
        current := Apply(rt, rules[i], current);
      }
      assert rules[..|rules|] == rules;
    }
  }

  // ---- where the hypotheses are needed -------------------------------------

  lemma FoldKeepsKind(e: Expr)
    ensures (Fold(e).Column? || Fold(e).Alias?) <==> (e.Column? || e.Alias?)
  {
  }

  lemma FoldedName(rt: Runtime, e: Expr)
    requires forall c, d :: rt.repr(c) == rt.repr(d) ==> c == d
    ensures OutputName(rt, Fold(e)) == OutputName(rt, e) <==> e.Column? || e.Alias? || Fold(e) == e
  {
    FoldKeepsKind(e);
  }

  /** An unaliased computed column is named by its text, which folding changes: a Project
      keeps its column names exactly when each of its columns is a plain column, has an
      alias, or has nothing to fold.  (Different expressions have different texts.) */
  lemma FoldingKeepsNamesIff(rt: Runtime, c: LogicalPlan, cols: seq<Expr>)
    requires forall d, e :: rt.repr(d) == rt.repr(e) ==> d == e
    ensures Names(rt, MapExpressions(Project(c, cols), Fold)) == OutputNames(rt, cols)
            <==> forall i :: 0 <= i < |cols| ==> cols[i].Column? || cols[i].Alias? || Fold(cols[i]) == cols[i]
  {
    hide Fold;
    var before, after := OutputNames(rt, cols), OutputNames(rt, MapAll(Fold, cols));
    forall i | 0 <= i < |cols|
      ensures after[i] == before[i] <==> cols[i].Column? || cols[i].Alias? || Fold(cols[i]) == cols[i]
    {
      FoldedName(rt, cols[i]);
      assert after[i] == OutputName(rt, Fold(cols[i]));
    }
    assert after == before <==> forall i :: 0 <= i < |cols| ==> after[i] == before[i];
  }
}
