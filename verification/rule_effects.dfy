/**
 What the rules achieve: folded expressions hold no operator that could be applied, pushdown
 and elimination rest only when they have nothing left to do, pruned plans read no column
 that nothing above asks for, and sources are asked for just that
 (minispark/optimizer/rules.py, minispark/physical/planner.py `_walk_for_pushdown`).
 */
module RuleEffects {
  import opened Options
  import opened Values
  import opened Expressions
  import opened ExpressionRules
  import opened Sequences
  import opened Sorting
  import opened Logical
  import opened PlanRules
  import opened Pruning
  import opened Optimizers
  import opened ScanPushdown

  // ---- constant folding ----------------------------------------------------

  /** No operator is left with nothing but literals to work on. */
  predicate Folded(e: Expr) {
    match e
    case Binary(_, l, r) => Folded(l) && Folded(r) && !(l.Literal? && r.Literal?)
    case Not(c) => Folded(c) && !c.Literal?
    case IsNull(c) => Folded(c) && !c.Literal?
    case IsNotNull(c) => Folded(c) && !c.Literal?
    case Alias(c, _) => Folded(c)
    case _ => true
  }

  lemma {:induction false} FoldFolds(e: Expr)
    ensures Folded(Fold(e))
  {
    match e
    case Binary(_, l, r) => FoldFolds(l); FoldFolds(r);
    case Not(c) => FoldFolds(c);
    case IsNull(c) => FoldFolds(c);
    case IsNotNull(c) => FoldFolds(c);
    case Alias(c, _) => FoldFolds(c);
    case _ =>
  }

  /** Made of literals and operators only. */
  predicate Constant(e: Expr) {
    match e
    case Literal(_) => true
    case Binary(_, l, r) => Constant(l) && Constant(r)
    case Not(c) => Constant(c)
    case IsNull(c) => Constant(c)
    case IsNotNull(c) => Constant(c)
    case _ => false
  }

  /** An expression of literals folds to the one literal it evaluates to. */
  lemma {:induction false} ConstantsFoldAway(e: Expr, r: Record)
    requires Constant(e)
    ensures Fold(e) == Literal(Eval(e, r))
  {
    hide ApplyOp, Truthy;
    match e
    case Literal(_) =>
    case Binary(_, a, b) => ConstantsFoldAway(a, r); ConstantsFoldAway(b, r);
    case Not(c) => ConstantsFoldAway(c, r);
    case IsNull(c) => ConstantsFoldAway(c, r);
    case IsNotNull(c) => ConstantsFoldAway(c, r);
  }

  // ---- the rule list -------------------------------------------------------

  predicate Enabled(config: OptimizerConfig, rule: Rule) {
    match rule
    case PredicatePushdown => config.predicatePushdown
    case ProjectionPruning => config.projectionPruning
    case _ => true
  }

  /** Where a rule stands: expressions first, then filters, then columns. */
  function Turn(rule: Rule): nat {
    match rule
    case ConstantFolding => 0
    case FilterSimplification => 1
    case PredicatePushdown => 2
    case ProjectionPruning => 3
    case RedundantProjectionElimination => 4
  }

  /** The rules are those enabled, each once, in their turn. */
  lemma DefaultRulesAre(config: OptimizerConfig)
    ensures forall rule :: rule in DefaultRules(config) <==> Enabled(config, rule)
    ensures forall i, j :: 0 <= i < j < |DefaultRules(config)| ==> Turn(DefaultRules(config)[i]) < Turn(DefaultRules(config)[j])
  {
    var rules := DefaultRules(config);
    forall rule ensures rule in rules <==> Enabled(config, rule) {
      assert rules[0] == ConstantFolding && rules[1] == FilterSimplification;
      assert rules[|rules| - 1] == RedundantProjectionElimination;
      if config.predicatePushdown { assert rules[2] == PredicatePushdown; }
      if config.projectionPruning { assert rules[|rules| - 2] == ProjectionPruning; }
    }
  }

  // ---- pushdown and elimination --------------------------------------------

  /** Does the filter read only columns that q has? */
  ghost predicate CanGoBelow(rt: Runtime, cond: Expr, q: LogicalPlan) {
    ReferencedColumns(cond) <= Columns(rt, q)
  }

  /** No filter stands over a projection or a join that it could go below. */
  ghost predicate NothingToPush(rt: Runtime, p: LogicalPlan) {
    match p
    case Scan(_, _, _, _) => true
    case Project(c, _) => NothingToPush(rt, c)
    case Aggregation(c, _, _) => NothingToPush(rt, c)
    case Join(l, r, _, _) => NothingToPush(rt, l) && NothingToPush(rt, r)
    case Sort(c, _) => NothingToPush(rt, c)
    case Filter(c, cond) =>
      && NothingToPush(rt, c)
      && (c.Project? ==> !CanGoBelow(rt, cond, c.child))
      && (c.Join? ==> !CanGoBelow(rt, cond, c.left) && !CanGoBelow(rt, cond, c.right))
  }

  /** Pushdown leaves a plan alone exactly when there is nothing left to push. */
  lemma {:induction false} PushdownRestsIff(rt: Runtime, p: LogicalPlan)
    ensures Pushdown(rt, p) == p <==> NothingToPush(rt, p)
  {
    match p
    case Scan(_, _, _, _) =>
    case Project(c, _) => PushdownRestsIff(rt, c);
    case Aggregation(c, _, _) => PushdownRestsIff(rt, c);
    case Join(l, r, _, _) => PushdownRestsIff(rt, l); PushdownRestsIff(rt, r);
    case Sort(c, _) => PushdownRestsIff(rt, c);
    case Filter(c, _) => PushdownRestsIff(rt, c);
  }

  function PlanSize(p: LogicalPlan): nat {
    match p
    case Scan(_, _, _, _) => 1
    case Filter(c, _) => 1 + PlanSize(c)
    case Project(c, _) => 1 + PlanSize(c)
    case Aggregation(c, _, _) => 1 + PlanSize(c)
    case Join(l, r, _, _) => 1 + PlanSize(l) + PlanSize(r)
    case Sort(c, _) => 1 + PlanSize(c)
  }

  /** No projection passes on all its columns as they come, or reads from one that only
      picks columns. */
  ghost predicate NothingToEliminate(rt: Runtime, p: LogicalPlan) {
    match p
    case Scan(_, _, _, _) => true
    case Filter(c, _) => NothingToEliminate(rt, c)
    case Aggregation(c, _, _) => NothingToEliminate(rt, c)
    case Join(l, r, _, _) => NothingToEliminate(rt, l) && NothingToEliminate(rt, r)
    case Sort(c, _) => NothingToEliminate(rt, c)
    case Project(c, cols) =>
      && NothingToEliminate(rt, c)
      && !(PlainColumns(cols) && OutputNames(rt, cols) == Names(rt, c))
      && !(c.Project? && PlainColumns(c.columns))
  }

  /** Elimination leaves a plan alone exactly when there is nothing left to eliminate, and
      makes it smaller otherwise. */
  lemma {:induction false} EliminateRestsIff(rt: Runtime, p: LogicalPlan)
    ensures Eliminate(rt, p) == p <==> NothingToEliminate(rt, p)
    ensures Eliminate(rt, p) == p || PlanSize(Eliminate(rt, p)) < PlanSize(p)
  {
    match p
    case Scan(_, _, _, _) =>
    case Filter(c, _) => EliminateRestsIff(rt, c);
    case Aggregation(c, _, _) => EliminateRestsIff(rt, c);
    case Join(l, r, _, _) => EliminateRestsIff(rt, l); EliminateRestsIff(rt, r);
    case Sort(c, _) => EliminateRestsIff(rt, c);
    case Project(c, _) => EliminateRestsIff(rt, c);
  }

  // ---- pruning -------------------------------------------------------------

  /** q reads of p's scan only what is needed: all its columns are, or it projects to those
      that are; a scan none of whose columns is needed is read as it is. */
  predicate ScanNarrowed(p: LogicalPlan, q: LogicalPlan, needed: Option<set<string>>)
    requires p.Scan?
  {
    if q.Project? then
      q.child == p && PlainColumns(q.columns) && needed.Some? && ReferencedByAll(q.columns) <= needed.value
    else
      q == p && (needed.None? || NameSet(p.names) <= needed.value || NameSet(p.names) !! needed.value)
  }

  /** q is p with every scan narrowed to the columns that something above it reads. */
  ghost predicate Narrowest(rt: Runtime, p: LogicalPlan, q: LogicalPlan, needed: Option<set<string>>)
    decreases p
  {
    match p
    case Scan(_, _, _, _) => ScanNarrowed(p, q, needed)
    case Filter(c, cond) =>
      q.Filter? && q.condition == cond
      && Narrowest(rt, c, q.child, if needed.None? then None else Some(needed.value + ReferencedColumns(cond)))
    case Project(c, cols) => q.Project? && q.columns == cols && Narrowest(rt, c, q.child, Some(ReferencedByAll(cols)))
    case Aggregation(c, g, a) =>
      q.Aggregation? && q.groupBy == g && q.aggregates == a
      && Narrowest(rt, c, q.child, Some(ReferencedByAll(g) + ReferencedByAll(a)))
    case Join(l, r, on, _) =>
      q.Join?
      && Narrowest(rt, l, q.left, Some(SideReads(rt, l, on, needed)))
      && Narrowest(rt, r, q.right, Some(SideReads(rt, r, on, needed)))
    case Sort(c, ks) =>
      q.Sort? && Narrowest(rt, c, q.child, if needed.None? then None else Some(needed.value + KeyColumns(ks)))
  }

  /** What a join passes on of one side, and the columns it joins on. */
  ghost function SideReads(rt: Runtime, side: LogicalPlan, on: seq<string>, needed: Option<set<string>>): set<string> {
    if needed.None? then Columns(rt, side) else needed.value * Columns(rt, side) + NameSet(on)
  }

  lemma PruneScanNarrows(p: LogicalPlan, needed: set<string>)
    requires p.Scan?
    ensures ScanNarrowed(p, PruneScan(p, needed), Some(needed))
  {
    var keep := Keeping(p.names, needed);
    PlainColumnsRead(keep);
    if |keep| == |p.names| { AllKept(p.names, needed); }
    if keep == [] { forall c | c in NameSet(p.names) ensures c !in needed { assert c !in keep; } }
  }

  lemma {:induction false} AllKept(names: seq<string>, needed: set<string>)
    requires |Keeping(names, needed)| == |names|
    ensures NameSet(names) <= needed
  {
    if names != [] {
      assert names[0] in needed;
      AllKept(names[1..], needed);
      assert forall c :: c in names ==> c == names[0] || c in names[1..];
    }
  }

  lemma PlainColumnsRead(names: seq<string>)
    ensures PlainColumns(ColumnsOf(names)) && ReferencedByAll(ColumnsOf(names)) <= NameSet(names)
  {
    ReferencedByColumns(ColumnsOf(names));
    forall c | c in ReferencedByAll(ColumnsOf(names)) ensures c in names {
      var i :| 0 <= i < |names| && ColumnsOf(names)[i] == Column(c);
    }
  }

  /** A pruned plan reads no column of a scan that nothing above it reads. */
  lemma {:induction false} PruneNarrowsScans(rt: Runtime, p: LogicalPlan, needed: Option<set<string>>)
    ensures Narrowest(rt, p, Prune(rt, p, needed), needed)
  {
    hide Columns, PruneScan, ScanNarrowed;
    match p
    case Scan(_, _, _, _) => if needed.Some? { PruneScanNarrows(p, needed.value); } else { WholeScan(p); }
    case Filter(c, cond) => PruneNarrowsScans(rt, c, AndAlso(needed, ReferencedColumns(cond)));
    case Project(c, cols) => PruneNarrowsScans(rt, c, Some(ReferencedByAll(cols)));
    case Aggregation(c, g, a) => PruneNarrowsScans(rt, c, Some(ReferencedByAll(g) + ReferencedByAll(a)));
    case Join(l, r, on, _) =>
      PruneNarrowsScans(rt, l, Some(SideReads(rt, l, on, needed)));
      PruneNarrowsScans(rt, r, Some(SideReads(rt, r, on, needed)));
    case Sort(c, ks) => PruneNarrowsScans(rt, c, AndAlso(needed, KeyColumns(ks)));
  }

  lemma WholeScan(p: LogicalPlan)
    requires p.Scan?
    ensures ScanNarrowed(p, p, None)
  {
  }

  // ---- what sources are asked for ------------------------------------------

  /** Under a filter and a projection a source is asked for the columns the two read, and for
      the filter's rows. */
  lemma SourceIsAsked(read: Reader, scan: LogicalPlan, cond: Expr, cols: seq<Expr>)
    requires scan.Scan? && scan.source.Some?
    ensures var d := read(scan.source.value, Some(ReferencedByAll(cols) + ReferencedColumns(cond)), Some(cond));
            PushdownScanReads(read, Project(Filter(scan, cond), cols))
            == Project(Filter(Scan(d.partitions, d.names, d.types, scan.source), cond), cols)
  {
    var wanted := ReferencedByAll(cols) + ReferencedColumns(cond);
    assert wanted + ReferencedColumns(cond) == wanted;
    var d := read(scan.source.value, Some(wanted), Some(cond));
    assert Walk(read, scan, Some(wanted), Some(cond)) == Scan(d.partitions, d.names, d.types, scan.source);
    assert Walk(read, Filter(scan, cond), Some(ReferencedByAll(cols)), None)
           == Filter(Walk(read, scan, Some(wanted), Some(cond)), cond);
  }

  /** Of two filters it is asked for the rows that pass both. */
  lemma BothFiltersAreAsked(read: Reader, scan: LogicalPlan, f: Expr, g: Expr) returns (both: Expr)
    requires scan.Scan? && scan.source.Some?
    ensures forall r: Record :: Truthy(Eval(both, r)) <==> Truthy(Eval(f, r)) && Truthy(Eval(g, r))
    ensures var d := read(scan.source.value, None, Some(both));
            PushdownScanReads(read, Filter(Filter(scan, f), g))
            == Filter(Filter(Scan(d.partitions, d.names, d.types, scan.source), f), g)
  {
    both := Binary(And, g, f);
    var d := read(scan.source.value, None, Some(both));
    assert Walk(read, scan, None, Some(both)) == Scan(d.partitions, d.names, d.types, scan.source);
    assert Walk(read, Filter(scan, f), None, Some(g)) == Filter(Walk(read, scan, None, Some(both)), f);
  }

  /** Nothing is asked for through a sort, which reads all its rows, nor where nothing is
      projected or filtered. */
  lemma NothingIsAskedThroughSorts(read: Reader, scan: LogicalPlan, ks: seq<SortKey>, cond: Expr, cols: seq<Expr>)
    requires scan.Scan?
    ensures PushdownScanReads(read, Project(Filter(Sort(scan, ks), cond), cols)) == Project(Filter(Sort(scan, ks), cond), cols)
    ensures PushdownScanReads(read, scan) == scan
  {
    assert Walk(read, scan, None, None) == scan;
    var wanted := Some(ReferencedByAll(cols) + ReferencedColumns(cond));
    assert Walk(read, Sort(scan, ks), wanted, Some(cond)) == Sort(scan, ks);
    assert Walk(read, Filter(Sort(scan, ks), cond), Some(ReferencedByAll(cols)), None) == Filter(Sort(scan, ks), cond);
  }
}
