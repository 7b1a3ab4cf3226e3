/**
 ProjectionPruning (minispark/optimizer/rules.py, `_prune`): narrowing scans to the
 columns that are needed above them.
 */
module Pruning {
  import opened Options
  import opened Values
  import opened Expressions
  import opened ExpressionRules
  import opened Sequences
  import opened Sorting
  import opened AggregateFunctions
  import opened GroupTables
  import opened Joins
  import opened RowOperators
  import opened Logical
  import opened PlanRules

  /** The names in `needed`, in schema order. */
  function Keeping(names: seq<string>, needed: set<string>): (kept: seq<string>)
    ensures forall c :: c in kept <==> c in names && c in needed
    ensures |kept| <= |names|
    ensures NameSet(names) <= needed ==> kept == names
  {
    if names == [] then []
    else (if names[0] in needed then [names[0]] else []) + Keeping(names[1..], needed)
  }

  function PruneScan(scan: LogicalPlan, needed: set<string>): LogicalPlan
    requires scan.Scan?
  {
    var keep := Keeping(scan.names, needed);
    if keep != [] && |keep| < |scan.names| then Project(scan, ColumnsOf(keep)) else scan
  }

  /** `needed` is what is read above; None while nothing above has narrowed the columns. */
  function Prune(rt: Runtime, p: LogicalPlan, needed: Option<set<string>>): LogicalPlan {
    match p
    case Scan(_, _, _, _) => if needed.None? then p else PruneScan(p, needed.value)
    case Filter(c, cond) => Filter(Prune(rt, c, AndAlso(needed, ReferencedColumns(cond))), cond)
    case Project(c, cols) => Project(Prune(rt, c, Some(ReferencedByAll(cols))), cols)
    case Aggregation(c, g, a) => Aggregation(Prune(rt, c, Some(ReferencedByAll(g) + ReferencedByAll(a))), g, a)
    case Join(l, r, on, b) =>
      var (ln, rn) := SideNeeds(rt, p, needed);
      Join(Prune(rt, l, Some(ln)), Prune(rt, r, Some(rn)), on, b)
    case Sort(c, ks) => Sort(Prune(rt, c, AndAlso(needed, KeyColumns(ks))), ks)
  }

  function AndAlso(needed: Option<set<string>>, more: set<string>): Option<set<string>> {
    if needed.None? then None else Some(needed.value + more)
  }

  function SideNeeds(rt: Runtime, p: LogicalPlan, needed: Option<set<string>>): (set<string>, set<string>)
    requires p.Join?
  {
    var l, r, on := Columns(rt, p.left), Columns(rt, p.right), NameSet(p.on);
    if needed.None? then (l, r) else (needed.value * l + on, needed.value * r + on)
  }

  // ---- operators that read fewer columns -----------------------------------

  lemma {:induction false} MatchesAgree(j: JoinSpec, k: Key, cols: set<string>, a: seq<Record>, b: seq<Record>)
    requires ReferencedByAll(j.leftKeys) <= cols && AgreeRows(cols, a, b)
    ensures AgreeRows(cols, LeftMatches(j, k, a), LeftMatches(j, k, b))
  {
    if a != [] {
      var n := |a| - 1;
      MatchesAgree(j, k, cols, a[..n], b[..n]);
      EvalAllAgree(j.leftKeys, a[n], b[n]);
    }
  }

  lemma MergedAgree(j: JoinSpec, cols: set<string>, l: Record, l': Record, r: Record, r': Record)
    requires Agree(cols, l, l') && Agree(cols, r, r')
    ensures Agree(cols, Merged(j, l, r), Merged(j, l', r'))
  {
  }

  lemma PairsAgree(j: JoinSpec, cols: set<string>, a: seq<Record>, b: seq<Record>, r: Record, r': Record)
    requires ReferencedByAll(j.leftKeys) <= cols && ReferencedByAll(j.rightKeys) <= cols
    requires AgreeRows(cols, a, b) && Agree(cols, r, r')
    ensures AgreeRows(cols, Pairs(j, a, r), Pairs(j, b, r'))
  {
    EvalAllAgree(j.rightKeys, r, r');
    var k := EvalAll(j.rightKeys, r);
    MatchesAgree(j, k, cols, a, b);
    var ls, ls' := LeftMatches(j, k, a), LeftMatches(j, k, b);
    forall i | 0 <= i < |ls| ensures Agree(cols, MergeEach(j, ls, r)[i], MergeEach(j, ls', r')[i]) {
      MergedAgree(j, cols, ls[i], ls'[i], r, r');
    }
  }

  lemma AgreeConcat(cols: set<string>, a: seq<Record>, b: seq<Record>, x: seq<Record>, y: seq<Record>)
    requires AgreeRows(cols, a, b) && AgreeRows(cols, x, y)
    ensures AgreeRows(cols, a + x, b + y)
  {
  }

  /** A join reads its keys and whatever is read above it. */
  lemma {:induction false} JoinAgree(j: JoinSpec, cols: set<string>, a: seq<Record>, a': seq<Record>,
                                     b: seq<Record>, b': seq<Record>)
    requires ReferencedByAll(j.leftKeys) <= cols && ReferencedByAll(j.rightKeys) <= cols
    requires AgreeRows(cols, a, a') && AgreeRows(cols, b, b')
    ensures AgreeRows(cols, JoinRows(j, a, b), JoinRows(j, a', b'))
  {
    if b != [] {
      var n := |b| - 1;
      JoinAgree(j, cols, a, a', b[..n], b'[..n]);
      PairsAgree(j, cols, a, a', b[n], b'[n]);
      AgreeConcat(cols, JoinRows(j, a, b[..n]), JoinRows(j, a', b'[..n]), Pairs(j, a, b[n]), Pairs(j, a', b'[n]));
    }
  }

  lemma UpdateAgree(e: Expr, s: Value, x: Record, y: Record)
    requires Agree(ReferencedColumns(e), x, y)
    ensures Update(UnwrapAlias(e), s, x) == Update(UnwrapAlias(e), s, y)
  {
    var f := UnwrapAlias(e);
    assert ReferencedColumns(f) == ReferencedColumns(e);
    if f.Aggregate? { EvalAgree(f.child, x, y); }
  }

  lemma {:induction false} ContributionAgree(h: HashAgg, x: Record, y: Record)
    requires h.isPartial && Agree(ReferencedByAll(h.aggregates), x, y)
    ensures Contribution(h, x) == Contribution(h, y)
  {
    var fs := Functions(h);
    var s := InitializeAll(fs);
    forall i | 0 <= i < |fs| ensures Update(fs[i], s[i], x) == Update(fs[i], s[i], y) {
      assert ReferencedColumns(h.aggregates[i]) <= ReferencedByAll(h.aggregates);
      UpdateAgree(h.aggregates[i], s[i], x, y);
    }
  }

  /** Grouping reads the group columns and the aggregated ones. */
  lemma {:induction false} TableAgree(h: HashAgg, a: seq<Record>, b: seq<Record>)
    requires h.isPartial && AgreeRows(ReferencedByAll(h.groupBy) + ReferencedByAll(h.aggregates), a, b)
    ensures TableOf(h, a) == TableOf(h, b) && KeysInOrder(h, a) == KeysInOrder(h, b)
  {
    hide Contribution, MergeTables;
    if a != [] {
      var n := |a| - 1;
      TableAgree(h, a[..n], b[..n]);
      EvalAllAgree(h.groupBy, a[n], b[n]);
      ContributionAgree(h, a[n], b[n]);
    }
  }

  // ---- pruning keeps what is needed ----------------------------------------

  /** q stands for p where only the columns in `needed` are read. */
  ghost predicate Narrows(rt: Runtime, bools: set<string>, p: LogicalPlan, q: LogicalPlan, needed: set<string>) {
    && Optimizable(rt, bools, q)
    && Columns(rt, q) <= Columns(rt, p) && needed * Columns(rt, p) <= Columns(rt, q)
    && AllNames(rt, q) <= AllNames(rt, p)
    && AgreeRows(needed, Rows(rt, q), Rows(rt, p))
  }

  lemma ColumnNames(rt: Runtime, names: seq<string>)
    ensures OutputNames(rt, ColumnsOf(names)) == names
    ensures ReferencedByAll(ColumnsOf(names)) == NameSet(names)
  {
    var es := ColumnsOf(names);
    forall i | 0 <= i < |names| ensures names[i] in ReferencedByAll(es) {
      assert ReferencedColumns(es[i]) <= ReferencedByAll(es);
    }
    ReferencedByColumns(es);
  }

  lemma {:induction false} ReferencedByColumns(es: seq<Expr>)
    requires forall i :: 0 <= i < |es| ==> es[i].Column?
    ensures forall c :: c in ReferencedByAll(es) ==> Column(c) in es
  {
    if es != [] { ReferencedByColumns(es[1..]); }
  }

  lemma {:induction false} KeepingNoDuplicates(names: seq<string>, needed: set<string>)
    requires NoDuplicates(names)
    ensures NoDuplicates(Keeping(names, needed))
  {
    if names != [] {
      KeepingNoDuplicates(names[1..], needed);
      var rest := Keeping(names[1..], needed);
      forall i | 0 <= i < |rest| ensures rest[i] != names[0] {
        assert rest[i] in names[1..];
      }
    }
  }

  lemma ScanFacts(rt: Runtime, bools: set<string>, p: LogicalPlan)
    requires p.Scan? && Optimizable(rt, bools, p)
    ensures NoDuplicates(p.names)
    ensures forall r :: r in Rows(rt, p) ==> r.Keys == NameSet(p.names) && HoldsBooleans(bools, NameSet(p.names), r)
  {
  }

  /** The pruned scan, as a plan: a plain projection of kept columns. */
  lemma PrunedScanOk(rt: Runtime, bools: set<string>, p: LogicalPlan, keep: seq<string>)
    requires p.Scan? && Optimizable(rt, bools, p) && NoDuplicates(keep) && NameSet(keep) <= NameSet(p.names)
    ensures var q := Project(p, ColumnsOf(keep));
            Optimizable(rt, bools, q) && Names(rt, q) == keep && AllNames(rt, q) == AllNames(rt, p)
  {
    ColumnNames(rt, keep);
    var q := Project(p, ColumnsOf(keep));
    assert Columns(rt, p) == NameSet(p.names);
    assert Analyzed(rt, q);
    assert FreshAliases(rt, q);
    assert BooleansOk(rt, bools, q);
  }

  lemma PrunedRow(rt: Runtime, keep: seq<string>, needed: set<string>, x: Record)
    requires NoDuplicates(keep) && NameSet(keep) <= x.Keys && needed * x.Keys <= NameSet(keep)
    ensures Agree(needed, ProjectRow(ColumnsOf(keep), keep, x), x)
  {
    ColumnNames(rt, keep);
    PlainRow(rt, ColumnsOf(keep), x);
  }

  lemma PruneScanNarrows(rt: Runtime, bools: set<string>, p: LogicalPlan, needed: set<string>)
    requires p.Scan? && Optimizable(rt, bools, p)
    ensures Narrows(rt, bools, p, PruneScan(p, needed), needed)
  {
    ScanFacts(rt, bools, p);
    var keep := Keeping(p.names, needed);
    if keep != [] && |keep| < |p.names| {
      KeepingNoDuplicates(p.names, needed);
      PrunedScanOk(rt, bools, p, keep);
      var q, rows := PruneScan(p, needed), Rows(rt, p);
      ColumnNames(rt, keep);
      forall i | 0 <= i < |rows| ensures Agree(needed, Rows(rt, q)[i], rows[i]) {
        assert rows[i] in Rows(rt, p);
        PrunedRow(rt, keep, needed, rows[i]);
      }
    }
  }

  lemma FilterNarrows(rt: Runtime, bools: set<string>, p: LogicalPlan, q: LogicalPlan, needed: set<string>)
    requires p.Filter? && Optimizable(rt, bools, p)
    requires Narrows(rt, bools, p.child, q, needed + ReferencedColumns(p.condition))
    ensures Narrows(rt, bools, p, Filter(q, p.condition), needed)
  {
    var all := needed + ReferencedColumns(p.condition);
    FilterFacts(rt, bools, p.child, p.condition);
    FilterWithin(rt, bools, q, p.condition);
    FilterAgree(p.condition, all, Rows(rt, q), Rows(rt, p.child));
    AgreeFewer(needed, all, Rows(rt, Filter(q, p.condition)), Rows(rt, p));
  }

  lemma ProjectNarrows(rt: Runtime, bools: set<string>, p: LogicalPlan, q: LogicalPlan)
    requires p.Project? && Optimizable(rt, bools, p)
    requires Narrows(rt, bools, p.child, q, ReferencedByAll(p.columns))
    ensures Refines(rt, bools, p, Project(q, p.columns))
  {
    ProjectFacts(rt, bools, p);
    ProjectAgree(p.columns, OutputNames(rt, p.columns), Rows(rt, q), Rows(rt, p.child));
    var d := Project(q, p.columns);
    assert ReferencedByAll(p.columns) <= Columns(rt, q);
    assert Analyzed(rt, d);
    assert FreshAliases(rt, d);
    assert BooleansOk(rt, bools, d);
  }

  lemma AggregationNarrows(rt: Runtime, bools: set<string>, p: LogicalPlan, q: LogicalPlan)
    requires p.Aggregation? && Optimizable(rt, bools, p)
    requires Narrows(rt, bools, p.child, q, ReferencedByAll(p.groupBy) + ReferencedByAll(p.aggregates))
    ensures Refines(rt, bools, p, Aggregation(q, p.groupBy, p.aggregates))
  {
    AggregationFacts(rt, bools, p);
    TableAgree(Partial(p.groupBy, p.aggregates), Rows(rt, q), Rows(rt, p.child));
    AggregationShape(rt, bools, p, q);
  }

  lemma SortNarrows(rt: Runtime, bools: set<string>, p: LogicalPlan, q: LogicalPlan, needed: set<string>)
    requires p.Sort? && Optimizable(rt, bools, p)
    requires Narrows(rt, bools, p.child, q, needed + KeyColumns(p.keys))
    ensures Narrows(rt, bools, p, Sort(q, p.keys), needed)
  {
    var all := needed + KeyColumns(p.keys);
    SortFacts(rt, bools, p);
    SortShape(rt, bools, p, q);
    SortAgree(p.keys, all, Rows(rt, q), Rows(rt, p.child));
    AgreeFewer(needed, all, Rows(rt, Sort(q, p.keys)), Rows(rt, p));
  }

  /** Rows that have no column outside `own` agree on every name outside it. */
  lemma AgreeBeyond(some: set<string>, all: set<string>, own: set<string>, a: seq<Record>, b: seq<Record>)
    requires AgreeRows(some, a, b) && all * own <= some
    requires forall i :: 0 <= i < |a| ==> a[i].Keys <= own && b[i].Keys <= own
    ensures AgreeRows(all, a, b)
  {
    forall i, c | 0 <= i < |a| && c in all
      ensures (c in a[i] <==> c in b[i]) && (c in a[i] ==> a[i][c] == b[i][c])
    {
      assert Agree(some, a[i], b[i]);
      if c !in own { assert c !in a[i].Keys && c !in b[i].Keys; }
    }
  }

  lemma SideAgrees(rt: Runtime, bools: set<string>, p: LogicalPlan, q: LogicalPlan, some: set<string>, all: set<string>)
    requires Optimizable(rt, bools, p) && Narrows(rt, bools, p, q, some) && all * Columns(rt, p) <= some
    ensures AgreeRows(all, Rows(rt, q), Rows(rt, p))
  {
    var a, b := Rows(rt, q), Rows(rt, p);
    forall i | 0 <= i < |a| ensures a[i].Keys <= Columns(rt, p) && b[i].Keys <= Columns(rt, p) {
      RowsOk(rt, bools, q, a[i]);
      RowsOk(rt, bools, p, b[i]);
    }
    AgreeBeyond(some, all, Columns(rt, p), a, b);
  }

  lemma JoinNarrowsShape(rt: Runtime, bools: set<string>, p: LogicalPlan, l: LogicalPlan, r: LogicalPlan, needed: set<string>)
    requires p.Join? && Optimizable(rt, bools, p)
    requires Narrows(rt, bools, p.left, l, needed * Columns(rt, p.left) + NameSet(p.on))
    requires Narrows(rt, bools, p.right, r, needed * Columns(rt, p.right) + NameSet(p.on))
    ensures var q := Join(l, r, p.on, p.broadcast);
            && Optimizable(rt, bools, q) && AllNames(rt, q) <= AllNames(rt, p)
            && Columns(rt, q) <= Columns(rt, p) && needed * Columns(rt, p) <= Columns(rt, q)
  {
    hide Rows;
    var q := Join(l, r, p.on, p.broadcast);
    JoinFacts(rt, bools, p);
    JoinColumns(rt, p);
    JoinColumns(rt, q);
    assert NameSet(p.on) <= Columns(rt, l) && NameSet(p.on) <= Columns(rt, r);
    assert Columns(rt, l) * Columns(rt, r) <= NameSet(p.on);
    hide Names, NameSet, AgreeRows, Columns;
  }

  lemma JoinNarrowsRows(rt: Runtime, on: seq<string>, needed: set<string>, l: seq<Record>, l': seq<Record>,
                        r: seq<Record>, r': seq<Record>, out: seq<Record>, out': seq<Record>)
    requires AgreeRows(needed + NameSet(on), l, l') && AgreeRows(needed + NameSet(on), r, r')
    requires out == JoinRows(JoinOn(on), l, r) && out' == JoinRows(JoinOn(on), l', r')
    ensures AgreeRows(needed, out, out')
  {
    var j, all := JoinOn(on), needed + NameSet(on);
    ColumnNames(rt, on);
    JoinAgree(j, all, l, l', r, r');
    AgreeFewer(needed, all, out, out');
  }

  lemma SetSplit(needed: set<string>, on: set<string>, own: set<string>)
    ensures (needed + on) * own <= needed * own + on
  {
  }

  lemma JoinSidesAgree(rt: Runtime, bools: set<string>, p: LogicalPlan, l: LogicalPlan, r: LogicalPlan, needed: set<string>)
    requires p.Join? && Optimizable(rt, bools, p)
    requires Narrows(rt, bools, p.left, l, needed * Columns(rt, p.left) + NameSet(p.on))
    requires Narrows(rt, bools, p.right, r, needed * Columns(rt, p.right) + NameSet(p.on))
    ensures AgreeRows(needed + NameSet(p.on), Rows(rt, l), Rows(rt, p.left))
    ensures AgreeRows(needed + NameSet(p.on), Rows(rt, r), Rows(rt, p.right))
  {
    var on := NameSet(p.on);
    JoinFacts(rt, bools, p);
    SetSplit(needed, on, Columns(rt, p.left));
    SetSplit(needed, on, Columns(rt, p.right));
    SideAgrees(rt, bools, p.left, l, needed * Columns(rt, p.left) + on, needed + on);
    SideAgrees(rt, bools, p.right, r, needed * Columns(rt, p.right) + on, needed + on);
  }

  lemma JoinNarrows(rt: Runtime, bools: set<string>, p: LogicalPlan, l: LogicalPlan, r: LogicalPlan, needed: set<string>)
    requires p.Join? && Optimizable(rt, bools, p)
    requires Narrows(rt, bools, p.left, l, needed * Columns(rt, p.left) + NameSet(p.on))
    requires Narrows(rt, bools, p.right, r, needed * Columns(rt, p.right) + NameSet(p.on))
    ensures Narrows(rt, bools, p, Join(l, r, p.on, p.broadcast), needed)
  {
    hide Analyzed, FreshAliases, BooleansOk, Names, AllNames;
    JoinSidesAgree(rt, bools, p, l, r, needed);
    JoinNarrowsRows(rt, p.on, needed, Rows(rt, l), Rows(rt, p.left), Rows(rt, r), Rows(rt, p.right),
                    Rows(rt, Join(l, r, p.on, p.broadcast)), Rows(rt, p));
    JoinNarrowsShape(rt, bools, p, l, r, needed);
  }

  lemma RefinesNarrows(rt: Runtime, bools: set<string>, p: LogicalPlan, q: LogicalPlan, needed: set<string>)
    requires Refines(rt, bools, p, q)
    ensures Narrows(rt, bools, p, q, needed)
  {
  }

  /** The pruned plan has the same rows, in order, restricted to the needed columns. */
  lemma {:induction false} PruneNarrows(rt: Runtime, bools: set<string>, p: LogicalPlan, needed: set<string>)
    requires Optimizable(rt, bools, p)
    ensures Narrows(rt, bools, p, Prune(rt, p, Some(needed)), needed)
  {
    hide Analyzed, FreshAliases, BooleansOk, Rows, Names, AllNames;
    match p
    case Scan(_, _, _, _) => PruneScanNarrows(rt, bools, p, needed);
    case Filter(c, cond) =>
      FilterFacts(rt, bools, c, cond);
      var all := needed + ReferencedColumns(cond);
      PruneNarrows(rt, bools, c, all);
      FilterNarrows(rt, bools, p, Prune(rt, c, Some(all)), needed);
    case Project(c, cols) =>
      ProjectFacts(rt, bools, p);
      PruneNarrows(rt, bools, c, ReferencedByAll(cols));
      ProjectNarrows(rt, bools, p, Prune(rt, c, Some(ReferencedByAll(cols))));
      RefinesNarrows(rt, bools, p, Prune(rt, p, Some(needed)), needed);
    case Aggregation(c, g, a) =>
      AggregationFacts(rt, bools, p);
      var all := ReferencedByAll(g) + ReferencedByAll(a);
      PruneNarrows(rt, bools, c, all);
      AggregationNarrows(rt, bools, p, Prune(rt, c, Some(all)));
      RefinesNarrows(rt, bools, p, Prune(rt, p, Some(needed)), needed);
    case Join(l, r, on, _) =>
      JoinFacts(rt, bools, p);
      var (ln, rn) := SideNeeds(rt, p, Some(needed));
      PruneNarrows(rt, bools, l, ln);
      PruneNarrows(rt, bools, r, rn);
      JoinNarrows(rt, bools, p, Prune(rt, l, Some(ln)), Prune(rt, r, Some(rn)), needed);
    case Sort(c, ks) =>
      SortFacts(rt, bools, p);
      var all := needed + KeyColumns(ks);
      PruneNarrows(rt, bools, c, all);
      SortNarrows(rt, bools, p, Prune(rt, c, Some(all)), needed);
  }

  /** When everything is needed, the schema does not change either. */
  lemma {:induction false} PruneKeepsNames(rt: Runtime, bools: set<string>, p: LogicalPlan, needed: set<string>)
    requires Optimizable(rt, bools, p) && Columns(rt, p) <= needed
    ensures Names(rt, Prune(rt, p, Some(needed))) == Names(rt, p)
  {
    match p
    case Scan(_, _, _, _) =>
    case Filter(c, cond) => FilterFacts(rt, bools, c, cond); PruneKeepsNames(rt, bools, c, needed + ReferencedColumns(cond));
    case Join(l, r, _, _) =>
      JoinFacts(rt, bools, p);
      JoinColumns(rt, p);
      var (ln, rn) := SideNeeds(rt, p, Some(needed));
      PruneKeepsNames(rt, bools, l, ln);
      PruneKeepsNames(rt, bools, r, rn);
    case Sort(c, ks) => SortFacts(rt, bools, p); PruneKeepsNames(rt, bools, c, needed + KeyColumns(ks));
    case _ =>
  }

  lemma NarrowsToAll(rt: Runtime, bools: set<string>, p: LogicalPlan, q: LogicalPlan, needed: set<string>)
    requires Optimizable(rt, bools, p) && Narrows(rt, bools, p, q, needed) && Columns(rt, p) <= needed
    ensures Rows(rt, q) == Rows(rt, p)
  {
    var a, b := Rows(rt, q), Rows(rt, p);
    forall i | 0 <= i < |a| ensures a[i] == b[i] {
      RowsOk(rt, bools, q, a[i]);
      RowsOk(rt, bools, p, b[i]);
      SameRecord(a[i], b[i]);
    }
  }

  lemma PruneWhole(rt: Runtime, bools: set<string>, p: LogicalPlan, needed: set<string>)
    requires Optimizable(rt, bools, p) && Columns(rt, p) <= needed
    ensures Refines(rt, bools, p, Prune(rt, p, Some(needed)))
  {
    PruneNarrows(rt, bools, p, needed);
    PruneKeepsNames(rt, bools, p, needed);
    NarrowsToAll(rt, bools, p, Prune(rt, p, Some(needed)), needed);
  }

  /** ProjectionPruning (needed=None at the root) keeps the plan's rows. */
  lemma {:induction false} PruneRefines(rt: Runtime, bools: set<string>, p: LogicalPlan)
    requires Optimizable(rt, bools, p)
    ensures Refines(rt, bools, p, Prune(rt, p, None))
  {
    hide Analyzed, FreshAliases, BooleansOk, Rows, Names, AllNames;
    match p
    case Scan(_, _, _, _) =>
    case Filter(c, cond) =>
      FilterFacts(rt, bools, c, cond);
      PruneRefines(rt, bools, c);
      FilterOver(rt, bools, p, Prune(rt, c, None));
    case Project(c, cols) =>
      ProjectFacts(rt, bools, p);
      PruneNarrows(rt, bools, c, ReferencedByAll(cols));
      ProjectNarrows(rt, bools, p, Prune(rt, c, Some(ReferencedByAll(cols))));
    case Aggregation(c, g, a) =>
      AggregationFacts(rt, bools, p);
      var all := ReferencedByAll(g) + ReferencedByAll(a);
      PruneNarrows(rt, bools, c, all);
      AggregationNarrows(rt, bools, p, Prune(rt, c, Some(all)));
    case Join(l, r, _, _) =>
      JoinFacts(rt, bools, p);
      PruneWhole(rt, bools, l, Columns(rt, l));
      PruneWhole(rt, bools, r, Columns(rt, r));
      JoinOver(rt, bools, p, Prune(rt, l, Some(Columns(rt, l))), Prune(rt, r, Some(Columns(rt, r))));
    case Sort(c, ks) =>
      SortFacts(rt, bools, p);
      PruneRefines(rt, bools, c);
      SortOver(rt, bools, p, Prune(rt, c, None));
  }

  /** Whatever else is needed, a pruned child agrees on the columns read here. */
  lemma PrunedAgree(rt: Runtime, bools: set<string>, c: LogicalPlan, needed: Option<set<string>>, here: set<string>)
    requires Optimizable(rt, bools, c)
    ensures AgreeRows(here, Rows(rt, Prune(rt, c, AndAlso(needed, here))), Rows(rt, c))
  {
    if needed.None? {
      PruneRefines(rt, bools, c);
    } else {
      PruneNarrows(rt, bools, c, needed.value + here);
      AgreeFewer(here, needed.value + here, Rows(rt, Prune(rt, c, Some(needed.value + here))), Rows(rt, c));
    }
  }
}
