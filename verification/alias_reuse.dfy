/**
 When the aliases of a Project may reuse column names from below it: PredicatePushdown's
 guard only asks whether the names a filter reads exist below the Project
 (minispark/optimizer/rules.py, `_pushdown`).
 */
module AliasReuse {
  import opened Options
  import opened Values
  import opened Expressions
  import opened Sequences
  import opened GroupTables
  import opened Joins
  import opened RowOperators
  import opened Sorting
  import opened Logical
  import opened PlanRules
  import opened Pruning

  /** Some columns of the input kept, and some computed under aliases. */
  function Projected(kept: seq<string>, es: seq<Expr>, aliases: seq<string>): (cols: seq<Expr>)
    requires |es| == |aliases|
    ensures |cols| == |kept| + |aliases|
    ensures forall i :: 0 <= i < |kept| ==> cols[i] == Column(kept[i])
    ensures forall i :: |kept| <= i < |cols| ==> cols[i] == Alias(es[i - |kept|], aliases[i - |kept|])
  {
    ColumnsOf(kept) + seq(|es|, i requires 0 <= i < |es| => Alias(es[i], aliases[i]))
  }

  /** A filter over a projection of a table. */
  function FilteredProject(parts: seq<seq<Record>>, names: seq<string>, kept: seq<string>, es: seq<Expr>,
                           aliases: seq<string>, cond: Expr): LogicalPlan
    requires |es| == |aliases|
  {
    Filter(Project(Scan(parts, names, map[], None), Projected(kept, es, aliases)), cond)
  }

  /** A plan of this form that analyze() accepts. */
  ghost predicate WellFormed(parts: seq<seq<Record>>, names: seq<string>, kept: seq<string>, es: seq<Expr>,
                             aliases: seq<string>, cond: Expr)
  {
    && (forall r :: r in Flatten(parts) ==> r.Keys == NameSet(names))
    && |es| == |aliases| && (forall i :: 0 <= i < |es| ==> ReferencedColumns(es[i]) <= NameSet(names))
    && ReferencedColumns(cond) <= NameSet(kept + aliases)
  }

  /** Pushing filters down keeps the rows, whatever the table of these columns holds, the
      aliases compute and the filter asks. */
  ghost predicate PushdownSafe(rt: Runtime, names: seq<string>, kept: seq<string>, aliases: seq<string>) {
    forall parts, es, cond :: WellFormed(parts, names, kept, es, aliases, cond) ==>
      var p := FilteredProject(parts, names, kept, es, aliases, cond);
      Rows(rt, Pushdown(rt, p)) == Rows(rt, p)
  }

  lemma PushedBelow(rt: Runtime, scan: LogicalPlan, cols: seq<Expr>, cond: Expr)
    requires scan.Scan?
    ensures Pushdown(rt, Filter(Project(scan, cols), cond))
            == if ReferencedColumns(cond) <= Columns(rt, scan) then Project(Filter(scan, cond), cols)
               else Filter(Project(scan, cols), cond)
  {
    assert Pushdown(rt, Project(scan, cols)) == Project(scan, cols);
  }

  lemma NamesOf(rt: Runtime, kept: seq<string>, es: seq<Expr>, aliases: seq<string>)
    requires |es| == |aliases|
    ensures OutputNames(rt, Projected(kept, es, aliases)) == kept + aliases
  {
    hide Projected, OutputNames;
    var cols := Projected(kept, es, aliases);
    forall i | 0 <= i < |cols| ensures OutputNames(rt, cols)[i] == (kept + aliases)[i] {
      assert OutputNames(rt, cols)[i] == OutputName(rt, cols[i]);
    }
  }

  /** Columns that are only kept read the same above and below the projection. */
  lemma KeptReadsBelow(rt: Runtime, names: seq<string>, kept: seq<string>, es: seq<Expr>, aliases: seq<string>, cond: Expr,
                       x: Record)
    requires NameSet(kept) <= NameSet(names) && NoDuplicates(kept + aliases) && |es| == |aliases|
    requires x.Keys == NameSet(names) && ReferencedColumns(cond) <= NameSet(kept)
    ensures var cols := Projected(kept, es, aliases);
            Eval(cond, ProjectRow(cols, OutputNames(rt, cols), x)) == Eval(cond, x)
  {
    hide Eval, ReferencedColumns, ProjectRow;
    var cols := Projected(kept, es, aliases);
    NamesOf(rt, kept, es, aliases);
    var r := ProjectRow(cols, OutputNames(rt, cols), x);
    forall n | n in ReferencedColumns(cond) ensures n in r && n in x && r[n] == x[n] {
      assert n in NameSet(kept) && n in NameSet(names);
      var i :| 0 <= i < |kept| && kept[i] == n;
      assert cols[i] == Column(n);
      PlainColumnPassed(rt, cols, x, i);
    }
    EvalAgree(cond, r, x);
  }

  lemma NewNamesAreSafe(rt: Runtime, parts: seq<seq<Record>>, names: seq<string>, kept: seq<string>, es: seq<Expr>,
                        aliases: seq<string>, cond: Expr)
    requires WellFormed(parts, names, kept, es, aliases, cond)
    requires NameSet(kept) <= NameSet(names) && NoDuplicates(kept + aliases) && NameSet(aliases) !! NameSet(names)
    ensures var p := FilteredProject(parts, names, kept, es, aliases, cond);
            Rows(rt, Pushdown(rt, p)) == Rows(rt, p)
  {
    hide ProjectRow, Eval, ReferencedColumns, Projected;
    var scan, cols := Scan(parts, names, map[], None), Projected(kept, es, aliases);
    PushedBelow(rt, scan, cols, cond);
    if ReferencedColumns(cond) <= NameSet(names) {
      assert ReferencedColumns(cond) <= NameSet(kept);
      forall r | r in Flatten(parts) ensures Eval(cond, ProjectRow(cols, OutputNames(rt, cols), r)) == Eval(cond, r) {
        KeptReadsBelow(rt, names, kept, es, aliases, cond, r);
      }
      FilterBelowProject(cond, cols, OutputNames(rt, cols), Flatten(parts));
      assert Rows(rt, Filter(scan, cond)) == FilterRows(cond, Flatten(parts));
      assert Rows(rt, Project(scan, cols)) == ProjectRows(cols, OutputNames(rt, cols), Flatten(parts));
    }
  }

  /** Literal fives under every alias. */
  function Fives(n: nat): (es: seq<Expr>)
    ensures |es| == n
  {
    seq(n, i => Literal(Num(5.0)))
  }

  lemma FiveUnder(rt: Runtime, kept: seq<string>, aliases: seq<string>, m: nat, x: Record)
    requires NoDuplicates(kept + aliases) && m < |aliases|
    ensures var cols := Projected(kept, Fives(|aliases|), aliases);
            var r := ProjectRow(cols, OutputNames(rt, cols), x);
            aliases[m] in r && r[aliases[m]] == Num(5.0)
  {
    hide Projected, RowFrom, EvalAll, NoDuplicates, OutputNames;
    var cols := Projected(kept, Fives(|aliases|), aliases);
    NamesOf(rt, kept, Fives(|aliases|), aliases);
    assert (kept + aliases)[|kept| + m] == aliases[m];
    RowFromAt(kept + aliases, EvalAll(cols, x), |kept| + m);
    assert cols[|kept| + m] == Alias(Literal(Num(5.0)), aliases[m]);
    assert EvalAll(cols, x)[|kept| + m] == Eval(cols[|kept| + m], x) == Num(5.0);
  }

  lemma AboveThree(alias: string, x: Record)
    requires alias in x && x[alias].Num?
    ensures var cond := Binary(Gt, Column(alias), Literal(Num(3.0)));
            FilterRows(cond, [x]) == (if x[alias].n > 3.0 then [x] else []) && ReferencedColumns(cond) == {alias}
  {
    var cond := Binary(Gt, Column(alias), Literal(Num(3.0)));
    FilterSnoc(cond, [], x);
    assert [] + [x] == [x];
  }

  /** `SELECT 5 AS a` over a table whose column a holds 1, filtered by `a > 3`: pushed
      below the projection the filter reads the other a, and the row is lost. */
  lemma ReusedNameLosesRow(rt: Runtime, names: seq<string>, kept: seq<string>, aliases: seq<string>, m: nat)
    requires NoDuplicates(kept + aliases) && m < |aliases| && aliases[m] in names
    ensures var x: Record := map n | n in NameSet(names) :: Num(1.0);
            var es, cond := Fives(|aliases|), Binary(Gt, Column(aliases[m]), Literal(Num(3.0)));
            var p := FilteredProject([[x]], names, kept, es, aliases, cond);
            && WellFormed([[x]], names, kept, es, aliases, cond)
            && |Rows(rt, p)| == 1 && Rows(rt, Pushdown(rt, p)) == []
  {
    hide FilterRows, ProjectRow, Eval, Projected;
    var x: Record := map n | n in NameSet(names) :: Num(1.0);
    var es, alias := Fives(|aliases|), aliases[m];
    var scan, cols := Scan([[x]], names, map[], None), Projected(kept, es, aliases);
    var cond := Binary(Gt, Column(alias), Literal(Num(3.0)));
    var r := ProjectRow(cols, OutputNames(rt, cols), x);
    assert Flatten([[x]]) == [x];
    FiveUnder(rt, kept, aliases, m, x);
    AboveThree(alias, x);
    AboveThree(alias, r);
    PushedBelow(rt, scan, cols, cond);
    assert alias == (kept + aliases)[|kept| + m];
    assert Rows(rt, Project(scan, cols)) == [r];
    assert Rows(rt, Filter(Project(scan, cols), cond)) == [r];
    assert Rows(rt, Filter(scan, cond)) == [];
  }

  /** A projection is safe for pushdown exactly when its aliases are all new. */
  lemma AliasesAreSafeIff(rt: Runtime, names: seq<string>, kept: seq<string>, aliases: seq<string>)
    requires NameSet(kept) <= NameSet(names) && NoDuplicates(kept + aliases)
    ensures PushdownSafe(rt, names, kept, aliases) <==> NameSet(aliases) !! NameSet(names)
  {
    hide Rows, Pushdown, WellFormed;
    if NameSet(aliases) !! NameSet(names) {
      forall parts, es, cond | WellFormed(parts, names, kept, es, aliases, cond)
        ensures |es| == |aliases|
                && var p := FilteredProject(parts, names, kept, es, aliases, cond);
                   Rows(rt, Pushdown(rt, p)) == Rows(rt, p)
      {
        assert |es| == |aliases| by { SameLength(parts, names, kept, es, aliases, cond); }
        NewNamesAreSafe(rt, parts, names, kept, es, aliases, cond);
      }
    } else {
      var n :| n in NameSet(aliases) && n in NameSet(names);
      var m :| 0 <= m < |aliases| && aliases[m] == n;
      ReusedNameLosesRow(rt, names, kept, aliases, m);
    }
  }

  lemma SameLength(parts: seq<seq<Record>>, names: seq<string>, kept: seq<string>, es: seq<Expr>, aliases: seq<string>,
                   cond: Expr)
    requires WellFormed(parts, names, kept, es, aliases, cond)
    ensures |es| == |aliases|
  {
  }

  // ---- names further below -------------------------------------------------

  /** Plain projections, each keeping some columns of the one below it. */
  function Tower(scan: LogicalPlan, below: seq<seq<string>>): LogicalPlan {
    if below == [] then scan else Project(Tower(scan, below[..|below| - 1]), ColumnsOf(below[|below| - 1]))
  }

  /** The columns on top of the tower. */
  function Visible(names: seq<string>, below: seq<seq<string>>): seq<string> {
    if below == [] then names else below[|below| - 1]
  }

  ghost predicate Narrowing(names: seq<string>, below: seq<seq<string>>) {
    below != [] ==>
      var n := |below| - 1;
      && NoDuplicates(below[n]) && NameSet(below[n]) <= NameSet(Visible(names, below[..n]))
      && Narrowing(names, below[..n])
  }

  /** The filter and projection over a tower of projections of a table. */
  function TowerPlan(parts: seq<seq<Record>>, names: seq<string>, below: seq<seq<string>>, kept: seq<string>,
                     es: seq<Expr>, aliases: seq<string>, cond: Expr): LogicalPlan
    requires |es| == |aliases|
  {
    Filter(Project(Tower(Scan(parts, names, map[], None), below), Projected(kept, es, aliases)), cond)
  }

  /** Eliminating projections and then pushing filters down keeps the rows, whatever the
      table holds, the aliases compute and the filter asks. */
  ghost predicate RulesSafe(rt: Runtime, names: seq<string>, below: seq<seq<string>>, kept: seq<string>, aliases: seq<string>) {
    forall parts, es, cond ::
      WellFormed(parts, names, kept, es, aliases, cond) && ReferencedByAll(es) <= NameSet(Visible(names, below)) ==>
        var p := TowerPlan(parts, names, below, kept, es, aliases, cond);
        Rows(rt, Pushdown(rt, Eliminate(rt, p))) == Rows(rt, p)
  }

  lemma {:induction false} TowerCollapses(rt: Runtime, scan: LogicalPlan, below: seq<seq<string>>)
    requires scan.Scan?
    ensures var d := Eliminate(rt, Tower(scan, below));
            d == scan || (IsPlainProjection(d) && d.child == scan)
  {
    if below != [] { TowerCollapses(rt, scan, below[..|below| - 1]); }
  }

  lemma {:induction false} TowerRow(rt: Runtime, scan: LogicalPlan, below: seq<seq<string>>, r: Record)
    requires scan.Scan? && Narrowing(scan.names, below) && (forall x :: x in Flatten(scan.partitions) ==> x.Keys == NameSet(scan.names))
    requires r in Rows(rt, Tower(scan, below))
    ensures r.Keys == NameSet(Visible(scan.names, below))
  {
    hide RowFrom, EvalAll;
    if below != [] {
      var n := |below| - 1;
      var under := Tower(scan, below[..n]);
      var i :| 0 <= i < |Rows(rt, under)| && r == ProjectRow(ColumnsOf(below[n]), OutputNames(rt, ColumnsOf(below[n])), Rows(rt, under)[i]);
      ColumnNames(rt, below[n]);
    }
  }

  lemma {:induction false} ReferencedWithin(es: seq<Expr>, names: set<string>)
    requires forall i :: 0 <= i < |es| ==> ReferencedColumns(es[i]) <= names
    ensures ReferencedByAll(es) <= names
  {
    if es != [] { ReferencedWithin(es[1..], names); }
  }

  lemma {:induction false} VisibleWithin(names: seq<string>, below: seq<seq<string>>)
    requires Narrowing(names, below)
    ensures NameSet(Visible(names, below)) <= NameSet(names)
  {
    if below != [] { VisibleWithin(names, below[..|below| - 1]); }
  }

  /** A projection reads through a plain one. */
  lemma ReadsThrough(rt: Runtime, under: LogicalPlan, kept: seq<string>, cols: seq<Expr>)
    requires NoDuplicates(kept) && (forall r :: r in Rows(rt, under) ==> NameSet(kept) <= r.Keys)
    requires ReferencedByAll(cols) <= NameSet(kept)
    ensures Rows(rt, Project(Project(under, ColumnsOf(kept)), cols)) == Rows(rt, Project(under, cols))
  {
    hide RowFrom, EvalAll, ReferencedByAll, Flatten, FilterRows, JoinRows, GroupRows, StableSort, NoDuplicates;
    ColumnNames(rt, kept);
    var inner, names, rows := ColumnsOf(kept), OutputNames(rt, cols), Rows(rt, under);
    assert Rows(rt, Project(under, inner)) == ProjectRows(inner, kept, rows);
    forall i | 0 <= i < |rows|
      ensures ProjectRow(cols, names, ProjectRow(inner, kept, rows[i])) == ProjectRow(cols, names, rows[i])
    {
      CollapseRow(rt, cols, inner, rows[i]);
    }
    assert ProjectRows(cols, names, ProjectRows(inner, kept, rows)) == ProjectRows(cols, names, rows);
  }

  /** Over a tower a projection computes what it computes over the table. */
  lemma {:induction false} TowerRows(rt: Runtime, scan: LogicalPlan, below: seq<seq<string>>, cols: seq<Expr>)
    requires scan.Scan? && Narrowing(scan.names, below) && (forall x :: x in Flatten(scan.partitions) ==> x.Keys == NameSet(scan.names))
    requires ReferencedByAll(cols) <= NameSet(Visible(scan.names, below))
    ensures Rows(rt, Project(Tower(scan, below), cols)) == Rows(rt, Project(scan, cols))
  {
    hide Rows, ReferencedByAll, Flatten;
    if below != [] {
      var n := |below| - 1;
      var under := Tower(scan, below[..n]);
      TowerRows(rt, scan, below[..n], cols);
      forall r | r in Rows(rt, under) ensures NameSet(below[n]) <= r.Keys { TowerRow(rt, scan, below[..n], r); }
      ReadsThrough(rt, under, below[n], cols);
    }
  }

  lemma ProjectedReads(kept: seq<string>, es: seq<Expr>, aliases: seq<string>, i: nat)
    requires |es| == |aliases| && i < |Projected(kept, es, aliases)|
    ensures ReferencedColumns(Projected(kept, es, aliases)[i]) <= NameSet(kept) + ReferencedByAll(es)
  {
    if i < |kept| { assert kept[i] in NameSet(kept); }
  }

  lemma OverTower(rt: Runtime, scan: LogicalPlan, below: seq<seq<string>>, cols: seq<Expr>, cond: Expr, computed: nat)
    requires scan.Scan? && computed < |cols| && !cols[computed].Column?
    ensures Eliminate(rt, Filter(Project(Tower(scan, below), cols), cond)) == Filter(Project(scan, cols), cond)
  {
    TowerCollapses(rt, scan, below);
    hide Tower;
  }

  /** Elimination leaves the plan that AliasesAreSafeIff is about, with the same rows. */
  lemma TowerEliminated(rt: Runtime, parts: seq<seq<Record>>, names: seq<string>, below: seq<seq<string>>, kept: seq<string>,
                        es: seq<Expr>, aliases: seq<string>, cond: Expr)
    requires Narrowing(names, below) && NameSet(kept) <= NameSet(Visible(names, below)) && aliases != []
    requires WellFormed(parts, names, kept, es, aliases, cond) && ReferencedByAll(es) <= NameSet(Visible(names, below))
    ensures var p := TowerPlan(parts, names, below, kept, es, aliases, cond);
            && Eliminate(rt, p) == FilteredProject(parts, names, kept, es, aliases, cond)
            && Rows(rt, p) == Rows(rt, FilteredProject(parts, names, kept, es, aliases, cond))
  {
    hide ReferencedByAll, ReferencedColumns, Flatten, Rows, Eliminate, Projected, Tower;
    var scan, cols := Scan(parts, names, map[], None), Projected(kept, es, aliases);
    OverTower(rt, scan, below, cols, cond, |kept|);
    forall i | 0 <= i < |cols| ensures ReferencedColumns(cols[i]) <= NameSet(Visible(names, below)) {
      ProjectedReads(kept, es, aliases, i);
    }
    ReferencedWithin(cols, NameSet(Visible(names, below)));
    TowerRows(rt, scan, below, cols);
    FilterRowsOf(rt, Project(Tower(scan, below), cols), Project(scan, cols), cond);
  }

  lemma FilterRowsOf(rt: Runtime, c: LogicalPlan, d: LogicalPlan, cond: Expr)
    requires Rows(rt, c) == Rows(rt, d)
    ensures Rows(rt, Filter(c, cond)) == Rows(rt, Filter(d, cond))
  {
    hide StableSort, JoinRows, FilterRows, ProjectRows, GroupRows, Flatten;
  }

  /** However many projections lie between, a projection's aliases have to avoid the names
      of the table at the bottom: elimination exposes them to the pushed filter. */
  lemma DeepAliasesAreSafeIff(rt: Runtime, names: seq<string>, below: seq<seq<string>>, kept: seq<string>, aliases: seq<string>)
    requires Narrowing(names, below) && NameSet(kept) <= NameSet(Visible(names, below))
    requires NoDuplicates(kept + aliases) && aliases != []
    ensures RulesSafe(rt, names, below, kept, aliases) <==> NameSet(aliases) !! NameSet(names)
  {
    hide Rows, Pushdown, Eliminate, WellFormed, Narrowing, ReferencedByAll, TowerPlan;
    VisibleWithin(names, below);
    if NameSet(aliases) !! NameSet(names) {
      forall parts, es, cond |
        WellFormed(parts, names, kept, es, aliases, cond) && ReferencedByAll(es) <= NameSet(Visible(names, below))
        ensures |es| == |aliases|
                && var p := TowerPlan(parts, names, below, kept, es, aliases, cond);
                   Rows(rt, Pushdown(rt, Eliminate(rt, p))) == Rows(rt, p)
      {
        assert |es| == |aliases| by { SameLength(parts, names, kept, es, aliases, cond); }
        TowerEliminated(rt, parts, names, below, kept, es, aliases, cond);
        NewNamesAreSafe(rt, parts, names, kept, es, aliases, cond);
      }
    } else {
      var n :| n in NameSet(aliases) && n in NameSet(names);
      var m :| 0 <= m < |aliases| && aliases[m] == n;
      var x: Record := map n | n in NameSet(names) :: Num(1.0);
      var es, cond := Fives(|aliases|), Binary(Gt, Column(aliases[m]), Literal(Num(3.0)));
      ReusedNameLosesRow(rt, names, kept, aliases, m);
      assert ReferencedByAll(es) <= NameSet(Visible(names, below)) by { ReferencedWithin(es, {}); }
      TowerEliminated(rt, [[x]], names, below, kept, es, aliases, cond);
    }
  }
}
