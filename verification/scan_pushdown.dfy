/**
 The scan-pushdown pass: scans are re-read with column and filter hints
 (minispark/physical/planner.py, `_walk_for_pushdown`, `_reread_scan`).
 */
module ScanPushdown {
  import opened Options
  import opened Values
  import opened Expressions
  import opened Sequences
  import opened Sorting
  import opened GroupTables
  import opened Joins
  import opened RowOperators
  import opened Logical
  import opened PlanRules
  import opened Optimizers
  import opened ExecutablePlans

  datatype Dataset = Dataset(partitions: seq<seq<Record>>, names: seq<string>, types: map<string, DataType>)

  /** source.read(columns=, filter=) of every source. */
  type Reader = (nat, Option<set<string>>, Option<Expr>) -> Dataset

  function Reread(read: Reader, scan: LogicalPlan, columns: Option<set<string>>, filter: Option<Expr>): LogicalPlan
    requires scan.Scan? && scan.source.Some?
  {
    var wanted := if columns.Some? && filter.Some? then Some(columns.value + ReferencedColumns(filter.value)) else columns;
    var d := read(scan.source.value, wanted, filter);
    Scan(d.partitions, d.names, d.types, scan.source)
  }

  function Conjoin(filter: Option<Expr>, condition: Expr): Expr {
    if filter.None? then condition else Binary(And, filter.value, condition)
  }

  function Widen(columns: Option<set<string>>, more: set<string>): Option<set<string>> {
    if columns.None? then None else Some(columns.value + more)
  }

  function Walk(read: Reader, p: LogicalPlan, columns: Option<set<string>>, filter: Option<Expr>): LogicalPlan {
    match p
    case Scan(_, _, _, source) =>
      if source.None? || (columns.None? && filter.None?) then p else Reread(read, p, columns, filter)
    case Filter(c, cond) =>
      Filter(Walk(read, c, Widen(columns, ReferencedColumns(cond)), Some(Conjoin(filter, cond))), cond)
    case Project(c, cols) => Project(Walk(read, c, Some(ReferencedByAll(cols)), None), cols)
    case Aggregation(c, g, a) => Aggregation(Walk(read, c, None, None), g, a)
    case Join(l, r, on, b) => Join(Walk(read, l, None, None), Walk(read, r, None, None), on, b)
    case Sort(c, ks) => Sort(Walk(read, c, None, None), ks)
  }

  function PushdownScanReads(read: Reader, p: LogicalPlan): LogicalPlan {
    Walk(read, p, None, None)
  }

  // ---- what a source promises ----------------------------------------------

  ghost predicate SameOn(columns: Option<set<string>>, a: Record, b: Record) {
    if columns.None? then a == b else Agree(columns.value, a, b)
  }

  ghost predicate SameRowsOn(columns: Option<set<string>>, a: seq<Record>, b: seq<Record>) {
    |a| == |b| && forall i :: 0 <= i < |a| ==> SameOn(columns, a[i], b[i])
  }

  /** out keeps, in order, every row of base that passes the filter, and of the rest
      whichever it likes; of a kept row it keeps at least the asked-for columns. */
  ghost predicate Narrowed(columns: Option<set<string>>, filter: Option<Expr>, base: seq<Record>, out: seq<Record>) {
    if base == [] then out == []
    else
      var n, m := |base| - 1, |out| - 1;
      || (out != [] && SameOn(columns, out[m], base[n]) && Narrowed(columns, filter, base[..n], out[..m]))
      || (filter.Some? && !Truthy(Eval(filter.value, base[n])) && Narrowed(columns, filter, base[..n], out))
  }

  /** Every scan's source answers every hint with a narrowing of the scan's own rows, and
      types no further column as a number. */
  ghost predicate HonestSources(read: Reader, p: LogicalPlan) {
    match p
    case Scan(ps, names, types, source) =>
      source.Some? ==> forall columns, filter ::
        var d := read(source.value, columns, filter);
        Narrowed(columns, filter, Flatten(ps), Flatten(d.partitions))
        && NumericNames(d.names, d.types) <= NumericNames(names, types)
    case Filter(c, _) => HonestSources(read, c)
    case Project(c, _) => HonestSources(read, c)
    case Aggregation(c, _, _) => HonestSources(read, c)
    case Join(l, r, _, _) => HonestSources(read, l) && HonestSources(read, r)
    case Sort(c, _) => HonestSources(read, c)
  }

  // ---- what narrowing hides ------------------------------------------------

  lemma {:induction false} NarrowedNoFilter(columns: Option<set<string>>, base: seq<Record>, out: seq<Record>)
    requires Narrowed(columns, None, base, out)
    ensures SameRowsOn(columns, out, base)
  {
    if base != [] {
      NarrowedNoFilter(columns, base[..|base| - 1], out[..|out| - 1]);
    }
  }

  /** The filter above a narrowed read hides the narrowing. */
  lemma {:induction false} NarrowedFilter(columns: Option<set<string>>, f: Expr, base: seq<Record>, out: seq<Record>)
    requires Narrowed(columns, Some(f), base, out)
    requires columns.Some? ==> ReferencedColumns(f) <= columns.value
    ensures SameRowsOn(columns, FilterRows(f, out), FilterRows(f, base))
  {
    if base != [] {
      var n, m := |base| - 1, |out| - 1;
      if out != [] && SameOn(columns, out[m], base[n]) && Narrowed(columns, Some(f), base[..n], out[..m]) {
        NarrowedFilter(columns, f, base[..n], out[..m]);
        if columns.Some? { EvalAgree(f, out[m], base[n]); }
      } else {
        NarrowedFilter(columns, f, base[..n], out);
        assert FilterRows(f, base[..n]) + [] == FilterRows(f, base[..n]);
      }
    }
  }

  lemma {:induction false} FilterTwice(f: Expr, g: Expr, rows: seq<Record>)
    ensures FilterRows(Binary(And, f, g), rows) == FilterRows(f, FilterRows(g, rows))
  {
    if rows != [] {
      var n := |rows| - 1;
      FilterTwice(f, g, rows[..n]);
      if Truthy(Eval(g, rows[n])) {
        FilterSnoc(f, FilterRows(g, rows[..n]), rows[n]);
      } else {
        assert FilterRows(g, rows[..n]) + [] == FilterRows(g, rows[..n]);
        var kept := FilterRows(f, FilterRows(g, rows[..n]));
        assert kept + [] == kept;
      }
    }
  }

  lemma SameRowsFewer(some: Option<set<string>>, all: Option<set<string>>, a: seq<Record>, b: seq<Record>)
    requires SameRowsOn(all, a, b)
    requires all.None? || (some.Some? && some.value <= all.value)
    ensures SameRowsOn(some, a, b)
  {
    forall i | 0 <= i < |a| ensures SameOn(some, a[i], b[i]) {
      assert SameOn(all, a[i], b[i]);
    }
  }

  lemma SameRowsAreEqual(a: seq<Record>, b: seq<Record>)
    ensures SameRowsOn(None, a, b) <==> a == b
  {
    if SameRowsOn(None, a, b) {
      forall i | 0 <= i < |a| ensures a[i] == b[i] { assert SameOn(None, a[i], b[i]); }
    }
  }

  lemma SameRowsAgreeOn(columns: set<string>, a: seq<Record>, b: seq<Record>)
    ensures SameRowsOn(Some(columns), a, b) <==> AgreeRows(columns, a, b)
  {
    if SameRowsOn(Some(columns), a, b) {
      forall i | 0 <= i < |a| ensures Agree(columns, a[i], b[i]) { assert SameOn(Some(columns), a[i], b[i]); }
    }
  }

  // ---- the pass ------------------------------------------------------------

  /** What a walk promises: the same rows on the wanted columns, once the filter has
      been applied above; exactly the same rows when there are no hints. */
  ghost predicate Hides(columns: Option<set<string>>, filter: Option<Expr>, before: seq<Record>, after: seq<Record>) {
    if filter.None? then SameRowsOn(columns, after, before)
    else SameRowsOn(columns, FilterRows(filter.value, after), FilterRows(filter.value, before))
  }

  /** The hints cover what the filter reads. */
  predicate Covered(columns: Option<set<string>>, filter: Option<Expr>) {
    columns.Some? && filter.Some? ==> ReferencedColumns(filter.value) <= columns.value
  }

  lemma HidesExact(columns: Option<set<string>>, filter: Option<Expr>, rows: seq<Record>)
    ensures Hides(columns, filter, rows, rows)
  {
  }

  lemma ScanHides(rt: Runtime, read: Reader, p: LogicalPlan, columns: Option<set<string>>, filter: Option<Expr>)
    requires p.Scan? && HonestSources(read, p) && Covered(columns, filter)
    ensures Hides(columns, filter, Rows(rt, p), Rows(rt, Walk(read, p, columns, filter)))
  {
    if p.source.None? || (columns.None? && filter.None?) {
      HidesExact(columns, filter, Rows(rt, p));
    } else {
      var wanted := if columns.Some? && filter.Some? then Some(columns.value + ReferencedColumns(filter.value)) else columns;
      assert columns.Some? && filter.Some? ==> wanted.value == columns.value;
      var d := read(p.source.value, wanted, filter);
      var base, out := Flatten(p.partitions), Flatten(d.partitions);
      assert Narrowed(wanted, filter, base, out);
      if filter.None? { NarrowedNoFilter(wanted, base, out); } else { NarrowedFilter(wanted, filter.value, base, out); }
    }
  }

  lemma FilterHides(columns: Option<set<string>>, filter: Option<Expr>, cond: Expr, before: seq<Record>, after: seq<Record>)
    requires Covered(columns, filter)
    requires Hides(Widen(columns, ReferencedColumns(cond)), Some(Conjoin(filter, cond)), before, after)
    ensures Hides(columns, filter, FilterRows(cond, before), FilterRows(cond, after))
  {
    var all, f := Widen(columns, ReferencedColumns(cond)), Conjoin(filter, cond);
    SameRowsFewer(columns, all, FilterRows(f, after), FilterRows(f, before));
    if filter.Some? {
      FilterTwice(filter.value, cond, before);
      FilterTwice(filter.value, cond, after);
    }
  }

  lemma {:induction false} WalkHides(rt: Runtime, read: Reader, p: LogicalPlan, columns: Option<set<string>>, filter: Option<Expr>)
    requires HonestSources(read, p) && Covered(columns, filter)
    ensures Hides(columns, filter, Rows(rt, p), Rows(rt, Walk(read, p, columns, filter)))
    decreases p, 0
  {
    match p
    case Scan(_, _, _, _) => ScanHides(rt, read, p, columns, filter);
    case Filter(c, cond) =>
      var all, f := Widen(columns, ReferencedColumns(cond)), Conjoin(filter, cond);
      WalkHides(rt, read, c, all, Some(f));
      FilterHides(columns, filter, cond, Rows(rt, c), Rows(rt, Walk(read, c, all, Some(f))));
    case Project(c, cols) =>
      var wanted := ReferencedByAll(cols);
      var q := Walk(read, c, Some(wanted), None);
      WalkHides(rt, read, c, Some(wanted), None);
      SameRowsAgreeOn(wanted, Rows(rt, q), Rows(rt, c));
      ProjectAgree(cols, OutputNames(rt, cols), Rows(rt, q), Rows(rt, c));
      HidesExact(columns, filter, Rows(rt, p));
    case Aggregation(c, _, _) => WalkExact(rt, read, c); HidesExact(columns, filter, Rows(rt, p));
    case Join(l, r, _, _) =>
      WalkExact(rt, read, l);
      WalkExact(rt, read, r);
      HidesExact(columns, filter, Rows(rt, p));
    case Sort(c, _) => WalkExact(rt, read, c); HidesExact(columns, filter, Rows(rt, p));
  }

  /** Scan pushdown is invisible: the plan's rows are unchanged, in order. */
  lemma {:induction false} WalkExact(rt: Runtime, read: Reader, p: LogicalPlan)
    requires HonestSources(read, p)
    ensures Rows(rt, PushdownScanReads(read, p)) == Rows(rt, p)
    decreases p, 1
  {
    WalkHides(rt, read, p, None, None);
    SameRowsAreEqual(Rows(rt, PushdownScanReads(read, p)), Rows(rt, p));
  }

  // ---- what execution relies on --------------------------------------------

  lemma {:induction false} WalkCarries(rt: Runtime, read: Reader, p: LogicalPlan, columns: Option<set<string>>, filter: Option<Expr>)
    requires HonestSources(read, p) && Executable(rt, p)
    ensures Carries(rt, p, Walk(read, p, columns, filter))
  {
    match p
    case Scan(_, _, _, _) =>
    case Filter(c, cond) => WalkCarries(rt, read, c, Widen(columns, ReferencedColumns(cond)), Some(Conjoin(filter, cond)));
    case Project(c, cols) =>
      var q := Walk(read, c, Some(ReferencedByAll(cols)), None);
      WalkCarries(rt, read, c, Some(ReferencedByAll(cols)), None);
      ProjectCarries(rt, p, q);
    case Aggregation(c, _, _) =>
      WalkCarries(rt, read, c, None, None);
      WalkExact(rt, read, c);
      AggregationCarries(rt, p, Walk(read, c, None, None));
    case Join(l, r, _, _) =>
      WalkCarries(rt, read, l, None, None);
      WalkCarries(rt, read, r, None, None);
      JoinCarries(rt, p, Walk(read, l, None, None), Walk(read, r, None, None));
    case Sort(c, ks) =>
      WalkCarries(rt, read, c, None, None);
      WalkExact(rt, read, c);
      SameRowsAgree(KeyColumns(ks), Rows(rt, c));
      SortCarries(rt, p, Walk(read, c, None, None));
  }
}
