/**
 The physical planner and its soundness: the rows of the planned query, over all
 partitions, are the logical plan's rows (minispark/physical/planner.py).
 */
module Planner {
  import opened Options
  import opened Values
  import opened Expressions
  import opened Sequences
  import opened Sorting
  import opened AggregateFunctions
  import opened GroupTables
  import opened Joins
  import opened RowOperators
  import opened Shuffle
  import opened DistributedSort
  import opened DistributedJoin
  import opened DistributedAggregate
  import opened Physical
  import opened Logical

  // ---- translation ---------------------------------------------------------

  function Translate(rt: Runtime, p: LogicalPlan, spillThreshold: int): PhysicalPlan {
    match p
    case Scan(ps, _, _, _) => ScanExec(ps)
    case Filter(c, cond) => FilterExec(Translate(rt, c, spillThreshold), cond)
    case Project(c, cols) => ProjectExec(Translate(rt, c, spillThreshold), cols, OutputNames(rt, cols))
    case Aggregation(c, g, a) => PlanAggregate(rt, Translate(rt, c, spillThreshold), g, a, spillThreshold)
    case Join(l, r, on, b) => PlanJoin(rt, Translate(rt, l, spillThreshold), Translate(rt, r, spillThreshold), on, b)
    case Sort(c, ks) => PlanSort(rt, Translate(rt, c, spillThreshold), ks, NumericColumns(rt, c), spillThreshold)
  }

  function PlanAggregate(rt: Runtime, child: PhysicalPlan, groupBy: seq<Expr>, aggregates: seq<Expr>, spillThreshold: int)
    : PhysicalPlan
  {
    var partial := HashAggregateExec(child, Partial(groupBy, aggregates), spillThreshold);
    var exchange := ExchangeExec(partial, Partitioning(groupBy, rt.shufflePartitions, Hashed), false);
    HashAggregateExec(exchange, Final(groupBy, aggregates), spillThreshold)
  }

  function PlanJoin(rt: Runtime, left: PhysicalPlan, right: PhysicalPlan, on: seq<string>, broadcast: bool): PhysicalPlan {
    var keys := ColumnsOf(on);
    if broadcast then
      HashJoinExec(left, ExchangeExec(right, Partitioning(keys, 1, Hashed), true), JoinOn(on))
    else
      var part := Partitioning(keys, rt.shufflePartitions, Hashed);
      HashJoinExec(ExchangeExec(left, part, false), ExchangeExec(right, part, false), JoinOn(on))
  }

  function PlanSort(rt: Runtime, child: PhysicalPlan, ks: seq<SortKey>, numeric: set<string>, spillThreshold: int): PhysicalPlan {
    var localSort := SortExec(child, ks, spillThreshold);
    SortExec(ExchangeExec(localSort, SortExchange(rt, child, ks, numeric), false), ks, spillThreshold)
  }

  /** Only scans, filters and projections: what can be run while planning. */
  predicate IsOracleExecutable(plan: PhysicalPlan) {
    match plan
    case ScanExec(_) => true
    case FilterExec(c, _) => IsOracleExecutable(c)
    case ProjectExec(c, _, _) => IsOracleExecutable(c)
    case _ => false
  }

  /** The whole dataset of such a plan, run while planning. */
  function OracleRows(plan: PhysicalPlan): seq<Record>
    requires IsOracleExecutable(plan)
  {
    match plan
    case ScanExec(ps) => Flatten(ps)
    case FilterExec(c, cond) => FilterRows(cond, OracleRows(c))
    case ProjectExec(c, cols, names) => ProjectRows(cols, names, OracleRows(c))
  }

  datatype MinMax = MinMax(low: Value, high: Value)

  /** The statistics of one column: its least and greatest values, nulls skipped; both
      null when there is none. */
  function ColumnRange(key: Expr, rows: seq<Record>): MinMax {
    if rows == [] then MinMax(Null, Null)
    else
      var n := |rows| - 1;
      var m, v := ColumnRange(key, rows[..n]), Eval(key, rows[n]);
      if v.Null? then m
      else MinMax(if m.low.Null? || ValueLt(v, m.low) then v else m.low,
                  if m.high.Null? || ValueLt(m.high, v) then v else m.high)
  }

  function Multiple(i: int, step: real): real {
    (i as real) * step
  }

  /** n - 1 equal-width cuts of the signed range. */
  function Boundaries(low: real, high: real, ascending: bool, n: nat): (bs: seq<Value>)
    requires n >= 1
    ensures |bs| == n - 1
  {
    var a, b := if ascending then low else -low, if ascending then high else -high;
    var signedLow, signedHigh := if a <= b then a else b, if a <= b then b else a;
    if signedLow == signedHigh then seq(n - 1, _ => Num(signedHigh))
    else
      var step := (signedHigh - signedLow) / (n as real);
      seq(n - 1, i requires 0 <= i < n - 1 => Num(signedLow + Multiple(i + 1, step)))
  }

  /** How order_by's rows are exchanged: by range where the primary key is a number and
      its range can be looked at now, else to a single partition. */
  function SortExchange(rt: Runtime, child: PhysicalPlan, ks: seq<SortKey>, numeric: set<string>): Partitioning {
    if ks == [] then Partitioning([], 1, Hashed)
    else
      var key := ks[0].expr;
      if rt.shufflePartitions <= 1 || !(key.Column? && key.name in numeric) || !IsOracleExecutable(child) then
        Partitioning([key], 1, Hashed)
      else
        var m := ColumnRange(key, OracleRows(child));
        if !m.low.Num? || !m.high.Num? then Partitioning([key], 1, Hashed)
        else Partitioning([PartitionKey(ks[0])], rt.shufflePartitions,
                          Ranged(Boundaries(m.low.n, m.high.n, ks[0].ascending, rt.shufflePartitions)))
  }

  // ---- boundaries ----------------------------------------------------------

  lemma MultipleMonotone(i: int, j: int, step: real)
    requires i <= j && step >= 0.0
    ensures Multiple(i, step) <= Multiple(j, step)
  {
    assert Multiple(j, step) - Multiple(i, step) == ((j - i) as real) * step;
  }

  lemma StepNotNegative(width: real, n: nat)
    requires width >= 0.0 && n >= 1
    ensures width / (n as real) >= 0.0
  {
  }

  /** The cuts are n - 1 long and ascending, whichever way the key is sorted. */
  lemma BoundariesAscend(low: real, high: real, ascending: bool, n: nat)
    requires n >= 1
    ensures NonDecreasing(Boundaries(low, high, ascending, n))
  {
    var bs := Boundaries(low, high, ascending, n);
    var a, b := if ascending then low else -low, if ascending then high else -high;
    var signedLow, signedHigh := if a <= b then a else b, if a <= b then b else a;
    if signedLow != signedHigh {
      var step := (signedHigh - signedLow) / (n as real);
      StepNotNegative(signedHigh - signedLow, n);
      forall i, j | 0 <= i < j < |bs| ensures !ValueLt(bs[j], bs[i]) {
        MultipleMonotone(i + 1, j + 1, step);
        assert bs[i] == Num(signedLow + Multiple(i + 1, step)) && bs[j] == Num(signedLow + Multiple(j + 1, step));
      }
    }
  }

  /** The least key, n - 1 cuts and the greatest key lie equally far apart: the signed keys,
      so that a descending range is cut from its greatest key down. */
  lemma BoundariesEven(low: real, high: real, ascending: bool, n: nat, i: nat)
    requires n >= 1 && low <= high && i < n - 1
    ensures var cut := Boundaries(low, high, ascending, n)[i];
            cut.Num? && (cut.n - if ascending then low else -high) * (n as real) == Multiple(i + 1, high - low)
  {
    var first := if ascending then low else -high;
    var width := high - low;
    if low == high {
      assert Multiple(i + 1, width) == 0.0;
    } else {
      var step := width / (n as real);
      assert Boundaries(low, high, ascending, n)[i] == Num(first + Multiple(i + 1, step));
      MultipleOfStep(i + 1, width, n);
    }
  }

  lemma MultipleOfStep(i: int, width: real, n: nat)
    requires n >= 1
    ensures Multiple(i, width / (n as real)) * (n as real) == Multiple(i, width)
  {
    var step := width / (n as real);
    assert step * (n as real) == width;
    assert ((i as real) * step) * (n as real) == (i as real) * (step * (n as real));
  }

  /** The range found while planning is that of keys that occur. */
  lemma {:induction false} ColumnRangeOccurs(key: Expr, rows: seq<Record>)
    ensures var m := ColumnRange(key, rows);
            && (!m.low.Null? ==> exists r :: r in rows && Eval(key, r) == m.low)
            && (!m.high.Null? ==> exists r :: r in rows && Eval(key, r) == m.high)
  {
    if rows != [] {
      var n := |rows| - 1;
      assert rows[n] in rows && forall r :: r in rows[..n] ==> r in rows;
      ColumnRangeOccurs(key, rows[..n]);
    }
  }

  /** The range found while planning brackets every key. */
  lemma {:induction false} ColumnRangeBrackets(key: Expr, rows: seq<Record>, r: Record)
    requires r in rows && !Eval(key, r).Null?
    ensures var m := ColumnRange(key, rows);
            && !m.low.Null? && !m.high.Null?
            && !ValueLt(Eval(key, r), m.low) && !ValueLt(m.high, Eval(key, r))
  {
    var n := |rows| - 1;
    var before, v, x := ColumnRange(key, rows[..n]), Eval(key, rows[n]), Eval(key, r);
    ValueLtTotal(x, x);
    if r in rows[..n] {
      ColumnRangeBrackets(key, rows[..n], r);
      ValueLtTotal(v, before.low);
      ValueLtTotal(v, before.high);
      if ValueLt(x, v) && ValueLt(v, before.low) { ValueLtTransitive(x, v, before.low); }
      if ValueLt(v, x) && ValueLt(before.high, v) { ValueLtTransitive(before.high, v, x); }
    }
  }

  lemma {:induction false} ColumnRangeOfNulls(key: Expr, rows: seq<Record>)
    requires forall r :: r in rows ==> Eval(key, r).Null?
    ensures ColumnRange(key, rows) == MinMax(Null, Null)
  {
    if rows != [] {
      assert rows[|rows| - 1] in rows;
      ColumnRangeOfNulls(key, rows[..|rows| - 1]);
    }
  }

  // ---- plans are legal -----------------------------------------------------

  lemma SortExchangeLegal(rt: Runtime, child: PhysicalPlan, ks: seq<SortKey>, numeric: set<string>)
    requires rt.shufflePartitions >= 1
    ensures Legal(SortExchange(rt, child, ks, numeric))
  {
  }

  /** An exchange over several partitions is by ascending cuts of the signed key. */
  lemma SortExchangeIs(rt: Runtime, child: PhysicalPlan, ks: seq<SortKey>, numeric: set<string>)
    requires rt.shufflePartitions >= 1 && ks != []
    ensures var p := SortExchange(rt, child, ks, numeric);
            p.num == 1 || (p.scheme.Ranged? && NonDecreasing(p.scheme.boundaries) && p.exprs == [PartitionKey(ks[0])])
  {
    var part := SortExchange(rt, child, ks, numeric);
    if part.scheme.Ranged? {
      var m := ColumnRange(ks[0].expr, OracleRows(child));
      BoundariesAscend(m.low.n, m.high.n, ks[0].ascending, rt.shufflePartitions);
    }
  }

  /** Sorting splits the range only over numbers. */
  lemma SplitsNumbers(rt: Runtime, c: LogicalPlan, ks: seq<SortKey>, spillThreshold: int)
    requires rt.shufflePartitions >= 1 && ks != [] && KeysSplit(rt, c, ks)
    ensures || SortExchange(rt, Translate(rt, c, spillThreshold), ks, NumericColumns(rt, c)).num == 1
            || forall r :: r in Rows(rt, c) ==> Eval(ks[0].expr, r).Num?
  {
    var d := Translate(rt, c, spillThreshold);
    TranslateLegal(rt, c, spillThreshold);
    if SortExchange(rt, d, ks, NumericColumns(rt, c)).num != 1 {
      assert SplitsRange(rt, c, ks);
      OracleRowsAreRows(rt, c, spillThreshold);
      if forall r :: r in Rows(rt, c) ==> Eval(ks[0].expr, r).Null? { ColumnRangeOfNulls(ks[0].expr, Rows(rt, c)); }
    }
  }

  /** Sorting does split the range, over all the partitions configured, where there are
      several, the primary key is a column typed as a number over scans, filters and
      projections, and some row holds one. */
  lemma RangeIsSplit(rt: Runtime, c: LogicalPlan, ks: seq<SortKey>, spillThreshold: int, r: Record)
    requires SplitsRange(rt, c, ks) && r in Rows(rt, c)
    requires forall x :: x in Rows(rt, c) ==> Eval(ks[0].expr, x).Num?
    ensures var part := SortExchange(rt, Translate(rt, c, spillThreshold), ks, NumericColumns(rt, c));
            part.num == rt.shufflePartitions && part.scheme.Ranged?
  {
    hide Rows, Boundaries, NumericColumns;
    TranslateLegal(rt, c, spillThreshold);
    OracleRowsAreRows(rt, c, spillThreshold);
    ColumnRangeBrackets(ks[0].expr, Rows(rt, c), r);
    ColumnRangeOccurs(ks[0].expr, Rows(rt, c));
  }

  lemma {:induction false} TranslateLegal(rt: Runtime, p: LogicalPlan, spillThreshold: int)
    requires rt.shufflePartitions >= 1
    ensures PlannerForm(Translate(rt, p, spillThreshold))
    ensures IsOracleExecutable(Translate(rt, p, spillThreshold)) <==> RowByRow(p)
  {
    match p
    case Scan(_, _, _, _) =>
    case Filter(c, _) => TranslateLegal(rt, c, spillThreshold);
    case Project(c, _) => TranslateLegal(rt, c, spillThreshold);
    case Aggregation(c, _, _) => TranslateLegal(rt, c, spillThreshold);
    case Join(l, r, _, _) => TranslateLegal(rt, l, spillThreshold); TranslateLegal(rt, r, spillThreshold);
    case Sort(c, ks) =>
      TranslateLegal(rt, c, spillThreshold);
      SortExchangeLegal(rt, Translate(rt, c, spillThreshold), ks, NumericColumns(rt, c));
  }

  // ---- row-by-row operators ------------------------------------------------

  lemma {:induction false} FlattenFilters(cond: Expr, parts: seq<seq<Record>>, out: seq<seq<Record>>)
    requires |out| == |parts| && forall i :: 0 <= i < |parts| ==> out[i] == FilterRows(cond, parts[i])
    ensures Flatten(out) == FilterRows(cond, Flatten(parts))
  {
    if parts != [] {
      FlattenFilters(cond, parts[1..], out[1..]);
      FilterAppend(cond, parts[0], Flatten(parts[1..]));
    }
  }

  lemma {:induction false} FlattenProjects(cols: seq<Expr>, names: seq<string>, parts: seq<seq<Record>>, out: seq<seq<Record>>)
    requires |out| == |parts| && forall i :: 0 <= i < |parts| ==> out[i] == ProjectRows(cols, names, parts[i])
    ensures Flatten(out) == ProjectRows(cols, names, Flatten(parts))
  {
    if parts != [] {
      FlattenProjects(cols, names, parts[1..], out[1..]);
      ProjectAppend(cols, names, parts[0], Flatten(parts[1..]));
    }
  }

  lemma FilterPlanRows(rt: Runtime, c: PhysicalPlan, cond: Expr)
    requires PlannerForm(c)
    ensures PlanRows(rt, FilterExec(c, cond)) == FilterRows(cond, PlanRows(rt, c))
  {
    FlattenFilters(cond, Partitions(rt, c), Partitions(rt, FilterExec(c, cond)));
  }

  lemma ProjectPlanRows(rt: Runtime, c: PhysicalPlan, cols: seq<Expr>, names: seq<string>)
    requires PlannerForm(c)
    ensures PlanRows(rt, ProjectExec(c, cols, names)) == ProjectRows(cols, names, PlanRows(rt, c))
  {
    FlattenProjects(cols, names, Partitions(rt, c), Partitions(rt, ProjectExec(c, cols, names)));
  }

  lemma ScanPlanRows(rt: Runtime, ps: seq<seq<Record>>)
    ensures PlanRows(rt, ScanExec(ps)) == Flatten(ps)
  {
    assert Partitions(rt, ScanExec(ps)) == ps;
  }

  // ---- joins ---------------------------------------------------------------

  lemma {:induction false} OneBucket(rt: Runtime, p: Partitioning, rows: seq<Record>)
    requires Legal(p) && p.num == 1
    ensures BucketRows(rt, p, 0, rows) == rows
  {
    if rows != [] { OneBucket(rt, p, rows[..|rows| - 1]); }
  }

  /** Target i of an exchange: its rows from everything the child computes. */
  lemma ExchangeAt(rt: Runtime, c: PhysicalPlan, part: Partitioning, b: bool, i: nat)
    requires PlannerForm(ExchangeExec(c, part, b))
    ensures PartRows(rt, ExchangeExec(c, part, b), i) == BucketRows(rt, part, if b then 0 else i, PlanRows(rt, c))
  {
    ReadIsBucketOfAll(rt, part, if b then 0 else i, Partitions(rt, c));
  }

  lemma JoinPlanLegal(rt: Runtime, l: PhysicalPlan, r: PhysicalPlan, on: seq<string>, broadcast: bool)
    requires PlannerForm(l) && PlannerForm(r) && rt.shufflePartitions >= 1
    ensures PlannerForm(PlanJoin(rt, l, r, on, broadcast))
  {
  }

  lemma ShuffleJoinRows(rt: Runtime, l: PhysicalPlan, r: PhysicalPlan, on: seq<string>)
    requires PlannerForm(l) && PlannerForm(r) && rt.shufflePartitions >= 1
    ensures PlannerForm(PlanJoin(rt, l, r, on, false))
    ensures multiset(PlanRows(rt, PlanJoin(rt, l, r, on, false))) == multiset(JoinRows(JoinOn(on), PlanRows(rt, l), PlanRows(rt, r)))
  {
    var j, part := JoinOn(on), Partitioning(ColumnsOf(on), rt.shufflePartitions, Hashed);
    var a, b := ExchangeExec(l, part, false), ExchangeExec(r, part, false);
    var plan := HashJoinExec(a, b, j);
    JoinPlanLegal(rt, l, r, on, false);
    assert NumPartitions(a) == part.num && NumPartitions(plan) == part.num;
    var left, right := PlanRows(rt, l), PlanRows(rt, r);
    var ps, qs := JoinParts(rt, j, part, part, left, right), Partitions(rt, plan);
    forall t | 0 <= t < part.num ensures qs[t] == ps[t] {
      ExchangeAt(rt, l, part, false, t);
      ExchangeAt(rt, r, part, false, t);
      assert qs[t] == PartRows(rt, plan, t) == JoinRows(j, PartRows(rt, a, t), PartRows(rt, b, t));
    }
    assert qs == ps;
    ShuffleJoinIsJoin(rt, j, part, part, left, right);
  }

  lemma BroadcastJoinRows(rt: Runtime, l: PhysicalPlan, r: PhysicalPlan, on: seq<string>)
    requires PlannerForm(l) && PlannerForm(r)
    ensures PlannerForm(PlanJoin(rt, l, r, on, true))
    ensures multiset(PlanRows(rt, PlanJoin(rt, l, r, on, true))) == multiset(JoinRows(JoinOn(on), PlanRows(rt, l), PlanRows(rt, r)))
  {
    var j, part := JoinOn(on), Partitioning(ColumnsOf(on), 1, Hashed);
    var b := ExchangeExec(r, part, true);
    var plan := HashJoinExec(l, b, j);
    assert PlannerForm(b) && PlannerForm(plan);
    var right := PlanRows(rt, r);
    var ps, qs := BroadcastParts(j, Partitions(rt, l), right), Partitions(rt, plan);
    OneBucket(rt, part, right);
    forall i | 0 <= i < |ps| ensures qs[i] == ps[i] {
      ExchangeAt(rt, r, part, true, i);
      assert qs[i] == PartRows(rt, plan, i) == JoinRows(j, PartRows(rt, l, i), PartRows(rt, b, i));
    }
    assert qs == ps;
    BroadcastJoinIsJoin(j, Partitions(rt, l), right);
  }

  // ---- sort ----------------------------------------------------------------

  lemma SortParts(rt: Runtime, c: PhysicalPlan, ks: seq<SortKey>, part: Partitioning, spillThreshold: int)
    requires PlannerForm(c) && Legal(part)
    ensures var plan := SortExec(ExchangeExec(SortExec(c, ks, spillThreshold), part, false), ks, spillThreshold);
            Partitions(rt, plan) == FinalSorts(rt, part, ks, LocalSorts(ks, Partitions(rt, c)))
  {
    var inner := SortExec(c, ks, spillThreshold);
    var exchange := ExchangeExec(inner, part, false);
    var plan := SortExec(exchange, ks, spillThreshold);
    assert NumPartitions(exchange) == part.num && NumPartitions(plan) == part.num;
    var locals, sorted := LocalSorts(ks, Partitions(rt, c)), Partitions(rt, inner);
    forall i | 0 <= i < |locals| ensures sorted[i] == locals[i] { }
    assert sorted == locals;
    var finals, qs := FinalSorts(rt, part, ks, locals), Partitions(rt, plan);
    forall t | 0 <= t < part.num ensures qs[t] == finals[t] {
      assert qs[t] == PartRows(rt, plan, t) == StableSort(ks, PartRows(rt, exchange, t));
    }
  }

  /** order_by, distributed, is one stable sort of its input's rows in partition order. */
  lemma SortPlanRows(rt: Runtime, c: PhysicalPlan, ks: seq<SortKey>, numeric: set<string>, spillThreshold: int)
    requires PlannerForm(c) && rt.shufflePartitions >= 1 && ks != []
    requires SortExchange(rt, c, ks, numeric).num == 1 || forall r :: r in PlanRows(rt, c) ==> Eval(ks[0].expr, r).Num?
    ensures PlannerForm(PlanSort(rt, c, ks, numeric, spillThreshold))
    ensures PlanRows(rt, PlanSort(rt, c, ks, numeric, spillThreshold)) == StableSort(ks, PlanRows(rt, c))
  {
    hide SortExchange, StableSort;
    var part := SortExchange(rt, c, ks, numeric);
    SortExchangeLegal(rt, c, ks, numeric);
    SortExchangeIs(rt, c, ks, numeric);
    var localSort := SortExec(c, ks, spillThreshold);
    assert PlannerForm(localSort) && PlannerForm(ExchangeExec(localSort, part, false));
    RangeExchangeOrdered(rt, part, ks, PlanRows(rt, c));
    DistributedSortIsStableSort(rt, part, ks, Partitions(rt, c));
    SortParts(rt, c, ks, part, spillThreshold);
  }

  // ---- aggregation ---------------------------------------------------------

  lemma PartialPass(rt: Runtime, c: PhysicalPlan, g: seq<Expr>, a: seq<Expr>, spillThreshold: int)
    requires PlannerForm(c) && EmitsGroups(rt) && Groupable(g, a) && (Commuting(Partial(g, a), PlanRows(rt, c)) || Unspilled(rt))
    ensures PartialOutputs(rt, g, a, Partitions(rt, c), Partitions(rt, HashAggregateExec(c, Partial(g, a), spillThreshold)))
  {
    var h, parts := Partial(g, a), Partitions(rt, c);
    var outs := Partitions(rt, HashAggregateExec(c, h, spillThreshold));
    AggregatesOf(g, a, true);
    forall i | 0 <= i < |parts| ensures Lists(rt, h, outs[i], TableOf(h, parts[i])) {
      if Commuting(h, PlanRows(rt, c)) { forall r | r in parts[i] ensures r in Flatten(parts) { InFlatten(parts, r); } }
      EmitsTable(rt, h, spillThreshold, parts[i]);
      assert outs[i] == Emitted(rt, h, spillThreshold, parts[i]);
    }
  }

  lemma AggregatesOf(g: seq<Expr>, a: seq<Expr>, isPartial: bool)
    requires Groupable(g, a)
    ensures AreAggregates(Functions(HashAgg(g, a, isPartial)))
  {
  }

  lemma FinalPass(rt: Runtime, f: HashAgg, num: nat, rows: seq<Record>, finals: seq<seq<Record>>, spillThreshold: int)
    requires num >= 1 && EmitsGroups(rt) && AreAggregates(Functions(f)) && (Commuting(f, rows) || Unspilled(rt)) && |finals| == num
    requires forall t :: 0 <= t < num ==>
               finals[t] == Emitted(rt, f, spillThreshold, BucketRows(rt, GroupExchange(f.groupBy, num), t, rows))
    ensures multiset(Flatten(finals)) == multiset(Flatten(FinalParts(rt, f, num, rows)))
  {
    var ps := FinalParts(rt, f, num, rows);
    forall t | 0 <= t < num ensures multiset(finals[t]) == multiset(ps[t]) {
      var bucket := BucketRows(rt, GroupExchange(f.groupBy, num), t, rows);
      forall r | r in bucket ensures r in rows { BucketMembers(rt, GroupExchange(f.groupBy, num), t, rows, r); }
      EmitsTable(rt, f, spillThreshold, bucket);
      ListsPermute(rt, f, finals[t], bucket);
    }
    FlattenPermutes(finals, ps);
  }

  lemma ListingIsGroupRows(rt: Runtime, g: seq<Expr>, a: seq<Expr>, out: seq<Record>, rows: seq<Record>)
    requires Lists(rt, Final(g, a), out, TableOf(Partial(g, a), rows))
    ensures multiset(out) == multiset(GroupRows(rt, g, a, rows))
  {
    var t := TableOf(Partial(g, a), rows);
    var order: seq<Key> :| Enumerates(order, t.Keys) && out == OutputRows(rt, Final(g, a), order, t);
    ListingsAgree(rt, Final(g, a), t, order, KeysInOrder(Partial(g, a), rows));
  }

  lemma GroupRowsPermute(rt: Runtime, g: seq<Expr>, a: seq<Expr>, x: seq<Record>, y: seq<Record>)
    requires Commuting(Partial(g, a), x) && multiset(x) == multiset(y)
    ensures multiset(GroupRows(rt, g, a, x)) == multiset(GroupRows(rt, g, a, y))
  {
    var h := Partial(g, a);
    TablePermutes(h, x, y);
    ListingsAgree(rt, Final(g, a), TableOf(h, x), KeysInOrder(h, x), KeysInOrder(h, y));
  }

  /** group_by, distributed and spilled however it was, is one grouping of its input, if the
      rows may be merged in any order or nothing was spilled. */
  lemma AggregatePlanRows(rt: Runtime, c: PhysicalPlan, g: seq<Expr>, a: seq<Expr>, spillThreshold: int)
    requires PlannerForm(c) && rt.shufflePartitions >= 1 && EmitsGroups(rt)
    requires Groupable(g, a) && (Commuting(Partial(g, a), PlanRows(rt, c)) || Unspilled(rt))
    ensures multiset(PlanRows(rt, PlanAggregate(rt, c, g, a, spillThreshold))) == multiset(GroupRows(rt, g, a, PlanRows(rt, c)))
  {
    var n, f := rt.shufflePartitions, Final(g, a);
    var partial := HashAggregateExec(c, Partial(g, a), spillThreshold);
    var plan := PlanAggregate(rt, c, g, a, spillThreshold);
    var outs := Partitions(rt, partial);
    PartialPass(rt, c, g, a, spillThreshold);
    MergeOfPartials(rt, g, a, Partitions(rt, c), outs);
    if Commuting(Partial(g, a), PlanRows(rt, c)) { PartialsCommute(rt, g, a, Partitions(rt, c), outs); }
    AggregatesOf(g, a, false);
    var exchange := ExchangeExec(partial, GroupExchange(g, n), false);
    assert plan == HashAggregateExec(exchange, f, spillThreshold);
    assert NumPartitions(exchange) == n && NumPartitions(plan) == n;
    forall t | 0 <= t < n
      ensures Partitions(rt, plan)[t] == Emitted(rt, f, spillThreshold, BucketRows(rt, GroupExchange(g, n), t, Flatten(outs)))
    {
      ExchangeAt(rt, partial, GroupExchange(g, n), false, t);
      assert Partitions(rt, plan)[t] == PartRows(rt, plan, t) == Emitted(rt, f, spillThreshold, PartRows(rt, exchange, t));
    }
    FinalPass(rt, f, n, Flatten(outs), Partitions(rt, plan), spillThreshold);
    AggregationIsGroupBy(rt, g, a, n, Partitions(rt, c), outs);
    ListingIsGroupRows(rt, g, a, Flatten(FinalParts(rt, f, n, Flatten(outs))), PlanRows(rt, c));
  }

  // ---- the theorem ---------------------------------------------------------

  /** What is run while planning is what will be run. */
  lemma {:induction false} OracleRowsAreRows(rt: Runtime, p: LogicalPlan, spillThreshold: int)
    requires RowByRow(p) && IsOracleExecutable(Translate(rt, p, spillThreshold))
    ensures OracleRows(Translate(rt, p, spillThreshold)) == Rows(rt, p)
  {
    match p
    case Scan(_, _, _, _) =>
    case Filter(c, _) => OracleRowsAreRows(rt, c, spillThreshold);
    case Project(c, _) => OracleRowsAreRows(rt, c, spillThreshold);
  }

  lemma AllMembers(a: seq<Record>, b: seq<Record>)
    requires multiset(a) == multiset(b)
    ensures forall r :: r in a ==> r in b
  {
    forall r | r in a ensures r in b { SameMembers(a, b, r); }
  }

  lemma SortedChild(rt: Runtime, c: LogicalPlan, ks: seq<SortKey>, spillThreshold: int)
    requires rt.shufflePartitions >= 1 && ks != [] && KeysSplit(rt, c, ks)
    requires PlannerForm(Translate(rt, c, spillThreshold))
    requires multiset(PlanRows(rt, Translate(rt, c, spillThreshold))) == multiset(Rows(rt, c))
    ensures var d := Translate(rt, c, spillThreshold);
            && PlannerForm(Translate(rt, Sort(c, ks), spillThreshold))
            && PlanRows(rt, Translate(rt, Sort(c, ks), spillThreshold)) == StableSort(ks, PlanRows(rt, d))
  {
    hide SortExchange, StableSort, KeysSplit, Rows, NumericColumns;
    var d, numeric := Translate(rt, c, spillThreshold), NumericColumns(rt, c);
    SplitsNumbers(rt, c, ks, spillThreshold);
    AllMembers(PlanRows(rt, d), Rows(rt, c));
    SortPlanRows(rt, d, ks, numeric, spillThreshold);
  }

  lemma JoinTranslates(rt: Runtime, l: PhysicalPlan, r: PhysicalPlan, on: seq<string>, broadcast: bool,
                       left: seq<Record>, right: seq<Record>)
    requires PlannerForm(l) && PlannerForm(r) && rt.shufflePartitions >= 1
    requires multiset(PlanRows(rt, l)) == multiset(left) && multiset(PlanRows(rt, r)) == multiset(right)
    ensures PlannerForm(PlanJoin(rt, l, r, on, broadcast))
    ensures multiset(PlanRows(rt, PlanJoin(rt, l, r, on, broadcast))) == multiset(JoinRows(JoinOn(on), left, right))
  {
    if broadcast { BroadcastJoinRows(rt, l, r, on); } else { ShuffleJoinRows(rt, l, r, on); }
    JoinPermutes(JoinOn(on), PlanRows(rt, l), left, PlanRows(rt, r), right);
  }

  lemma AggregateTranslates(rt: Runtime, c: PhysicalPlan, g: seq<Expr>, a: seq<Expr>, spillThreshold: int, rows: seq<Record>)
    requires PlannerForm(c) && rt.shufflePartitions >= 1 && EmitsGroups(rt)
    requires Groupable(g, a) && multiset(PlanRows(rt, c)) == multiset(rows)
    requires Commuting(Partial(g, a), rows) || (Unspilled(rt) && PlanRows(rt, c) == rows)
    ensures multiset(PlanRows(rt, PlanAggregate(rt, c, g, a, spillThreshold))) == multiset(GroupRows(rt, g, a, rows))
  {
    if Commuting(Partial(g, a), rows) {
      TablePermutes(Partial(g, a), rows, PlanRows(rt, c));
      GroupRowsPermute(rt, g, a, PlanRows(rt, c), rows);
    }
    AggregatePlanRows(rt, c, g, a, spillThreshold);
  }

  /** Without joins and aggregations the planned query computes the plan's rows in order. */
  lemma {:induction false} StraightExact(rt: Runtime, p: LogicalPlan, spillThreshold: int)
    requires Straight(p) && Executable(rt, p) && rt.shufflePartitions >= 1
    ensures PlannerForm(Translate(rt, p, spillThreshold))
    ensures PlanRows(rt, Translate(rt, p, spillThreshold)) == Rows(rt, p)
  {
    TranslateLegal(rt, p, spillThreshold);
    match p
    case Scan(ps, _, _, _) => ScanPlanRows(rt, ps);
    case Filter(c, cond) => StraightExact(rt, c, spillThreshold); FilterPlanRows(rt, Translate(rt, c, spillThreshold), cond);
    case Project(c, cols) =>
      StraightExact(rt, c, spillThreshold);
      ProjectPlanRows(rt, Translate(rt, c, spillThreshold), cols, OutputNames(rt, cols));
    case Sort(c, ks) => StraightExact(rt, c, spillThreshold); SortedChild(rt, c, ks, spillThreshold);
  }

  /** The planned query computes the logical plan's rows, in some order over its
      partitions, whatever the hash, the partition counts, the broadcast hints and the
      spilling. */
  lemma {:induction false} TranslateMeaning(rt: Runtime, p: LogicalPlan, spillThreshold: int)
    requires rt.shufflePartitions >= 1 && EmitsGroups(rt) && Executable(rt, p)
    ensures PlannerForm(Translate(rt, p, spillThreshold))
    ensures multiset(PlanRows(rt, Translate(rt, p, spillThreshold))) == multiset(Rows(rt, p))
  {
    TranslateLegal(rt, p, spillThreshold);
    match p
    case Scan(ps, _, _, _) => ScanPlanRows(rt, ps);
    case Filter(c, cond) =>
      var d := Translate(rt, c, spillThreshold);
      TranslateMeaning(rt, c, spillThreshold);
      FilterPlanRows(rt, d, cond);
      FilterPermutes(cond, PlanRows(rt, d), Rows(rt, c));
    case Project(c, cols) =>
      var d, names := Translate(rt, c, spillThreshold), OutputNames(rt, cols);
      TranslateMeaning(rt, c, spillThreshold);
      ProjectPlanRows(rt, d, cols, names);
      ProjectPermutes(cols, names, PlanRows(rt, d), Rows(rt, c));
    case Aggregation(c, g, a) =>
      TranslateMeaning(rt, c, spillThreshold);
      if Straight(c) { StraightExact(rt, c, spillThreshold); }
      AggregateTranslates(rt, Translate(rt, c, spillThreshold), g, a, spillThreshold, Rows(rt, c));
    case Join(l, r, on, b) =>
      TranslateMeaning(rt, l, spillThreshold);
      TranslateMeaning(rt, r, spillThreshold);
      JoinTranslates(rt, Translate(rt, l, spillThreshold), Translate(rt, r, spillThreshold), on, b, Rows(rt, l), Rows(rt, r));
    case Sort(c, ks) =>
      TranslateMeaning(rt, c, spillThreshold);
      SortedChild(rt, c, ks, spillThreshold);
      StableSortPermutes(ks, PlanRows(rt, Translate(rt, c, spillThreshold)));
      StableSortPermutes(ks, Rows(rt, c));
  }

  /** order_by at the root: the planned query's rows, in partition order, are sorted, and
      stably so with respect to the order in which its input is computed. */
  lemma SortedQuery(rt: Runtime, c: LogicalPlan, ks: seq<SortKey>, spillThreshold: int)
    requires rt.shufflePartitions >= 1 && EmitsGroups(rt) && Executable(rt, Sort(c, ks))
    ensures PlannerForm(Translate(rt, c, spillThreshold)) && PlannerForm(Translate(rt, Sort(c, ks), spillThreshold))
    ensures PlanRows(rt, Translate(rt, Sort(c, ks), spillThreshold))
            == StableSort(ks, PlanRows(rt, Translate(rt, c, spillThreshold)))
  {
    TranslateMeaning(rt, c, spillThreshold);
    SortedChild(rt, c, ks, spillThreshold);
  }
}
