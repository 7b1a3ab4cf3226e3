/**
 When spilling shows: a sum over strings concatenates, and a task that has spilled merges
 the rows it still holds before the ones it spilled
 (minispark/physical/operators.py, `_execute_hash_aggregate_partition`).
 */
module SpilledSums {
  import opened Values
  import opened Expressions
  import opened AggregateFunctions
  import opened GroupTables
  import opened HashAggregate
  import opened Spilling
  import opened Logical

  /** Does e compute strings, where exactly the columns in `text` hold strings? */
  predicate IsText(text: set<string>, e: Expr) {
    match e
    case Column(n) => n in text
    case Literal(v) => v.Str?
    case Alias(c, _) => IsText(text, c)
    case Binary(op, a, b) => op.Add? && IsText(text, a) && IsText(text, b)
    case _ => false
  }

  /** A row of these columns: strings or nulls in the text columns, and nowhere else strings. */
  ghost predicate TypedRow(names: set<string>, text: set<string>, r: Record) {
    r.Keys == names && forall n :: n in r ==> if n in text then r[n].Str? || r[n].Null? else !r[n].Str?
  }

  ghost predicate Typed(names: set<string>, text: set<string>, rows: seq<Record>) {
    forall r :: r in rows ==> TypedRow(names, text, r)
  }

  /** Every sum over strings reads group columns only. */
  predicate TextIsGrouped(h: HashAgg, text: set<string>) {
    forall i :: 0 <= i < |h.aggregates| ==> TextGroupedAt(h, text, Functions(h)[i])
  }

  predicate TextGroupedAt(h: HashAgg, text: set<string>, f: Expr) {
    f.Aggregate? && f.kind == Sum && IsText(text, f.child) ==>
      forall n :: n in ReferencedColumns(f.child) ==> Column(n) in h.groupBy
  }

  /** Whatever a table of these columns holds, and whenever a task spills, the groups are the
      ones it would list without spilling. */
  ghost predicate SpillsUnseen(h: HashAgg, names: set<string>, text: set<string>) {
    forall rows, threshold, size :: Typed(names, text, rows) ==>
      TableOf(h, Rotated(rows, SpilledBy(h, rows, threshold, size, |rows|))) == TableOf(h, rows)
  }

  /** A partial aggregation over columns that exist, as analyze() accepts it. */
  ghost predicate Analyzable(h: HashAgg, names: set<string>) {
    && h.isPartial && AreAggregates(Functions(h))
    && (forall i :: 0 <= i < |h.groupBy| ==> h.groupBy[i].Column? && h.groupBy[i].name in names)
    && (forall i :: 0 <= i < |h.aggregates| ==> ReferencedColumns(h.aggregates[i]) <= names)
  }

  // ---- sums over group columns ---------------------------------------------

  lemma {:induction false} OnlyTextIsString(names: set<string>, text: set<string>, e: Expr, r: Record)
    requires TypedRow(names, text, r) && Eval(e, r).Str?
    ensures IsText(text, e)
  {
    match e
    case Binary(op, a, b) => OnlyTextIsString(names, text, a, r); OnlyTextIsString(names, text, b, r);
    case Alias(c, _) => OnlyTextIsString(names, text, c, r);
    case _ =>
  }

  lemma SameKeyReads(h: HashAgg, names: set<string>, x: Record, y: Record, n: string)
    requires KeyOf(h, x) == KeyOf(h, y) && x.Keys == y.Keys == names && n in names && Column(n) in h.groupBy
    ensures x[n] == y[n]
  {
    var i :| 0 <= i < |h.groupBy| && h.groupBy[i] == Column(n);
    assert KeyOf(h, x)[i] == Eval(Column(n), x) && KeyOf(h, y)[i] == Eval(Column(n), y);
  }

  lemma ReadsInner(h: HashAgg, names: set<string>, i: nat)
    requires Analyzable(h, names) && i < |h.aggregates|
    ensures var f := Functions(h)[i];
            && IsAggregateFunction(f) && ReferencedColumns(f) <= names
            && (f.Aggregate? ==> ReferencedColumns(f.child) <= names)
  {
    assert ReferencedColumns(h.aggregates[i]) <= names;
  }

  lemma OnesCommute(h: HashAgg, names: set<string>, text: set<string>, x: Record, y: Record, i: nat)
    requires Analyzable(h, names) && TextIsGrouped(h, text) && i < |h.aggregates|
    requires TypedRow(names, text, x) && TypedRow(names, text, y) && KeyOf(h, x) == KeyOf(h, y)
    ensures var f := Functions(h)[i]; Merge(f, One(f, x), One(f, y)) == Merge(f, One(f, y), One(f, x))
  {
    hide Merge, KeyOf, Analyzable, AddOrRaise;
    var f := Functions(h)[i];
    ReadsInner(h, names, i);
    if f.Aggregate? && f.kind == Sum && One(f, x).Str? && One(f, y).Str? {
      OnlyTextIsString(names, text, f.child, x);
      assert TextGroupedAt(h, text, f);
      forall n | n in ReferencedColumns(f.child) ensures x[n] == y[n] { SameKeyReads(h, names, x, y, n); }
      EvalAgree(f.child, x, y);
    } else {
      UpdateIsMerge(f, Initialize(f), x);
      UpdateIsMerge(f, Initialize(f), y);
      MergeCommutes(f, One(f, x), One(f, y));
    }
  }

  lemma GroupedTextCommutes(h: HashAgg, names: set<string>, text: set<string>, rows: seq<Record>)
    requires Analyzable(h, names) && TextIsGrouped(h, text) && Typed(names, text, rows)
    ensures Commuting(h, rows)
  {
    assert h.isPartial;
    hide Merge, Update, KeyOf, Analyzable, TextIsGrouped, TypedRow;
    forall x, y | x in rows && y in rows ensures Commute(h, x, y) {
      if KeyOf(h, x) == KeyOf(h, y) {
        forall i | 0 <= i < |h.aggregates|
          ensures MergeAll(Functions(h), Contribution(h, x), Contribution(h, y))[i]
                  == MergeAll(Functions(h), Contribution(h, y), Contribution(h, x))[i]
        {
          OnesCommute(h, names, text, x, y, i);
        }
      }
    }
  }

  /** So grouping such a table is settled, spilled or not. */
  lemma GroupedTextSettles(rt: Runtime, c: LogicalPlan, g: seq<Expr>, a: seq<Expr>, text: set<string>)
    requires Analyzable(Partial(g, a), Columns(rt, c)) && TextIsGrouped(Partial(g, a), text)
    requires Typed(Columns(rt, c), text, Rows(rt, c))
    ensures Settled(rt, c, g, a)
  {
    hide Commuting, Rows;
    GroupedTextCommutes(Partial(g, a), Columns(rt, c), text, Rows(rt, c));
  }

  // ---- sums over other columns ---------------------------------------------

  /** A row whose column d holds w. */
  function RowOf(names: set<string>, text: set<string>, d: string, w: string): Record {
    map n | n in names :: if n == d then Str(w) else if n in text then Str("t") else Num(0.0)
  }

  /** On two such rows a text expression computes two words of one length, which differ if
      it reads d. */
  lemma {:induction false} WordsOf(names: set<string>, text: set<string>, d: string, e: Expr)
    requires IsText(text, e) && ReferencedColumns(e) <= names
    ensures var u, v := Eval(e, RowOf(names, text, d, "a")), Eval(e, RowOf(names, text, d, "b"));
            && u.Str? && v.Str? && |u.s| == |v.s|
            && (d in ReferencedColumns(e) ==> u != v && d in text)
  {
    match e
    case Binary(_, a, b) =>
      WordsOf(names, text, d, a);
      WordsOf(names, text, d, b);
      var x, y := RowOf(names, text, d, "a"), RowOf(names, text, d, "b");
      Halves(Eval(a, x).s, Eval(b, x).s, Eval(a, y).s, Eval(b, y).s);
    case Alias(c, _) => WordsOf(names, text, d, c);
    case _ =>
  }

  /** Equal concatenations of words of equal lengths have equal halves. */
  lemma Halves(a: string, b: string, c: string, d: string)
    requires |a| == |c| && |b| == |d|
    ensures a + b == c + d <==> a == c && b == d
  {
    if a + b == c + d {
      assert a == (a + b)[..|a|] && c == (c + d)[..|c|];
      assert b == (a + b)[|a|..] && d == (c + d)[|c|..];
    }
  }

  lemma SameKeys(h: HashAgg, names: set<string>, text: set<string>, d: string)
    requires Analyzable(h, names) && Column(d) !in h.groupBy
    ensures KeyOf(h, RowOf(names, text, d, "a")) == KeyOf(h, RowOf(names, text, d, "b"))
  {
    var x, y := RowOf(names, text, d, "a"), RowOf(names, text, d, "b");
    forall i | 0 <= i < |h.groupBy| ensures KeyOf(h, x)[i] == KeyOf(h, y)[i] {
      assert h.groupBy[i] in h.groupBy;
    }
  }

  lemma PairTable(h: HashAgg, x: Record, y: Record)
    requires KeyOf(h, x) == KeyOf(h, y)
    ensures TableOf(h, [x, y]) == map[KeyOf(h, x) := MergeAll(Functions(h), Contribution(h, x), Contribution(h, y))]
  {
    hide KeyOf, Contribution, MergeAll;
    TableOne(h, x);
    TableSnoc(h, [x], y);
    assert [x] + [y] == [x, y];
  }

  /** A task whose threshold the first of two rows reaches, and the second alone does not. */
  lemma SpillsFirst(h: HashAgg, x: Record, y: Record) returns (size: (Key, State) -> nat)
    requires Contribution(h, x) != Contribution(h, y)
    ensures SpilledBy(h, [x, y], 1, size, 2) == 1
  {
    hide Contribution;
    var heavy := Contribution(h, x);
    size := (k, s) => if s == heavy then 1 else 0;
    assert [x, y][0..1] == [x] && [x, y][1..2] == [y];
    TableOne(h, x);
    TableOne(h, y);
    OneGroup(size, KeyOf(h, x), Contribution(h, x));
    OneGroup(size, KeyOf(h, y), Contribution(h, y));
    SpilledByStep(h, [x, y], 1, size, 0);
    SpilledByStep(h, [x, y], 1, size, 1);
  }

  lemma OneGroup(size: (Key, State) -> nat, k: Key, s: State)
    ensures TableBytes(size, map[k := s]) == size(k, s)
  {
    TableBytesUpdate(size, map[], k, s);
    assert map[][k := s] == map[k := s];
  }

  /** Two rows of one group that hold "a" and "b": with the first spilled, their sum is
      "ba". */
  lemma SpilledSumDiffers(h: HashAgg, names: set<string>, text: set<string>, i: nat, d: string)
    returns (size: (Key, State) -> nat)
    requires Analyzable(h, names) && i < |h.aggregates| && Column(d) !in h.groupBy
    requires var f := Functions(h)[i];
             f.Aggregate? && f.kind == Sum && IsText(text, f.child) && d in ReferencedColumns(f.child)
    ensures var rows := [RowOf(names, text, d, "a"), RowOf(names, text, d, "b")];
            && Typed(names, text, rows)
            && TableOf(h, Rotated(rows, SpilledBy(h, rows, 1, size, 2))) != TableOf(h, rows)
  {
    hide TableOf, SpilledBy, KeyOf, ReferencedColumns;
    var f, x, y := Functions(h)[i], RowOf(names, text, d, "a"), RowOf(names, text, d, "b");
    ReadsInner(h, names, i);
    WordsOf(names, text, d, f.child);
    var u, v := Eval(f.child, x), Eval(f.child, y);
    Halves(u.s, v.s, v.s, u.s);
    assert Contribution(h, x)[i] == u && Contribution(h, y)[i] == v;
    size := SpillsFirst(h, x, y);
    assert Rotated([x, y], 1) == [y, x];
    SameKeys(h, names, text, d);
    PairTable(h, x, y);
    PairTable(h, y, x);
    assert MergeAll(Functions(h), Contribution(h, x), Contribution(h, y))[i] == Str(u.s + v.s);
    assert MergeAll(Functions(h), Contribution(h, y), Contribution(h, x))[i] == Str(v.s + u.s);
    assert TableOf(h, [x, y])[KeyOf(h, x)] != TableOf(h, [y, x])[KeyOf(h, x)];
  }

  // ---- exactly when --------------------------------------------------------

  /** Over columns of which exactly those in `text` hold strings, spilling never shows, for
      any rows, threshold and size estimate, exactly when every sum over strings reads group
      columns only. */
  lemma SpillsUnseenIff(h: HashAgg, names: set<string>, text: set<string>)
    requires Analyzable(h, names)
    ensures SpillsUnseen(h, names, text) <==> TextIsGrouped(h, text)
  {
    hide Typed, TableOf, SpilledBy, Analyzable, Commuting;
    if TextIsGrouped(h, text) {
      forall rows, threshold, size | Typed(names, text, rows)
        ensures TableOf(h, Rotated(rows, SpilledBy(h, rows, threshold, size, |rows|))) == TableOf(h, rows)
      {
        GroupedTextCommutes(h, names, text, rows);
        RotatedTable(h, rows, SpilledBy(h, rows, threshold, size, |rows|));
      }
    } else {
      var i :| 0 <= i < |h.aggregates| && !TextGroupedAt(h, text, Functions(h)[i]);
      var d :| d in ReferencedColumns(Functions(h)[i].child) && Column(d) !in h.groupBy;
      var size := SpilledSumDiffers(h, names, text, i, d);
      var rows := [RowOf(names, text, d, "a"), RowOf(names, text, d, "b")];
      assert Typed(names, text, rows) && |rows| == 2;
    }
  }
}
