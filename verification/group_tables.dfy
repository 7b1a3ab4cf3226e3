/**
 Group tables: the value a hash aggregation builds, for both passes
 (minispark/physical/operators.py, `_execute_hash_aggregate_partition`).

 The partial pass turns each raw row into one row's worth of state; the final pass
 reads each row's state columns.  Either way a table is a sum, under merge, of
 one-row tables.  Merging associates, so that sum does not depend on how the rows are
 partitioned; where the rows' states also commute it does not depend on their order.
 */
module GroupTables {
  import opened Values
  import opened Expressions
  import opened AggregateFunctions
  import opened Sequences

  type Key = seq<Value>
  type Table = map<Key, State>

  /** The aggregation half of a HashAggregateExec. */
  datatype HashAgg = HashAgg(groupBy: seq<Expr>, aggregates: seq<Expr>, isPartial: bool)

  function Functions(h: HashAgg): (fs: seq<Expr>)
    ensures |fs| == |h.aggregates|
  {
    seq(|h.aggregates|, i requires 0 <= i < |h.aggregates| => UnwrapAlias(h.aggregates[i]))
  }

  function Decimal(n: nat): string {
    var digit := ["0123456789"[n % 10]];
    if n < 10 then digit else Decimal(n / 10) + digit
  }

  /** The internal column that carries the i-th state between the two passes. */
  function StateName(i: nat): string {
    "__agg_state_" + Decimal(i)
  }

  function StateNames(n: nat): (ns: seq<string>)
    ensures |ns| == n
    ensures forall i :: 0 <= i < n ==> ns[i] == StateName(i)
  {
    seq(n, i requires 0 <= i < n => StateName(i))
  }

  function KeyOf(h: HashAgg, r: Record): Key {
    EvalAll(h.groupBy, r)
  }

  /** What one row adds to its group: one update from scratch (partial pass), or
      the states it carries (final pass). */
  function Contribution(h: HashAgg, r: Record): (s: State)
    ensures |s| == |h.aggregates|
  {
    if h.isPartial then UpdateAll(Functions(h), InitializeAll(Functions(h)), r)
    else seq(|h.aggregates|, i requires 0 <= i < |h.aggregates| => Eval(Column(StateName(i)), r))
  }

  predicate Shaped(n: nat, t: Table) {
    forall k :: k in t ==> |t[k]| == n
  }

  function MergeTables(fs: seq<Expr>, a: Table, b: Table): (t: Table)
    requires Shaped(|fs|, a) && Shaped(|fs|, b)
    ensures Shaped(|fs|, t) && t.Keys == a.Keys + b.Keys
  {
    map k | k in a.Keys + b.Keys ::
      if k in a && k in b then MergeAll(fs, a[k], b[k]) else if k in a then a[k] else b[k]
  }

  function Single(h: HashAgg, r: Record): (t: Table)
    ensures Shaped(|h.aggregates|, t)
  {
    map[KeyOf(h, r) := Contribution(h, r)]
  }

  /** The table of a list of rows. */
  function TableOf(h: HashAgg, rows: seq<Record>): (t: Table)
    ensures Shaped(|h.aggregates|, t)
  {
    if rows == [] then map[]
    else
      var n := |rows| - 1;
      MergeTables(Functions(h), TableOf(h, rows[..n]), Single(h, rows[n]))
  }

  ghost predicate ValidTable(fs: seq<Expr>, t: Table) {
    forall k :: k in t ==> ValidStates(fs, t[k])
  }

  /** Two rows whose states may be merged in either order. */
  ghost predicate Commute(h: HashAgg, x: Record, y: Record) {
    KeyOf(h, x) == KeyOf(h, y) ==>
      MergeAll(Functions(h), Contribution(h, x), Contribution(h, y))
      == MergeAll(Functions(h), Contribution(h, y), Contribution(h, x))
  }

  /** Any two rows commute.  Of raw rows only sums over strings can make this fail. */
  ghost predicate Commuting(h: HashAgg, rows: seq<Record>) {
    forall x, y :: x in rows && y in rows ==> Commute(h, x, y)
  }

  // ---- merging tables is a monoid ------------------------------------------

  lemma MergeAssociatesAt(fs: seq<Expr>, a: Table, b: Table, c: Table, k: Key)
    requires Shaped(|fs|, a) && Shaped(|fs|, b) && Shaped(|fs|, c)
    requires k in a.Keys + b.Keys + c.Keys
    ensures MergeTables(fs, MergeTables(fs, a, b), c)[k] == MergeTables(fs, a, MergeTables(fs, b, c))[k]
  {
    var ab, bc := MergeTables(fs, a, b), MergeTables(fs, b, c);
    if k in a && k in b && k in c {
      assert ab[k] == MergeAll(fs, a[k], b[k]) && bc[k] == MergeAll(fs, b[k], c[k]);
      MergeAllAssociates(fs, a[k], b[k], c[k]);
    } else if k in a && k in b {
      assert ab[k] == MergeAll(fs, a[k], b[k]) && bc[k] == b[k];
    } else if k in b && k in c {
      assert ab[k] == b[k] && bc[k] == MergeAll(fs, b[k], c[k]);
    } else if k in a && k in c {
      assert ab[k] == a[k] && bc[k] == c[k];
    }
  }

  lemma MergeTablesAssociate(fs: seq<Expr>, a: Table, b: Table, c: Table)
    requires Shaped(|fs|, a) && Shaped(|fs|, b) && Shaped(|fs|, c)
    ensures MergeTables(fs, MergeTables(fs, a, b), c) == MergeTables(fs, a, MergeTables(fs, b, c))
  {
    var l, r := MergeTables(fs, MergeTables(fs, a, b), c), MergeTables(fs, a, MergeTables(fs, b, c));
    assert l.Keys == r.Keys == a.Keys + b.Keys + c.Keys;
    forall k | k in l ensures l[k] == r[k] {
      MergeAssociatesAt(fs, a, b, c, k);
    }
  }

  /** Assigning one key is merging in a one-key table. */
  lemma PutIsMerge(fs: seq<Expr>, t: Table, k: Key, s: State)
    requires Shaped(|fs|, t) && |s| == |fs|
    ensures t[k := if k in t then MergeAll(fs, t[k], s) else s] == MergeTables(fs, t, map[k := s])
  {
  }

  lemma MergeEmpty(fs: seq<Expr>, t: Table)
    requires Shaped(|fs|, t)
    ensures MergeTables(fs, t, map[]) == t && MergeTables(fs, map[], t) == t
  {
  }

  lemma TableSnoc(h: HashAgg, rows: seq<Record>, r: Record)
    ensures TableOf(h, rows + [r]) == MergeTables(Functions(h), TableOf(h, rows), Single(h, r))
  {
    assert (rows + [r])[..|rows|] == rows;
  }

  lemma TableOne(h: HashAgg, r: Record)
    ensures TableOf(h, [r]) == Single(h, r)
  {
    TableSnoc(h, [], r);
    assert [] + [r] == [r];
    MergeEmpty(Functions(h), Single(h, r));
  }

  /** The table of a concatenation is the merge of the tables. */
  lemma {:induction false} TableAppend(h: HashAgg, a: seq<Record>, b: seq<Record>)
    ensures TableOf(h, a + b) == MergeTables(Functions(h), TableOf(h, a), TableOf(h, b))
  {
    if b == [] {
      assert a + b == a;
      MergeEmpty(Functions(h), TableOf(h, a));
    } else {
      var front, x := b[..|b| - 1], b[|b| - 1];
      assert b == front + [x] && a + b == (a + front) + [x];
      TableAppend(h, a, front);
      TableSnoc(h, a + front, x);
      TableSnoc(h, front, x);
      MergeTablesAssociate(Functions(h), TableOf(h, a), TableOf(h, front), Single(h, x));
    }
  }

  // ---- the order of rows that commute --------------------------------------

  lemma SinglesCommute(h: HashAgg, x: Record, y: Record)
    requires Commute(h, x, y)
    ensures MergeTables(Functions(h), Single(h, x), Single(h, y)) == MergeTables(Functions(h), Single(h, y), Single(h, x))
  {
    hide Functions, KeyOf, Contribution;
  }

  /** A row that commutes with each of some rows commutes with their table. */
  lemma {:induction false} SingleCommutes(h: HashAgg, rows: seq<Record>, x: Record)
    requires forall y :: y in rows ==> Commute(h, y, x)
    ensures MergeTables(Functions(h), TableOf(h, rows), Single(h, x)) == MergeTables(Functions(h), Single(h, x), TableOf(h, rows))
  {
    hide Commute, MergeTables, Single, Functions;
    var fs, s := Functions(h), Single(h, x);
    if rows == [] {
      MergeEmpty(fs, s);
    } else {
      var front, y := rows[..|rows| - 1], rows[|rows| - 1];
      assert rows == front + [y] && y in rows;
      var t, u := TableOf(h, front), Single(h, y);
      TableSnoc(h, front, y);
      SingleCommutes(h, front, x);
      SinglesCommute(h, y, x);
      MergeTablesAssociate(fs, t, u, s);
      MergeTablesAssociate(fs, t, s, u);
      MergeTablesAssociate(fs, s, t, u);
    }
  }

  lemma TableRotates(h: HashAgg, front: seq<Record>, x: Record, back: seq<Record>)
    requires forall y :: y in back ==> Commute(h, y, x)
    ensures TableOf(h, front + [x] + back) == MergeTables(Functions(h), TableOf(h, front + back), Single(h, x))
  {
    hide Commute, MergeTables, Single, Functions;
    var fs := Functions(h);
    var f, s, b := TableOf(h, front), Single(h, x), TableOf(h, back);
    TableSnoc(h, front, x);
    TableAppend(h, front + [x], back);
    TableAppend(h, front, back);
    SingleCommutes(h, back, x);
    MergeTablesAssociate(fs, f, s, b);
    MergeTablesAssociate(fs, f, b, s);
  }

  /** If the rows commute, the table depends only on which rows there are. */
  lemma {:induction false} TablePermutes(h: HashAgg, a: seq<Record>, b: seq<Record>)
    requires Commuting(h, a) && multiset(a) == multiset(b)
    ensures Commuting(h, b) && TableOf(h, a) == TableOf(h, b)
  {
    hide Commute;
    forall r | r in b ensures r in a { SameMembers(a, b, r); }
    if a == [] {
      assert |multiset(b)| == 0;
    } else {
      var n := |a| - 1;
      var x := a[n];
      assert x in a;
      assert a == a[..n] + [x];
      SameMembers(a, b, x);
      var front, back := SplitAt(b, x);
      CancelOne(a[..n], x, front, back);
      assert forall r :: r in a[..n] ==> r in a;
      assert forall r :: r in back ==> r in b;
      TablePermutes(h, a[..n], front + back);
      TableRotates(h, front, x, back);
    }
  }

  /** The order in which a task that has spilled its first n rows merges them: what is
      still in memory first. */
  function Rotated(rows: seq<Record>, n: nat): seq<Record>
    requires n <= |rows|
  {
    rows[n..] + rows[..n]
  }

  lemma RotatedTable(h: HashAgg, rows: seq<Record>, n: nat)
    requires n <= |rows| && (Commuting(h, rows) || n == 0)
    ensures TableOf(h, Rotated(rows, n)) == TableOf(h, rows)
  {
    hide Commuting;
    assert rows == rows[..n] + rows[n..];
    assert n == 0 ==> Rotated(rows, n) == rows;
    assert multiset(rows) == multiset(rows[..n]) + multiset(rows[n..]) == multiset(Rotated(rows, n));
    if n != 0 { TablePermutes(h, rows, Rotated(rows, n)); }
  }

  // ---- restriction to the keys of one bucket -------------------------------

  /** The rows whose key satisfies p. */
  function RowsWhere(h: HashAgg, p: Key -> bool, rows: seq<Record>): seq<Record> {
    if rows == [] then []
    else
      var n := |rows| - 1;
      RowsWhere(h, p, rows[..n]) + if p(KeyOf(h, rows[n])) then [rows[n]] else []
  }

  function Restrict(p: Key -> bool, t: Table): Table {
    map k | k in t && p(k) :: t[k]
  }

  lemma RestrictMerge(fs: seq<Expr>, p: Key -> bool, a: Table, b: Table)
    requires Shaped(|fs|, a) && Shaped(|fs|, b)
    ensures Restrict(p, MergeTables(fs, a, b)) == MergeTables(fs, Restrict(p, a), Restrict(p, b))
  {
  }

  lemma RestrictSingle(h: HashAgg, p: Key -> bool, r: Record)
    ensures Restrict(p, Single(h, r)) == if p(KeyOf(h, r)) then Single(h, r) else map[]
  {
  }

  lemma WhereSnoc(h: HashAgg, p: Key -> bool, rows: seq<Record>, x: Record)
    ensures RowsWhere(h, p, rows + [x]) == RowsWhere(h, p, rows) + if p(KeyOf(h, x)) then [x] else []
  {
    assert (rows + [x])[..|rows|] == rows;
  }

  lemma TableWhereStep(h: HashAgg, p: Key -> bool, front: seq<Record>, x: Record)
    requires TableOf(h, RowsWhere(h, p, front)) == Restrict(p, TableOf(h, front))
    ensures TableOf(h, RowsWhere(h, p, front + [x])) == Restrict(p, TableOf(h, front + [x]))
  {
    var fs, kept := Functions(h), RowsWhere(h, p, front);
    WhereSnoc(h, p, front, x);
    TableSnoc(h, front, x);
    RestrictMerge(fs, p, TableOf(h, front), Single(h, x));
    RestrictSingle(h, p, x);
    if p(KeyOf(h, x)) {
      TableSnoc(h, kept, x);
    } else {
      MergeEmpty(fs, Restrict(p, TableOf(h, front)));
      assert kept + [] == kept;
    }
  }

  /** Keeping only some keys' rows keeps only those keys' groups, unchanged. */
  lemma {:induction false} TableWhere(h: HashAgg, p: Key -> bool, rows: seq<Record>)
    ensures TableOf(h, RowsWhere(h, p, rows)) == Restrict(p, TableOf(h, rows))
  {
    if rows != [] {
      var front, x := rows[..|rows| - 1], rows[|rows| - 1];
      assert rows == front + [x];
      TableWhere(h, p, front);
      TableWhereStep(h, p, front, x);
    }
  }

  // ---- the one-line meaning of group-by ------------------------------------

  /** Fold one group's raw rows, in order. */
  function FoldUpdates(fs: seq<Expr>, rows: seq<Record>): (s: State)
    ensures |s| == |fs|
  {
    if rows == [] then InitializeAll(fs)
    else UpdateAll(fs, FoldUpdates(fs, rows[..|rows| - 1]), rows[|rows| - 1])
  }

  function RowsOfKey(groupBy: seq<Expr>, k: Key, rows: seq<Record>): seq<Record> {
    if rows == [] then []
    else
      var n := |rows| - 1;
      RowsOfKey(groupBy, k, rows[..n]) + if EvalAll(groupBy, rows[n]) == k then [rows[n]] else []
  }

  ghost predicate AreAggregates(fs: seq<Expr>) {
    forall i :: 0 <= i < |fs| ==> IsAggregateFunction(fs[i])
  }

  /** Updates keep a table's states valid. */
  lemma {:induction false} TableValid(h: HashAgg, rows: seq<Record>)
    requires h.isPartial && AreAggregates(Functions(h))
    ensures ValidTable(Functions(h), TableOf(h, rows))
  {
    hide MergeAll, UpdateAll, ValidStates;
    var fs := Functions(h);
    if rows != [] {
      var front, x := rows[..|rows| - 1], rows[|rows| - 1];
      assert rows == front + [x];
      TableValid(h, front);
      InitializeAllValid(fs);
      UpdateAllIsMergeAll(fs, InitializeAll(fs), x);
      forall k | k in TableOf(h, rows) ensures ValidStates(fs, TableOf(h, rows)[k]) {
        MergedAt(h, front, x, k);
        if k in TableOf(h, front) { UpdateAllIsMergeAll(fs, TableOf(h, front)[k], x); }
      }
    }
  }

  lemma FoldSnoc(fs: seq<Expr>, rows: seq<Record>, r: Record)
    ensures FoldUpdates(fs, rows + [r]) == UpdateAll(fs, FoldUpdates(fs, rows), r)
  {
    assert (rows + [r])[..|rows|] == rows;
  }

  lemma MergedAt(h: HashAgg, rows: seq<Record>, x: Record, k: Key)
    ensures var t, u := TableOf(h, rows), TableOf(h, rows + [x]);
            && (k in u <==> k in t || k == KeyOf(h, x))
            && (k in t && k != KeyOf(h, x) ==> u[k] == t[k])
            && (k in t && k == KeyOf(h, x) ==> u[k] == MergeAll(Functions(h), t[k], Contribution(h, x)))
            && (k !in t && k == KeyOf(h, x) ==> u[k] == Contribution(h, x))
  {
    TableSnoc(h, rows, x);
  }

  lemma RowsOfKeySnoc(groupBy: seq<Expr>, k: Key, rows: seq<Record>, x: Record)
    ensures RowsOfKey(groupBy, k, rows + [x]) == RowsOfKey(groupBy, k, rows) + if EvalAll(groupBy, x) == k then [x] else []
  {
    assert (rows + [x])[..|rows|] == rows;
  }

  ghost predicate HasGroup(h: HashAgg, rows: seq<Record>, k: Key) {
    var mine := RowsOfKey(h.groupBy, k, rows);
    && (k in TableOf(h, rows) <==> mine != [])
    && (k in TableOf(h, rows) ==> TableOf(h, rows)[k] == FoldUpdates(Functions(h), mine))
  }

  lemma HasGroupStep(h: HashAgg, front: seq<Record>, x: Record, k: Key)
    requires h.isPartial && AreAggregates(Functions(h))
    requires HasGroup(h, front, k)
    ensures HasGroup(h, front + [x], k)
  {
    hide MergeAll, UpdateAll, ValidStates, MergeTables, TableOf, RowsOfKey;
    var fs, mine := Functions(h), RowsOfKey(h.groupBy, k, front);
    MergedAt(h, front, x, k);
    RowsOfKeySnoc(h.groupBy, k, front, x);
    if KeyOf(h, x) == k {
      FoldSnoc(fs, mine, x);
      InitializeAllValid(fs);
      UpdateAllIsMergeAll(fs, InitializeAll(fs), x);
      if k in TableOf(h, front) {
        TableValid(h, front);
        UpdateAllIsMergeAll(fs, TableOf(h, front)[k], x);
      }
    } else {
      assert mine + [] == mine;
    }
  }

  /** The partial pass's table is group-by itself: its keys are the keys that occur,
      and each key's state is the fold of exactly that key's rows. */
  lemma {:induction false} TableIsGroupBy(h: HashAgg, rows: seq<Record>, k: Key)
    requires h.isPartial && AreAggregates(Functions(h))
    ensures k in TableOf(h, rows) <==> RowsOfKey(h.groupBy, k, rows) != []
    ensures k in TableOf(h, rows) ==> TableOf(h, rows)[k] == FoldUpdates(Functions(h), RowsOfKey(h.groupBy, k, rows))
  {
    if rows != [] {
      var front, x := rows[..|rows| - 1], rows[|rows| - 1];
      assert rows == front + [x];
      TableIsGroupBy(h, front, k);
      HasGroupStep(h, front, x, k);
    }
  }

  // ---- output rows ---------------------------------------------------------

  function GroupNames(rt: Runtime, h: HashAgg): (ns: seq<string>)
    ensures |ns| == |h.groupBy|
  {
    OutputNames(rt, h.groupBy)
  }

  /** Column names of the operator's output rows. */
  function OutputColumns(rt: Runtime, h: HashAgg): (ns: seq<string>)
    ensures |ns| == |h.groupBy| + |h.aggregates|
  {
    GroupNames(rt, h) + if h.isPartial then StateNames(|h.aggregates|) else OutputNames(rt, h.aggregates)
  }

  /** One group's output row: its key, then its states (partial) or values (final). */
  function OutputRow(rt: Runtime, h: HashAgg, k: Key, s: State): Record
    requires |s| == |h.aggregates|
  {
    if |k| != |h.groupBy| then map[]
    else RowFrom(OutputColumns(rt, h), k + if h.isPartial then s else FinalizeAll(Functions(h), s))
  }

  function OutputRows(rt: Runtime, h: HashAgg, order: seq<Key>, t: Table): (rows: seq<Record>)
    requires Shaped(|h.aggregates|, t)
    requires forall i :: 0 <= i < |order| ==> order[i] in t
    ensures |rows| == |order|
  {
    seq(|order|, i requires 0 <= i < |order| => OutputRow(rt, h, order[i], t[order[i]]))
  }

  /** order lists each member of keys exactly once. */
  ghost predicate Enumerates(order: seq<Key>, keys: set<Key>) {
    && (forall i, j :: 0 <= i < j < |order| ==> order[i] != order[j])
    && (forall k :: k in order <==> k in keys)
  }

  /** out holds the table's groups, each group exactly once, in some order. */
  ghost predicate Lists(rt: Runtime, h: HashAgg, out: seq<Record>, t: Table)
    requires Shaped(|h.aggregates|, t)
  {
    exists order: seq<Key> :: Enumerates(order, t.Keys) && out == OutputRows(rt, h, order, t)
  }

  /** Keys in order of first appearance: dict order. */
  function KeysInOrder(h: HashAgg, rows: seq<Record>): (order: seq<Key>)
    ensures Enumerates(order, TableOf(h, rows).Keys)
  {
    if rows == [] then []
    else
      var n := |rows| - 1;
      var before := KeysInOrder(h, rows[..n]);
      var k := KeyOf(h, rows[n]);
      if k in before then before else before + [k]
  }

  /** The aggregation of one partition, groups in order of first appearance. */
  function AggregateRows(rt: Runtime, h: HashAgg, rows: seq<Record>): seq<Record> {
    OutputRows(rt, h, KeysInOrder(h, rows), TableOf(h, rows))
  }

  lemma AggregateRowsLists(rt: Runtime, h: HashAgg, rows: seq<Record>)
    ensures Lists(rt, h, AggregateRows(rt, h, rows), TableOf(h, rows))
  {
  }

  lemma EnumeratesDrop(order: seq<Key>, keys: set<Key>, j: nat)
    requires Enumerates(order, keys) && j < |order|
    ensures Enumerates(order[..j] + order[j + 1..], keys - {order[j]})
  {
    var rest := order[..j] + order[j + 1..];
    forall k ensures k in rest <==> k in keys - {order[j]} {
      if k in rest {
        var i :| 0 <= i < |rest| && rest[i] == k;
        assert k == order[if i < j then i else i + 1];
        assert k in order;
      }
      if k in keys && k != order[j] {
        assert k in order;
        var i :| 0 <= i < |order| && order[i] == k;
        assert rest[if i < j then i else i - 1] == k;
      }
    }
  }

  lemma OutputRowAt(rt: Runtime, h: HashAgg, order: seq<Key>, t: Table, i: nat)
    requires Shaped(|h.aggregates|, t) && (forall j :: 0 <= j < |order| ==> order[j] in t) && i < |order|
    ensures OutputRows(rt, h, order, t)[i] == OutputRow(rt, h, order[i], t[order[i]])
  {
    hide OutputRow;
  }

  lemma OutputRowsWithout(rt: Runtime, h: HashAgg, t: Table, order: seq<Key>, j: nat)
    requires Shaped(|h.aggregates|, t) && Enumerates(order, t.Keys) && j < |order|
    requires Enumerates(order[..j] + order[j + 1..], (t - {order[j]}).Keys)
    ensures var rows := OutputRows(rt, h, order, t);
            rows[..j] + rows[j + 1..] == OutputRows(rt, h, order[..j] + order[j + 1..], t - {order[j]})
  {
    hide OutputRow, OutputRows;
    var rows, rest, less := OutputRows(rt, h, order, t), order[..j] + order[j + 1..], t - {order[j]};
    forall i | 0 <= i < |rest| ensures (rows[..j] + rows[j + 1..])[i] == OutputRows(rt, h, rest, less)[i] {
      var q := if i < j then i else i + 1;
      assert rest[i] == order[q] && order[q] != order[j];
      OutputRowAt(rt, h, order, t, q);
      OutputRowAt(rt, h, rest, less, i);
    }
  }

  /** A listing is one group's row and a listing of the other groups. */
  lemma OutputRowsDrop(rt: Runtime, h: HashAgg, t: Table, order: seq<Key>, k: Key) returns (rest: seq<Key>)
    requires Shaped(|h.aggregates|, t) && Enumerates(order, t.Keys) && k in order
    ensures |rest| + 1 == |order| && Enumerates(rest, (t - {k}).Keys)
    ensures multiset(OutputRows(rt, h, order, t))
            == multiset(OutputRows(rt, h, rest, t - {k})) + multiset{OutputRow(rt, h, k, t[k])}
  {
    var j: nat :| j < |order| && order[j] == k;
    rest := order[..j] + order[j + 1..];
    EnumeratesDrop(order, t.Keys, j);
    assert (t - {k}).Keys == t.Keys - {k};
    OutputRowsWithout(rt, h, t, order, j);
    RemoveOne(OutputRows(rt, h, order, t), j);
  }

  /** Any two listings of a table hold the same rows. */
  lemma {:induction false} ListingsAgree(rt: Runtime, h: HashAgg, t: Table, a: seq<Key>, b: seq<Key>)
    requires Shaped(|h.aggregates|, t)
    requires Enumerates(a, t.Keys) && Enumerates(b, t.Keys)
    ensures multiset(OutputRows(rt, h, a, t)) == multiset(OutputRows(rt, h, b, t))
    decreases |a|
  {
    if a != [] || b != [] {
      var k := if a != [] then a[0] else b[0];
      assert k in a || k in b;
      assert k in a && k in b;
      var a' := OutputRowsDrop(rt, h, t, a, k);
      var b' := OutputRowsDrop(rt, h, t, b, k);
      ListingsAgree(rt, h, t - {k}, a', b');
    }
  }

  // ---- the two passes, and the reference -----------------------------------

  function Partial(groupBy: seq<Expr>, aggregates: seq<Expr>): HashAgg {
    HashAgg(groupBy, aggregates, true)
  }

  function Final(groupBy: seq<Expr>, aggregates: seq<Expr>): HashAgg {
    HashAgg(groupBy, aggregates, false)
  }

  /** GROUP BY: one output row per key that occurs, in order of first appearance,
      holding the finalized fold of that key's rows (see TableIsGroupBy). */
  function GroupRows(rt: Runtime, groupBy: seq<Expr>, aggregates: seq<Expr>, rows: seq<Record>): seq<Record> {
    OutputRows(rt, Final(groupBy, aggregates), KeysInOrder(Partial(groupBy, aggregates), rows),
               TableOf(Partial(groupBy, aggregates), rows))
  }

  /** What planning checks or assumes of a grouping: plain, distinct group columns,
      aggregates proper, and no group column named like a state column. */
  ghost predicate Groupable(groupBy: seq<Expr>, aggregates: seq<Expr>) {
    && (forall i :: 0 <= i < |groupBy| ==> groupBy[i].Column?)
    && (forall i, j :: 0 <= i < j < |groupBy| ==> groupBy[i] != groupBy[j])
    && (forall i :: 0 <= i < |aggregates| ==> IsAggregateFunction(UnwrapAlias(aggregates[i])))
    && (forall i, m :: 0 <= i < |groupBy| && 0 <= m < |aggregates| ==> groupBy[i] != Column(StateName(m)))
  }

  /** What a task that aggregates `rows` emits. */
  function Emitted(rt: Runtime, h: HashAgg, threshold: int, rows: seq<Record>): seq<Record> {
    rt.emit(h.groupBy, h.aggregates, h.isPartial, threshold, rows)
  }

  /** out lists the groups of some rows, each once, in some order; their states are those of
      the rows merged in order, but for the rows that had been spilled, which come last. */
  ghost predicate ListsRotated(rt: Runtime, h: HashAgg, out: seq<Record>, rows: seq<Record>) {
    exists n: nat :: n <= |rows| && Lists(rt, h, out, TableOf(h, Rotated(rows, n)))
  }

  /** An aggregation task lists its groups. */
  ghost predicate EmitsGroups(rt: Runtime) {
    forall h, threshold, rows :: AreAggregates(Functions(h)) ==>
      ListsRotated(rt, h, Emitted(rt, h, threshold, rows), rows)
  }

  /** No aggregation task spills.  A run in which none did is also a run of a runtime that
      never spills: only what its tasks emitted on their rows matters. */
  ghost predicate Unspilled(rt: Runtime) {
    forall h, threshold, rows :: AreAggregates(Functions(h)) ==>
      Lists(rt, h, Emitted(rt, h, threshold, rows), TableOf(h, rows))
  }

  /** Where rows commute or nothing spills, a task's groups are exactly its rows'. */
  lemma EmitsTable(rt: Runtime, h: HashAgg, threshold: int, rows: seq<Record>)
    requires EmitsGroups(rt) && AreAggregates(Functions(h)) && (Commuting(h, rows) || Unspilled(rt))
    ensures Lists(rt, h, Emitted(rt, h, threshold, rows), TableOf(h, rows))
  {
    hide Lists, Commuting, AreAggregates;
    if Commuting(h, rows) {
      assert ListsRotated(rt, h, Emitted(rt, h, threshold, rows), rows);
      var n: nat :| n <= |rows| && Lists(rt, h, Emitted(rt, h, threshold, rows), TableOf(h, Rotated(rows, n)));
      RotatedTable(h, rows, n);
    }
  }

  lemma {:induction false} NamesSame(rt: Runtime, rt': Runtime, es: seq<Expr>)
    requires rt.repr == rt'.repr
    ensures OutputNames(rt, es) == OutputNames(rt', es)
  {
    if es != [] { NamesSame(rt, rt', es[1..]); }
  }

  lemma OutputRowsSame(rt: Runtime, rt': Runtime, h: HashAgg, order: seq<Key>, t: Table)
    requires rt.repr == rt'.repr && Shaped(|h.aggregates|, t) && forall i :: 0 <= i < |order| ==> order[i] in t
    ensures OutputRows(rt, h, order, t) == OutputRows(rt', h, order, t)
  {
    NamesSame(rt, rt', h.groupBy);
    NamesSame(rt, rt', h.aggregates);
  }

  lemma ListsSame(rt: Runtime, rt': Runtime, h: HashAgg, out: seq<Record>, t: Table)
    requires rt.repr == rt'.repr && Shaped(|h.aggregates|, t) && Lists(rt, h, out, t)
    ensures Lists(rt', h, out, t)
  {
    var order: seq<Key> :| Enumerates(order, t.Keys) && out == OutputRows(rt, h, order, t);
    OutputRowsSame(rt, rt', h, order, t);
  }

  /** Whatever tasks emit, if it is a listing of their groups as the spilling operator
      promises one, then aggregation tasks list their groups. */
  lemma ListingsEmitGroups(rt: Runtime, emit: (seq<Expr>, seq<Expr>, bool, int, seq<Record>) -> seq<Record>)
    requires forall h: HashAgg, threshold, rows :: AreAggregates(Functions(h)) ==>
               ListsRotated(rt, h, emit(h.groupBy, h.aggregates, h.isPartial, threshold, rows), rows)
    ensures EmitsGroups(rt.(emit := emit))
  {
    hide Lists, AreAggregates;
    var rt' := rt.(emit := emit);
    forall h, threshold, rows | AreAggregates(Functions(h)) ensures ListsRotated(rt', h, Emitted(rt', h, threshold, rows), rows) {
      var out := emit(h.groupBy, h.aggregates, h.isPartial, threshold, rows);
      assert ListsRotated(rt, h, out, rows);
      var n: nat :| n <= |rows| && Lists(rt, h, out, TableOf(h, Rotated(rows, n)));
      ListsSame(rt, rt', h, out, TableOf(h, Rotated(rows, n)));
    }
  }

  /** A task that never spills, and so lists its groups as they first appear, is one that
      lists its groups. */
  lemma UnspilledEmitsGroups(rt: Runtime)
    ensures var rt' := rt.(emit := (g, a, isPartial, threshold, rows) => AggregateRows(rt, HashAgg(g, a, isPartial), rows));
            Unspilled(rt') && EmitsGroups(rt')
  {
    hide Lists, AreAggregates, OutputRows;
    var rt' := rt.(emit := (g, a, isPartial, threshold, rows) => AggregateRows(rt, HashAgg(g, a, isPartial), rows));
    forall h, threshold, rows ensures Lists(rt', h, Emitted(rt', h, threshold, rows), TableOf(h, rows)) {
      AggregateRowsLists(rt, h, rows);
      ListsSame(rt, rt', h, AggregateRows(rt, h, rows), TableOf(h, rows));
    }
    NoSpillRotates(rt');
  }

  lemma NoSpillRotates(rt: Runtime)
    requires Unspilled(rt)
    ensures EmitsGroups(rt)
  {
    hide Lists, AreAggregates;
    forall h, threshold, rows | AreAggregates(Functions(h)) ensures ListsRotated(rt, h, Emitted(rt, h, threshold, rows), rows) {
      RotatedTable(h, rows, 0);
      assert Lists(rt, h, Emitted(rt, h, threshold, rows), TableOf(h, Rotated(rows, 0)));
    }
  }

  lemma ListsPermute(rt: Runtime, h: HashAgg, out: seq<Record>, rows: seq<Record>)
    requires Lists(rt, h, out, TableOf(h, rows))
    ensures multiset(out) == multiset(AggregateRows(rt, h, rows))
  {
    var order: seq<Key> :| Enumerates(order, TableOf(h, rows).Keys) && out == OutputRows(rt, h, order, TableOf(h, rows));
    ListingsAgree(rt, h, TableOf(h, rows), order, KeysInOrder(h, rows));
  }

  // ---- groups by hash bucket -----------------------------------------------

  /** HashPartitioner(n).partition_for. */
  function BucketOf(rt: Runtime, n: nat, k: Key): (b: nat)
    requires n >= 1
    ensures b < n
  {
    rt.hash(k) % n
  }

  ghost function InBucket(rt: Runtime, n: nat, b: nat): Key -> bool
    requires n >= 1
  {
    k => BucketOf(rt, n, k) == b
  }

  ghost function InBucketsBelow(rt: Runtime, n: nat, b: nat): Key -> bool
    requires n >= 1
  {
    k => BucketOf(rt, n, k) < b
  }

  lemma EnumeratesJoin(a: seq<Key>, b: seq<Key>, ka: set<Key>, kb: set<Key>)
    requires Enumerates(a, ka) && Enumerates(b, kb) && ka !! kb
    ensures Enumerates(a + b, ka + kb)
  {
    forall i, j | 0 <= i < j < |a + b| ensures (a + b)[i] != (a + b)[j] {
      if i < |a| <= j {
        assert a[i] in a && b[j - |a|] in b;
      }
    }
  }

  lemma OutputRowsJoin(rt: Runtime, h: HashAgg, whole: Table, part: Table, a: seq<Key>, b: seq<Key>)
    requires Shaped(|h.aggregates|, whole) && Shaped(|h.aggregates|, part)
    requires forall i :: 0 <= i < |a| ==> a[i] in whole
    requires forall i :: 0 <= i < |b| ==> b[i] in part
    requires forall k :: k in part ==> k in whole && whole[k] == part[k]
    ensures forall i :: 0 <= i < |a + b| ==> (a + b)[i] in whole
    ensures OutputRows(rt, h, a + b, whole) == OutputRows(rt, h, a, whole) + OutputRows(rt, h, b, part)
  {
    hide OutputRow;
    forall i | 0 <= i < |a + b| ensures (a + b)[i] in whole && whole[(a + b)[i]] == if i < |a| then whole[a[i]] else part[b[i - |a|]] {
      assert (a + b)[i] == if i < |a| then a[i] else b[i - |a|];
    }
    var all, left, right := OutputRows(rt, h, a + b, whole), OutputRows(rt, h, a, whole), OutputRows(rt, h, b, part);
    forall i | 0 <= i < |all| ensures all[i] == (left + right)[i] {
      if i < |a| {
        assert (a + b)[i] == a[i];
      } else {
        assert (a + b)[i] == b[i - |a|];
      }
    }
  }

  /** out lists the groups of the buckets below b. */
  ghost predicate ListsBelow(rt: Runtime, h: HashAgg, n: nat, out: seq<Record>, order: seq<Key>, whole: Table, b: nat)
    requires n >= 1 && Shaped(|h.aggregates|, whole)
  {
    && Enumerates(order, Restrict(InBucketsBelow(rt, n, b), whole).Keys)
    && (forall i :: 0 <= i < |order| ==> order[i] in order && order[i] in whole)
    && out == OutputRows(rt, h, order, whole)
  }

  lemma ListsBucket(rt: Runtime, h: HashAgg, n: nat, out: seq<Record>, order: seq<Key>, whole: Table, b: nat, part: seq<Key>)
    requires n >= 1 && Shaped(|h.aggregates|, whole)
    requires ListsBelow(rt, h, n, out, order, whole, b)
    requires Enumerates(part, Restrict(InBucket(rt, n, b), whole).Keys)
    ensures forall i :: 0 <= i < |part| ==> part[i] in Restrict(InBucket(rt, n, b), whole)
    ensures ListsBelow(rt, h, n, out + OutputRows(rt, h, part, Restrict(InBucket(rt, n, b), whole)), order + part, whole, b + 1)
  {
    var below, here := Restrict(InBucketsBelow(rt, n, b), whole), Restrict(InBucket(rt, n, b), whole);
    assert forall i :: 0 <= i < |part| ==> part[i] in part;
    EnumeratesJoin(order, part, below.Keys, here.Keys);
    assert below.Keys + here.Keys == Restrict(InBucketsBelow(rt, n, b + 1), whole).Keys;
    OutputRowsJoin(rt, h, whole, here, order, part);
    assert forall i :: 0 <= i < |order + part| ==> (order + part)[i] in order + part;
  }
}
