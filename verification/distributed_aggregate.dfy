/**
 Grouping split over partitions: partial tables per source partition, a hash
 exchange of their rows, final tables per target
 (minispark/physical/planner.py, `_plan_aggregate`).
 */
module DistributedAggregate {
  import opened Values
  import opened Expressions
  import opened Sequences
  import opened AggregateFunctions
  import opened GroupTables
  import opened Shuffle

  // ---- reading a partial row back ------------------------------------------

  lemma {:induction false} DecimalInjective(a: nat, b: nat)
    requires Decimal(a) == Decimal(b)
    ensures a == b
  {
    var x, y := Decimal(a), Decimal(b);
    assert x[|x| - 1] == "0123456789"[a % 10] && y[|y| - 1] == "0123456789"[b % 10];
    assert a % 10 == b % 10;
    if a >= 10 && b >= 10 {
      assert x[..|x| - 1] == Decimal(a / 10) && y[..|y| - 1] == Decimal(b / 10);
      DecimalInjective(a / 10, b / 10);
    } else {
      DecimalNonempty(a / 10);
      DecimalNonempty(b / 10);
    }
  }

  lemma DecimalNonempty(a: nat)
    ensures |Decimal(a)| > 0
  {
  }

  lemma StateNamesDiffer(i: nat, j: nat)
    requires i != j
    ensures StateName(i) != StateName(j)
  {
    if StateName(i) == StateName(j) {
      var prefix := "__agg_state_";
      assert StateName(i)[|prefix|..] == Decimal(i) && StateName(j)[|prefix|..] == Decimal(j);
      DecimalInjective(i, j);
    }
  }

  lemma StateNamesDistinct(n: nat)
    ensures NoDuplicates(StateNames(n))
  {
    hide StateName;
    forall i, j | 0 <= i < j < n ensures StateName(i) != StateName(j) { StateNamesDiffer(i, j); }
  }

  lemma PartialColumnsDistinct(rt: Runtime, groupBy: seq<Expr>, aggregates: seq<Expr>)
    requires Groupable(groupBy, aggregates)
    ensures NoDuplicates(OutputColumns(rt, Partial(groupBy, aggregates)))
  {
    hide StateName;
    StateNamesDistinct(|aggregates|);
    var h := Partial(groupBy, aggregates);
    var ns := OutputColumns(rt, h);
    forall i, j | 0 <= i < j < |ns| ensures ns[i] != ns[j] {
      if j < |groupBy| {
        assert ns[i] == groupBy[i].name && ns[j] == groupBy[j].name;
        assert groupBy[i] != groupBy[j];
      } else if i < |groupBy| {
        assert ns[i] == groupBy[i].name && ns[j] == StateName(j - |groupBy|);
        assert groupBy[i] != Column(StateName(j - |groupBy|));
      } else {
        assert ns[i] == StateNames(|aggregates|)[i - |groupBy|] && ns[j] == StateNames(|aggregates|)[j - |groupBy|];
      }
    }
  }

  lemma ReadBackKey(rt: Runtime, groupBy: seq<Expr>, aggregates: seq<Expr>, k: Key, s: State, i: nat)
    requires Groupable(groupBy, aggregates) && |k| == |groupBy| && |s| == |aggregates| && i < |k|
    ensures Eval(groupBy[i], OutputRow(rt, Partial(groupBy, aggregates), k, s)) == k[i]
  {
    var ns := OutputColumns(rt, Partial(groupBy, aggregates));
    PartialColumnsDistinct(rt, groupBy, aggregates);
    RowFromAt(ns, k + s, i);
    assert ns[i] == groupBy[i].name;
  }

  lemma ReadBackState(rt: Runtime, groupBy: seq<Expr>, aggregates: seq<Expr>, k: Key, s: State, i: nat)
    requires Groupable(groupBy, aggregates) && |k| == |groupBy| && |s| == |aggregates| && i < |s|
    ensures Eval(Column(StateName(i)), OutputRow(rt, Partial(groupBy, aggregates), k, s)) == s[i]
  {
    var ns := OutputColumns(rt, Partial(groupBy, aggregates));
    PartialColumnsDistinct(rt, groupBy, aggregates);
    RowFromAt(ns, k + s, |k| + i);
    assert ns[|k| + i] == StateName(i);
  }

  /** The final pass reads from a partial row exactly the key and the states that the
      partial pass put there. */
  lemma ReadBack(rt: Runtime, groupBy: seq<Expr>, aggregates: seq<Expr>, k: Key, s: State)
    requires Groupable(groupBy, aggregates) && |k| == |groupBy| && |s| == |aggregates|
    ensures var row := OutputRow(rt, Partial(groupBy, aggregates), k, s);
            && KeyOf(Final(groupBy, aggregates), row) == k
            && Contribution(Final(groupBy, aggregates), row) == s
  {
    var row := OutputRow(rt, Partial(groupBy, aggregates), k, s);
    forall i | 0 <= i < |k| ensures EvalAll(groupBy, row)[i] == k[i] {
      ReadBackKey(rt, groupBy, aggregates, k, s, i);
    }
    forall i | 0 <= i < |s| ensures Contribution(Final(groupBy, aggregates), row)[i] == s[i] {
      ReadBackState(rt, groupBy, aggregates, k, s, i);
    }
  }

  /** A name's last occurrence decides its column. */
  lemma {:induction false} RowFromLast(names: seq<string>, values: seq<Value>, i: nat)
    requires |names| == |values| && i < |names| && forall j :: i < j < |names| ==> names[j] != names[i]
    ensures RowFrom(names, values)[names[i]] == values[i]
  {
    var n := |names| - 1;
    if i < n { RowFromLast(names[..n], values[..n], i); }
  }

  predicate NoStateClash(groupBy: seq<Expr>, aggregates: seq<Expr>) {
    forall i, m :: 0 <= i < |groupBy| && 0 <= m < |aggregates| ==> groupBy[i] != Column(StateName(m))
  }

  /** Does the final pass read back every key the partial pass may have put in a row? */
  ghost predicate KeysSurvive(rt: Runtime, groupBy: seq<Expr>, aggregates: seq<Expr>) {
    forall k: Key, s: State :: |k| == |groupBy| && |s| == |aggregates| ==>
      KeyOf(Final(groupBy, aggregates), OutputRow(rt, Partial(groupBy, aggregates), k, s)) == k
  }

  lemma StateColumnAt(rt: Runtime, groupBy: seq<Expr>, aggregates: seq<Expr>, m: nat)
    requires m < |aggregates|
    ensures OutputColumns(rt, Partial(groupBy, aggregates))[|groupBy| + m] == StateName(m)
  {
    hide StateName, OutputNames;
  }

  /** Of two columns of one name the later one, the state, stays. */
  lemma StateStays(rt: Runtime, groupBy: seq<Expr>, aggregates: seq<Expr>, k: Key, s: State, m: nat)
    requires |k| == |groupBy| && |s| == |aggregates| && m < |s|
    ensures Eval(Column(StateName(m)), OutputRow(rt, Partial(groupBy, aggregates), k, s)) == s[m]
  {
    hide StateName, RowFrom, OutputColumns;
    var ns := OutputColumns(rt, Partial(groupBy, aggregates));
    StateColumnAt(rt, groupBy, aggregates, m);
    forall j | |k| + m < j < |ns| ensures ns[j] != ns[|k| + m] {
      StateColumnAt(rt, groupBy, aggregates, j - |k|);
      StateNamesDiffer(m, j - |k|);
    }
    RowFromLast(ns, k + s, |k| + m);
    assert (k + s)[|k| + m] == s[m];
  }

  lemma ClashLosesKey(rt: Runtime, groupBy: seq<Expr>, aggregates: seq<Expr>, i: nat, m: nat)
    requires i < |groupBy| && m < |aggregates| && groupBy[i] == Column(StateName(m))
    ensures !KeysSurvive(rt, groupBy, aggregates)
  {
    hide StateName, OutputRow, Eval;
    var k: Key := seq(|groupBy|, _ => Str("key"));
    var s: State := seq(|aggregates|, _ => Num(2.0));
    StateStays(rt, groupBy, aggregates, k, s, m);
    var row := OutputRow(rt, Partial(groupBy, aggregates), k, s);
    assert KeyOf(Final(groupBy, aggregates), row)[i] == Eval(groupBy[i], row) == s[m] != k[i];
  }

  /** Group keys survive the exchange exactly when no group column has the name of an
      internal state column. */
  lemma KeysSurviveIff(rt: Runtime, groupBy: seq<Expr>, aggregates: seq<Expr>)
    requires forall i :: 0 <= i < |groupBy| ==> groupBy[i].Column?
    requires forall i, j :: 0 <= i < j < |groupBy| ==> groupBy[i] != groupBy[j]
    requires forall i :: 0 <= i < |aggregates| ==> IsAggregateFunction(UnwrapAlias(aggregates[i]))
    ensures KeysSurvive(rt, groupBy, aggregates) <==> NoStateClash(groupBy, aggregates)
  {
    if NoStateClash(groupBy, aggregates) {
      forall k: Key, s: State | |k| == |groupBy| && |s| == |aggregates|
        ensures KeyOf(Final(groupBy, aggregates), OutputRow(rt, Partial(groupBy, aggregates), k, s)) == k
      {
        ReadBack(rt, groupBy, aggregates, k, s);
      }
    } else {
      var i, m :| 0 <= i < |groupBy| && 0 <= m < |aggregates| && groupBy[i] == Column(StateName(m));
      ClashLosesKey(rt, groupBy, aggregates, i, m);
    }
  }

  // ---- the final table of partial rows -------------------------------------

  ghost predicate KeysSized(n: nat, t: Table) {
    forall k :: k in t ==> |k| == n
  }

  lemma {:induction false} TableKeysSized(h: HashAgg, rows: seq<Record>)
    ensures KeysSized(|h.groupBy|, TableOf(h, rows))
  {
    if rows != [] { TableKeysSized(h, rows[..|rows| - 1]); }
  }

  lemma LastRow(rt: Runtime, h: HashAgg, t: Table, order: seq<Key>)
    requires Shaped(|h.aggregates|, t) && Enumerates(order, t.Keys) && order != []
    ensures var n, k := |order| - 1, order[|order| - 1];
            && k in t && Enumerates(order[..n], (t - {k}).Keys)
            && OutputRows(rt, h, order, t) == OutputRows(rt, h, order[..n], t - {k}) + [OutputRow(rt, h, k, t[k])]
  {
    hide OutputRow;
    var n := |order| - 1;
    assert order[n] in order;
    assert order[..n] + order[n + 1..] == order[..n];
    EnumeratesDrop(order, t.Keys, n);
    assert (t - {order[n]}).Keys == t.Keys - {order[n]};
    OutputRowsWithout(rt, h, t, order, n);
    var rows := OutputRows(rt, h, order, t);
    assert rows[..n] + rows[n + 1..] == rows[..n];
  }

  lemma PutBack(fs: seq<Expr>, t: Table, k: Key)
    requires Shaped(|fs|, t) && k in t
    ensures MergeTables(fs, t - {k}, map[k := t[k]]) == t
  {
  }

  /** Reading back a listing of a table gives the table. */
  lemma {:induction false} FinalOfListing(rt: Runtime, groupBy: seq<Expr>, aggregates: seq<Expr>, t: Table, order: seq<Key>)
    requires Groupable(groupBy, aggregates) && Shaped(|aggregates|, t) && KeysSized(|groupBy|, t)
    requires Enumerates(order, t.Keys)
    ensures TableOf(Final(groupBy, aggregates), OutputRows(rt, Partial(groupBy, aggregates), order, t)) == t
    decreases |order|
  {
    hide OutputRow, Contribution;
    var h, f := Partial(groupBy, aggregates), Final(groupBy, aggregates);
    if order == [] {
      assert forall k :: k in t ==> k in order;
      assert t == map[];
    } else {
      var k := order[|order| - 1];
      LastRow(rt, h, t, order);
      FinalOfListing(rt, groupBy, aggregates, t - {k}, order[..|order| - 1]);
      ReadBack(rt, groupBy, aggregates, k, t[k]);
      TableSnoc(f, OutputRows(rt, h, order[..|order| - 1], t - {k}), OutputRow(rt, h, k, t[k]));
      PutBack(Functions(f), t, k);
    }
  }

  /** Partial tables of the source partitions, each listed in some order. */
  ghost predicate PartialOutputs(rt: Runtime, groupBy: seq<Expr>, aggregates: seq<Expr>, parts: seq<seq<Record>>,
                                 outs: seq<seq<Record>>)
  {
    && |outs| == |parts|
    && forall i :: 0 <= i < |parts| ==>
         Lists(rt, Partial(groupBy, aggregates), outs[i], TableOf(Partial(groupBy, aggregates), parts[i]))
  }

  /** Read in task order, the states shuffled from all partitions merge to the table of all the rows. */
  lemma {:induction false} MergeOfPartials(rt: Runtime, groupBy: seq<Expr>, aggregates: seq<Expr>,
                                           parts: seq<seq<Record>>, outs: seq<seq<Record>>)
    requires Groupable(groupBy, aggregates) && PartialOutputs(rt, groupBy, aggregates, parts, outs)
    ensures TableOf(Final(groupBy, aggregates), Flatten(outs)) == TableOf(Partial(groupBy, aggregates), Flatten(parts))
  {
    var h, f := Partial(groupBy, aggregates), Final(groupBy, aggregates);
    if parts != [] {
      var rest := Flatten(parts[1..]);
      assert PartialOutputs(rt, groupBy, aggregates, parts[1..], outs[1..]);
      MergeOfPartials(rt, groupBy, aggregates, parts[1..], outs[1..]);
      assert Functions(h) == Functions(f);
      TableKeysSized(h, parts[0]);
      var order: seq<Key> :| Enumerates(order, TableOf(h, parts[0]).Keys)
                             && outs[0] == OutputRows(rt, h, order, TableOf(h, parts[0]));
      FinalOfListing(rt, groupBy, aggregates, TableOf(h, parts[0]), order);
      TableAppend(f, outs[0], Flatten(outs[1..]));
      TableAppend(h, parts[0], rest);
    }
  }

  lemma ListedRow(rt: Runtime, h: HashAgg, out: seq<Record>, t: Table, x: Record) returns (k: Key)
    requires Shaped(|h.aggregates|, t) && Lists(rt, h, out, t) && x in out
    ensures k in t && x == OutputRow(rt, h, k, t[k])
  {
    hide OutputRow;
    var order: seq<Key> :| Enumerates(order, t.Keys) && out == OutputRows(rt, h, order, t);
    var j: nat :| j < |out| && out[j] == x;
    k := order[j];
    assert k in order;
    OutputRowAt(rt, h, order, t, j);
  }

  /** A partial row: whose group it is, and of which partition. */
  lemma PartialRow(rt: Runtime, groupBy: seq<Expr>, aggregates: seq<Expr>, parts: seq<seq<Record>>,
                   outs: seq<seq<Record>>, x: Record) returns (i: nat, k: Key)
    requires Groupable(groupBy, aggregates) && PartialOutputs(rt, groupBy, aggregates, parts, outs) && x in Flatten(outs)
    ensures i < |parts| && k in TableOf(Partial(groupBy, aggregates), parts[i])
    ensures KeyOf(Final(groupBy, aggregates), x) == k
    ensures Contribution(Final(groupBy, aggregates), x) == TableOf(Partial(groupBy, aggregates), parts[i])[k]
  {
    hide OutputRow, Contribution, KeyOf, TableOf, Lists, Groupable, Flatten;
    var h := Partial(groupBy, aggregates);
    InFlatten(outs, x);
    i :| 0 <= i < |outs| && x in outs[i];
    var t := TableOf(h, parts[i]);
    k := ListedRow(rt, h, outs[i], t, x);
    TableKeysSized(h, parts[i]);
    ReadBack(rt, groupBy, aggregates, k, t[k]);
  }

  /** The states that two lists of rows give one group may be merged in either order. */
  lemma StatesCommute(h: HashAgg, a: seq<Record>, b: seq<Record>, k: Key)
    requires Commuting(h, a + b) && k in TableOf(h, a) && k in TableOf(h, b)
    ensures MergeAll(Functions(h), TableOf(h, a)[k], TableOf(h, b)[k]) == MergeAll(Functions(h), TableOf(h, b)[k], TableOf(h, a)[k])
  {
    hide Commuting, MergeAll, TableOf;
    TableAppend(h, a, b);
    TableAppend(h, b, a);
    assert multiset(a + b) == multiset(b + a);
    TablePermutes(h, a + b, b + a);
    assert TableOf(h, a + b)[k] == TableOf(h, b + a)[k];
  }

  /** Partial rows of rows that commute commute too. */
  lemma PartialsCommute(rt: Runtime, groupBy: seq<Expr>, aggregates: seq<Expr>, parts: seq<seq<Record>>, outs: seq<seq<Record>>)
    requires Groupable(groupBy, aggregates) && PartialOutputs(rt, groupBy, aggregates, parts, outs)
    requires Commuting(Partial(groupBy, aggregates), Flatten(parts))
    ensures Commuting(Final(groupBy, aggregates), Flatten(outs))
  {
    hide Contribution, KeyOf, MergeAll, PartialOutputs, Groupable;
    var h, f := Partial(groupBy, aggregates), Final(groupBy, aggregates);
    forall x, y | x in Flatten(outs) && y in Flatten(outs) ensures Commute(f, x, y) {
      var i, k := PartialRow(rt, groupBy, aggregates, parts, outs, x);
      var j, l := PartialRow(rt, groupBy, aggregates, parts, outs, y);
      if k == l {
        PairCommuting(h, parts, i, j);
        StatesCommute(h, parts[i], parts[j], k);
        assert Functions(h) == Functions(f);
      }
    }
  }

  lemma PairCommuting(h: HashAgg, parts: seq<seq<Record>>, i: nat, j: nat)
    requires Commuting(h, Flatten(parts)) && i < |parts| && j < |parts|
    ensures Commuting(h, parts[i] + parts[j])
  {
    hide Commute;
    forall x | x in parts[i] + parts[j] ensures x in Flatten(parts) { InFlatten(parts, x); }
  }

  // ---- the exchange and the final pass -------------------------------------

  /** The exchange between the two passes: hashed on the group columns. */
  function GroupExchange(groupBy: seq<Expr>, num: nat): Partitioning {
    Partitioning(groupBy, num, Hashed)
  }

  lemma {:induction false} BucketIsRowsWhere(rt: Runtime, h: HashAgg, num: nat, t: nat, rows: seq<Record>)
    requires num >= 1
    ensures BucketRows(rt, GroupExchange(h.groupBy, num), t, rows) == RowsWhere(h, InBucket(rt, num, t), rows)
  {
    if rows != [] { BucketIsRowsWhere(rt, h, num, t, rows[..|rows| - 1]); }
  }

  /** The final pass's output for every target. */
  function FinalParts(rt: Runtime, h: HashAgg, num: nat, rows: seq<Record>): (ps: seq<seq<Record>>)
    requires num >= 1
    ensures |ps| == num
    ensures forall t :: 0 <= t < num ==> ps[t] == AggregateRows(rt, h, BucketRows(rt, GroupExchange(h.groupBy, num), t, rows))
  {
    seq(num, t requires 0 <= t < num => AggregateRows(rt, h, BucketRows(rt, GroupExchange(h.groupBy, num), t, rows)))
  }

  lemma FinalPartLists(rt: Runtime, h: HashAgg, num: nat, rows: seq<Record>, m: nat) returns (part: seq<Key>)
    requires num >= 1 && m < num
    ensures Enumerates(part, Restrict(InBucket(rt, num, m), TableOf(h, rows)).Keys)
    ensures forall i :: 0 <= i < |part| ==> part[i] in Restrict(InBucket(rt, num, m), TableOf(h, rows))
    ensures FinalParts(rt, h, num, rows)[m] == OutputRows(rt, h, part, Restrict(InBucket(rt, num, m), TableOf(h, rows)))
  {
    BucketIsRowsWhere(rt, h, num, m, rows);
    TableWhere(h, InBucket(rt, num, m), rows);
    part := KeysInOrder(h, BucketRows(rt, GroupExchange(h.groupBy, num), m, rows));
    assert forall i :: 0 <= i < |part| ==> part[i] in part;
  }

  lemma {:induction false} FinalPartsList(rt: Runtime, h: HashAgg, num: nat, rows: seq<Record>, m: nat) returns (order: seq<Key>)
    requires num >= 1 && m <= num
    ensures ListsBelow(rt, h, num, Flatten(FinalParts(rt, h, num, rows)[..m]), order, TableOf(h, rows), m)
  {
    hide TableOf, BucketRows, AggregateRows, InBucket;
    var ps := FinalParts(rt, h, num, rows);
    if m == 0 {
      order := [];
    } else {
      var below := FinalPartsList(rt, h, num, rows, m - 1);
      var part := FinalPartLists(rt, h, num, rows, m - 1);
      ListsBucket(rt, h, num, Flatten(ps[..m - 1]), below, TableOf(h, rows), m - 1, part);
      assert ps[..m] == ps[..m - 1] + [ps[m - 1]];
      FlattenSnoc(ps[..m - 1], ps[m - 1]);
      order := below + part;
    }
  }

  /** Partial aggregation, hash exchange and final aggregation, for any source
      partitioning, hash function and target count, list the groups of the whole
      input: every group exactly once over all targets, each with the state of all
      its rows. */
  lemma AggregationIsGroupBy(rt: Runtime, groupBy: seq<Expr>, aggregates: seq<Expr>, num: nat,
                             parts: seq<seq<Record>>, outs: seq<seq<Record>>)
    requires num >= 1 && Groupable(groupBy, aggregates)
    requires PartialOutputs(rt, groupBy, aggregates, parts, outs)
    ensures Lists(rt, Final(groupBy, aggregates), Flatten(FinalParts(rt, Final(groupBy, aggregates), num, Flatten(outs))),
                  TableOf(Partial(groupBy, aggregates), Flatten(parts)))
  {
    hide TableOf, BucketRows, AggregateRows, PartialOutputs, Groupable, Flatten, OutputRows;
    var f := Final(groupBy, aggregates);
    var rows := Flatten(outs);
    MergeOfPartials(rt, groupBy, aggregates, parts, outs);
    var order := FinalPartsList(rt, f, num, rows, num);
    var ps := FinalParts(rt, f, num, rows);
    assert ps[..num] == ps;
    assert Restrict(InBucketsBelow(rt, num, num), TableOf(f, rows)) == TableOf(f, rows);
  }
}
