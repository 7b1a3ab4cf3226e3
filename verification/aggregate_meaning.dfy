/**
 What a grouped query says of the rows of a group: their number, their total, their average,
 their least and greatest value (minispark/expressions/aggregate.py).
 */
module AggregateMeaning {
  import opened Values
  import opened Expressions
  import opened AggregateFunctions
  import opened GroupTables

  /** The values of e on the rows, in order, nulls left out. */
  function NonNull(e: Expr, rows: seq<Record>): seq<Value> {
    if rows == [] then []
    else
      var v := Eval(e, rows[|rows| - 1]);
      NonNull(e, rows[..|rows| - 1]) + if v.Null? then [] else [v]
  }

  predicate AllNumbers(vs: seq<Value>) {
    forall i :: 0 <= i < |vs| ==> vs[i].Num?
  }

  predicate AllStrings(vs: seq<Value>) {
    forall i :: 0 <= i < |vs| ==> vs[i].Str?
  }

  function Total(vs: seq<Value>): real
    requires AllNumbers(vs)
  {
    if vs == [] then 0.0 else Total(vs[..|vs| - 1]) + vs[|vs| - 1].n
  }

  function Concatenation(vs: seq<Value>): string
    requires AllStrings(vs)
  {
    if vs == [] then "" else Concatenation(vs[..|vs| - 1]) + vs[|vs| - 1].s
  }

  /** One of the values, and none lies beyond it. */
  ghost predicate Extreme(vs: seq<Value>, v: Value, greatest: bool) {
    v in vs && forall w :: w in vs ==> if greatest then !ValueLt(v, w) else !ValueLt(w, v)
  }

  /** v is what the aggregate says of the rows.  Of sums and averages this says what they are
      over numbers, and of sums over strings; over anything else they raise. */
  ghost predicate Means(f: Expr, rows: seq<Record>, v: Value) {
    match f
    case CountStar => v == Num(|rows| as real)
    case Aggregate(kind, child) =>
      var vs := NonNull(child, rows);
      (match kind
       case Count => v == Num(|vs| as real)
       case Sum =>
         && (vs == [] ==> v == Null)
         && (vs != [] && AllNumbers(vs) ==> v == Num(Total(vs)))
         && (vs != [] && AllStrings(vs) ==> v == Str(Concatenation(vs)))
       case Avg =>
         && (vs == [] ==> v == Null)
         && (vs != [] && AllNumbers(vs) ==> v.Num? && v.n * (|vs| as real) == Total(vs))
       case Min => if vs == [] then v == Null else Extreme(vs, v, false)
       case Max => if vs == [] then v == Null else Extreme(vs, v, true))
    case _ => false
  }

  // ---- one more row --------------------------------------------------------

  lemma NonNullSnoc(e: Expr, rows: seq<Record>, r: Record)
    ensures NonNull(e, rows + [r]) == NonNull(e, rows) + if Eval(e, r).Null? then [] else [Eval(e, r)]
  {
    assert (rows + [r])[..|rows|] == rows;
  }

  lemma TotalSnoc(vs: seq<Value>, v: Value)
    requires AllNumbers(vs) && v.Num?
    ensures AllNumbers(vs + [v]) && Total(vs + [v]) == Total(vs) + v.n
  {
    assert (vs + [v])[..|vs|] == vs;
  }

  lemma ConcatenationSnoc(vs: seq<Value>, v: Value)
    requires AllStrings(vs) && v.Str?
    ensures AllStrings(vs + [v]) && Concatenation(vs + [v]) == Concatenation(vs) + v.s
  {
    assert (vs + [v])[..|vs|] == vs;
  }

  lemma ExtremeSnoc(vs: seq<Value>, m: Value, v: Value, greatest: bool)
    requires vs == [] || Extreme(vs, m, greatest)
    ensures var best := if vs == [] || (if greatest then ValueLt(m, v) else ValueLt(v, m)) then v else m;
            Extreme(vs + [v], best, greatest)
  {
    var best := if vs == [] || (if greatest then ValueLt(m, v) else ValueLt(v, m)) then v else m;
    assert v == (vs + [v])[|vs|];
    if vs != [] { assert forall w :: w in vs ==> w in vs + [v]; }
    forall w | w in vs + [v] ensures if greatest then !ValueLt(best, w) else !ValueLt(w, best) {
      ValueLtTotal(v, v);
      if w in vs {
        ValueLtTotal(m, v);
        if greatest && ValueLt(m, v) && ValueLt(v, w) { ValueLtTransitive(m, v, w); }
        if !greatest && ValueLt(v, m) && ValueLt(w, v) { ValueLtTransitive(w, v, m); }
      } else {
        assert w == v;
      }
    }
  }

  /** The state of one aggregate after the rows of a group. */
  ghost predicate StateMeans(f: Expr, rows: seq<Record>, s: Value) {
    match f
    case CountStar => s == Num(|rows| as real)
    case Aggregate(kind, child) =>
      var vs := NonNull(child, rows);
      (match kind
       case Avg => AllNumbers(vs) ==> s == SumCount(Total(vs), |vs|)
       case Count => s == Num(|vs| as real)
       case Sum =>
         && (vs == [] ==> s == Null)
         && (vs != [] && AllNumbers(vs) ==> s == Num(Total(vs)))
         && (vs != [] && AllStrings(vs) ==> s == Str(Concatenation(vs)))
       case Min => if vs == [] then s == Null else Extreme(vs, s, false)
       case Max => if vs == [] then s == Null else Extreme(vs, s, true))
    case _ => false
  }

  lemma NoNulls(e: Expr, rows: seq<Record>, v: Value)
    requires v in NonNull(e, rows)
    ensures !v.Null?
    decreases |rows|
  {
    if v in NonNull(e, rows[..|rows| - 1]) { NoNulls(e, rows[..|rows| - 1], v); }
  }

  lemma SumStep(child: Expr, rows: seq<Record>, r: Record, s: Value)
    requires StateMeans(Aggregate(Sum, child), rows, s) && !Eval(child, r).Null?
    ensures StateMeans(Aggregate(Sum, child), rows + [r], Update(Aggregate(Sum, child), s, r))
  {
    hide Eval, NonNull, Total, Concatenation;
    var vs, v := NonNull(child, rows), Eval(child, r);
    NonNullSnoc(child, rows, r);
    AllSnoc(vs, v);
    if vs == [] {
      if v.Num? { TotalOne(v); }
      if v.Str? { ConcatenationOne(v); }
    } else {
      if AllNumbers(vs) && v.Num? { TotalSnoc(vs, v); }
      if AllStrings(vs) && v.Str? { ConcatenationSnoc(vs, v); }
    }
  }

  lemma AverageStep(child: Expr, rows: seq<Record>, r: Record, s: Value)
    requires StateMeans(Aggregate(Avg, child), rows, s) && !Eval(child, r).Null?
    ensures StateMeans(Aggregate(Avg, child), rows + [r], Update(Aggregate(Avg, child), s, r))
  {
    hide Eval, NonNull, Total;
    var vs, v := NonNull(child, rows), Eval(child, r);
    NonNullSnoc(child, rows, r);
    AllSnoc(vs, v);
    if AllNumbers(vs) && v.Num? { TotalSnoc(vs, v); }
  }

  lemma ExtremeStep(child: Expr, rows: seq<Record>, r: Record, s: Value, greatest: bool)
    requires StateMeans(Aggregate(if greatest then Max else Min, child), rows, s) && !Eval(child, r).Null?
    ensures var f := Aggregate(if greatest then Max else Min, child);
            StateMeans(f, rows + [r], Update(f, s, r))
  {
    hide Eval, NonNull, ValueLt, Extreme;
    var vs, v := NonNull(child, rows), Eval(child, r);
    NonNullSnoc(child, rows, r);
    ExtremeSnoc(vs, s, v, greatest);
    ExtremeIsValue(child, rows, s, greatest);
  }

  lemma CountStep(f: Expr, rows: seq<Record>, r: Record, s: Value)
    requires f.CountStar? || (f.Aggregate? && (f.kind == Count || Eval(f.child, r).Null?))
    requires StateMeans(f, rows, s)
    ensures StateMeans(f, rows + [r], Update(f, s, r))
  {
    hide Eval, NonNull, Total, Concatenation, Extreme;
    if f.Aggregate? {
      NonNullSnoc(f.child, rows, r);
      assert NonNull(f.child, rows) + [] == NonNull(f.child, rows);
    }
  }

  /** Folding in one more row keeps the state's meaning. */
  lemma StateStep(f: Expr, rows: seq<Record>, r: Record, s: Value)
    requires IsAggregateFunction(f) && StateMeans(f, rows, s)
    ensures StateMeans(f, rows + [r], Update(f, s, r))
  {
    hide Eval, StateMeans, Update;
    if f.CountStar? || f.kind == Count || Eval(f.child, r).Null? {
      CountStep(f, rows, r, s);
    } else {
      match f.kind
      case Sum => SumStep(f.child, rows, r, s);
      case Avg => AverageStep(f.child, rows, r, s);
      case Min => ExtremeStep(f.child, rows, r, s, false);
      case Max => ExtremeStep(f.child, rows, r, s, true);
    }
  }

  lemma AllSnoc(vs: seq<Value>, v: Value)
    ensures AllNumbers(vs + [v]) <==> AllNumbers(vs) && v.Num?
    ensures AllStrings(vs + [v]) <==> AllStrings(vs) && v.Str?
    ensures vs == [] ==> vs + [v] == [v]
  {
    assert forall i :: 0 <= i < |vs| ==> (vs + [v])[i] == vs[i];
    assert (vs + [v])[|vs|] == v;
  }

  lemma TotalOne(v: Value)
    requires v.Num?
    ensures Total([v]) == v.n
  {
    assert [v][..0] == [];
  }

  lemma ConcatenationOne(v: Value)
    requires v.Str?
    ensures Concatenation([v]) == v.s
  {
    assert [v][..0] == [];
  }

  lemma ExtremeIsValue(e: Expr, rows: seq<Record>, s: Value, greatest: bool)
    ensures Extreme(NonNull(e, rows), s, greatest) ==> !s.Null?
  {
    if Extreme(NonNull(e, rows), s, greatest) { NoNulls(e, rows, s); }
  }

  lemma {:induction false} FoldMeans(fs: seq<Expr>, rows: seq<Record>, i: nat)
    requires i < |fs| && IsAggregateFunction(fs[i])
    ensures StateMeans(fs[i], rows, FoldUpdates(fs, rows)[i])
  {
    hide StateMeans, Update;
    if rows == [] {
      NothingYet(fs[i]);
    } else {
      var front, r := rows[..|rows| - 1], rows[|rows| - 1];
      assert rows == front + [r];
      FoldMeans(fs, front, i);
      StateStep(fs[i], front, r, FoldUpdates(fs, front)[i]);
    }
  }

  lemma NothingYet(f: Expr)
    requires IsAggregateFunction(f)
    ensures StateMeans(f, [], Initialize(f))
  {
  }

  lemma FinalMeans(f: Expr, rows: seq<Record>, s: Value)
    requires StateMeans(f, rows, s)
    ensures Means(f, rows, Finalize(f, s))
  {
    hide NonNull, Total, Concatenation, Extreme;
    if f.Aggregate? && f.kind == Avg && AllNumbers(NonNull(f.child, rows)) {
      var vs := NonNull(f.child, rows);
      if vs != [] { Quotient(Total(vs), |vs|); } else { NoTotal(); }
    }
  }

  lemma Quotient(total: real, n: nat)
    requires n > 0
    ensures (total / (n as real)) * (n as real) == total
  {
  }

  lemma NoTotal()
    ensures Total([]) == 0.0
  {
  }

  /** What any aggregate says, finalized, of any rows. */
  lemma AggregateMeans(f: Expr, rows: seq<Record>)
    requires IsAggregateFunction(f)
    ensures Means(f, rows, FinalizeAll([f], FoldUpdates([f], rows))[0])
  {
    FoldMeans([f], rows, 0);
    FinalMeans(f, rows, FoldUpdates([f], rows)[0]);
  }

  // ---- grouped rows --------------------------------------------------------

  /** A group's rows are the rows with its key, each as often as it occurs. */
  lemma {:induction false} GroupIsItsRows(groupBy: seq<Expr>, k: Key, rows: seq<Record>, r: Record)
    ensures multiset(RowsOfKey(groupBy, k, rows))[r] == if EvalAll(groupBy, r) == k then multiset(rows)[r] else 0
  {
    if rows != [] {
      var front, x := rows[..|rows| - 1], rows[|rows| - 1];
      assert rows == front + [x];
      GroupIsItsRows(groupBy, k, front, r);
    }
  }

  /** The j-th row of a grouped query: a key of its own that occurs in the input, and under
      each aggregate's name what that aggregate says of the input rows with that key. */
  ghost predicate GroupRowMeans(rt: Runtime, groupBy: seq<Expr>, aggregates: seq<Expr>, rows: seq<Record>, k: Key, out: Record) {
    && |k| == |groupBy| && RowsOfKey(groupBy, k, rows) != []
    && (forall i :: 0 <= i < |groupBy| ==> OutputName(rt, groupBy[i]) in out && out[OutputName(rt, groupBy[i])] == k[i])
    && forall i :: 0 <= i < |aggregates| ==>
         && OutputName(rt, aggregates[i]) in out
         && Means(UnwrapAlias(aggregates[i]), RowsOfKey(groupBy, k, rows), out[OutputName(rt, aggregates[i])])
  }

  lemma OutputAt(rt: Runtime, groupBy: seq<Expr>, aggregates: seq<Expr>, k: Key, s: State)
    requires |k| == |groupBy| && |s| == |aggregates| && NoDuplicates(OutputNames(rt, groupBy) + OutputNames(rt, aggregates))
    ensures var f := Final(groupBy, aggregates);
            var out := OutputRow(rt, f, k, s);
            && (forall i :: 0 <= i < |groupBy| ==> OutputName(rt, groupBy[i]) in out && out[OutputName(rt, groupBy[i])] == k[i])
            && forall i :: 0 <= i < |aggregates| ==>
                 OutputName(rt, aggregates[i]) in out && out[OutputName(rt, aggregates[i])] == FinalizeAll(Functions(f), s)[i]
  {
    hide RowFrom, Finalize, NoDuplicates;
    var f := Final(groupBy, aggregates);
    var names, vs := OutputColumns(rt, f), k + FinalizeAll(Functions(f), s);
    forall i | 0 <= i < |groupBy|
      ensures OutputName(rt, groupBy[i]) in OutputRow(rt, f, k, s) && OutputRow(rt, f, k, s)[OutputName(rt, groupBy[i])] == k[i]
    {
      assert names[i] == OutputName(rt, groupBy[i]) && vs[i] == k[i];
      RowFromAt(names, vs, i);
    }
    forall i | 0 <= i < |aggregates|
      ensures OutputName(rt, aggregates[i]) in OutputRow(rt, f, k, s)
      ensures OutputRow(rt, f, k, s)[OutputName(rt, aggregates[i])] == FinalizeAll(Functions(f), s)[i]
    {
      assert names[|k| + i] == OutputName(rt, aggregates[i]) && vs[|k| + i] == FinalizeAll(Functions(f), s)[i];
      RowFromAt(names, vs, |k| + i);
    }
  }

  lemma KeyOfGroup(h: HashAgg, rows: seq<Record>, k: Key)
    requires RowsOfKey(h.groupBy, k, rows) != []
    ensures |k| == |h.groupBy|
    decreases |rows|
  {
    var front, x := rows[..|rows| - 1], rows[|rows| - 1];
    if EvalAll(h.groupBy, x) != k { KeyOfGroup(h, front, k); }
  }

  /** Every row of a grouped query means what was asked, and every key that occurs in the
      input has exactly one row. */
  lemma GroupRowsMean(rt: Runtime, groupBy: seq<Expr>, aggregates: seq<Expr>, rows: seq<Record>) returns (keys: seq<Key>)
    requires AreAggregates(Functions(Partial(groupBy, aggregates)))
    requires NoDuplicates(OutputNames(rt, groupBy) + OutputNames(rt, aggregates))
    ensures |keys| == |GroupRows(rt, groupBy, aggregates, rows)|
    ensures forall i, j :: 0 <= i < j < |keys| ==> keys[i] != keys[j]
    ensures forall r :: r in rows ==> EvalAll(groupBy, r) in keys
    ensures forall j :: 0 <= j < |keys| ==>
              GroupRowMeans(rt, groupBy, aggregates, rows, keys[j], GroupRows(rt, groupBy, aggregates, rows)[j])
  {
    hide OutputRow, RowsOfKey, Means, NoDuplicates, GroupRowMeans, KeysInOrder, TableOf;
    var h := Partial(groupBy, aggregates);
    keys := KeysInOrder(h, rows);
    forall r | r in rows ensures EvalAll(groupBy, r) in keys {
      TableIsGroupBy(h, rows, EvalAll(groupBy, r));
      GroupIsItsRows(groupBy, EvalAll(groupBy, r), rows, r);
    }
    forall j | 0 <= j < |keys|
      ensures GroupRowMeans(rt, groupBy, aggregates, rows, keys[j], GroupRows(rt, groupBy, aggregates, rows)[j])
    {
      assert keys[j] in keys;
      TableIsGroupBy(h, rows, keys[j]);
      OneGroupMeans(rt, groupBy, aggregates, rows, keys[j]);
    }
  }

  lemma OneGroupMeans(rt: Runtime, groupBy: seq<Expr>, aggregates: seq<Expr>, rows: seq<Record>, k: Key)
    requires AreAggregates(Functions(Partial(groupBy, aggregates))) && RowsOfKey(groupBy, k, rows) != []
    requires NoDuplicates(OutputNames(rt, groupBy) + OutputNames(rt, aggregates))
    ensures var mine := RowsOfKey(groupBy, k, rows);
            var s := FoldUpdates(Functions(Partial(groupBy, aggregates)), mine);
            GroupRowMeans(rt, groupBy, aggregates, rows, k, OutputRow(rt, Final(groupBy, aggregates), k, s))
  {
    hide OutputRow, RowsOfKey, Means, StateMeans, NoDuplicates, FoldUpdates, Finalize;
    var fs, mine := Functions(Partial(groupBy, aggregates)), RowsOfKey(groupBy, k, rows);
    var s := FoldUpdates(fs, mine);
    KeyOfGroup(Partial(groupBy, aggregates), rows, k);
    OutputAt(rt, groupBy, aggregates, k, s);
    forall i | 0 <= i < |aggregates| ensures Means(UnwrapAlias(aggregates[i]), mine, FinalizeAll(fs, s)[i]) {
      FoldMeans(fs, mine, i);
      FinalMeans(fs[i], mine, s[i]);
    }
  }
}
