/**
 The row-at-a-time operators, and how they commute with one another
 (minispark/physical/operators.py, `_execute_filter`, `_execute_project`).
 */
module RowOperators {
  import opened Values
  import opened Expressions
  import opened Sequences
  import opened Sorting
  import opened Joins

  function FilterRows(condition: Expr, rows: seq<Record>): seq<Record> {
    if rows == [] then []
    else
      var n := |rows| - 1;
      FilterRows(condition, rows[..n]) + if Truthy(Eval(condition, rows[n])) then [rows[n]] else []
  }

  function ProjectRow(columns: seq<Expr>, names: seq<string>, r: Record): Record {
    if |columns| == |names| then RowFrom(names, EvalAll(columns, r)) else map[]
  }

  function ProjectRows(columns: seq<Expr>, names: seq<string>, rows: seq<Record>): (out: seq<Record>)
    ensures |out| == |rows|
    ensures forall i :: 0 <= i < |rows| ==> out[i] == ProjectRow(columns, names, rows[i])
  {
    seq(|rows|, i requires 0 <= i < |rows| => ProjectRow(columns, names, rows[i]))
  }

  lemma FilterSnoc(c: Expr, rows: seq<Record>, x: Record)
    ensures FilterRows(c, rows + [x]) == FilterRows(c, rows) + if Truthy(Eval(c, x)) then [x] else []
  {
    assert (rows + [x])[..|rows|] == rows;
  }

  lemma {:induction false} FilterAppend(c: Expr, a: seq<Record>, b: seq<Record>)
    ensures FilterRows(c, a + b) == FilterRows(c, a) + FilterRows(c, b)
  {
    if b == [] {
      assert a + b == a;
    } else {
      var front, x := b[..|b| - 1], b[|b| - 1];
      assert a + b == (a + front) + [x] && b == front + [x];
      FilterAppend(c, a, front);
      FilterSnoc(c, a + front, x);
      FilterSnoc(c, front, x);
    }
  }

  lemma {:induction false} FilterMembers(c: Expr, rows: seq<Record>, x: Record)
    ensures x in FilterRows(c, rows) <==> x in rows && Truthy(Eval(c, x))
  {
    if rows != [] {
      var n := |rows| - 1;
      assert rows == rows[..n] + [rows[n]];
      FilterMembers(c, rows[..n], x);
    }
  }

  lemma {:induction false} FilterPermutes(c: Expr, a: seq<Record>, b: seq<Record>)
    requires multiset(a) == multiset(b)
    ensures multiset(FilterRows(c, a)) == multiset(FilterRows(c, b))
  {
    if a == [] {
      assert |multiset(b)| == 0;
    } else {
      var front, x := a[..|a| - 1], a[|a| - 1];
      assert a == front + [x];
      SameMembers(a, b, x);
      var p, q := SplitAt(b, x);
      CancelOne(front, x, p, q);
      FilterPermutes(c, front, p + q);
      FilterSnoc(c, front, x);
      FilterAppend(c, p, q);
      FilterAppend(c, p + [x], q);
      FilterSnoc(c, p, x);
    }
  }

  lemma ProjectAppend(columns: seq<Expr>, names: seq<string>, a: seq<Record>, b: seq<Record>)
    ensures ProjectRows(columns, names, a + b) == ProjectRows(columns, names, a) + ProjectRows(columns, names, b)
  {
  }

  lemma ProjectOne(columns: seq<Expr>, names: seq<string>, x: Record)
    ensures ProjectRows(columns, names, [x]) == [ProjectRow(columns, names, x)]
  {
  }

  /** multiset facts for a list with x in the middle. */
  lemma InsertMiddle<T>(front: seq<T>, p: seq<T>, q: seq<T>, x: T)
    requires multiset(front) == multiset(p + q)
    ensures multiset(front + [x]) == multiset(p + [x] + q)
  {
  }

  lemma {:induction false} ProjectPermutes(columns: seq<Expr>, names: seq<string>, a: seq<Record>, b: seq<Record>)
    requires multiset(a) == multiset(b)
    ensures multiset(ProjectRows(columns, names, a)) == multiset(ProjectRows(columns, names, b))
  {
    if a == [] {
      assert |multiset(b)| == 0;
    } else {
      var front, x := a[..|a| - 1], a[|a| - 1];
      assert a == front + [x];
      SameMembers(a, b, x);
      var p, q := SplitAt(b, x);
      CancelOne(front, x, p, q);
      ProjectPermutes(columns, names, front, p + q);
      ProjectAppend(columns, names, front, [x]);
      ProjectAppend(columns, names, p + [x], q);
      ProjectAppend(columns, names, p, [x]);
      ProjectAppend(columns, names, p, q);
      ProjectOne(columns, names, x);
      InsertMiddle(ProjectRows(columns, names, front), ProjectRows(columns, names, p), ProjectRows(columns, names, q),
                   ProjectRow(columns, names, x));
    }
  }

  // ---- filters move --------------------------------------------------------

  /** Two conditions that agree on every row filter alike. */
  lemma {:induction false} FilterSame(c: Expr, d: Expr, rows: seq<Record>)
    requires forall r :: r in rows ==> Truthy(Eval(c, r)) == Truthy(Eval(d, r))
    ensures FilterRows(c, rows) == FilterRows(d, rows)
  {
    if rows != [] {
      var n := |rows| - 1;
      assert rows[n] in rows;
      assert forall r :: r in rows[..n] ==> r in rows;
      FilterSame(c, d, rows[..n]);
    }
  }

  /** A filter whose condition reads the same before and after a projection. */
  lemma {:induction false} FilterBelowProject(c: Expr, columns: seq<Expr>, names: seq<string>, rows: seq<Record>)
    requires forall i :: 0 <= i < |rows| ==> Eval(c, ProjectRow(columns, names, rows[i])) == Eval(c, rows[i])
    ensures FilterRows(c, ProjectRows(columns, names, rows)) == ProjectRows(columns, names, FilterRows(c, rows))
  {
    if rows != [] {
      var n := |rows| - 1;
      var x, kept := rows[n], FilterRows(c, rows[..n]);
      FilterBelowProject(c, columns, names, rows[..n]);
      assert ProjectRows(columns, names, rows)[..n] == ProjectRows(columns, names, rows[..n]);
      if Truthy(Eval(c, x)) {
        ProjectAppend(columns, names, kept, [x]);
        ProjectOne(columns, names, x);
      } else {
        assert kept + [] == kept;
      }
    }
  }

  /** Rows that meet in a join: equal keys. */
  predicate Meet(j: JoinSpec, l: Record, r: Record) {
    EvalAll(j.leftKeys, l) == EvalAll(j.rightKeys, r)
  }

  lemma {:induction false} MatchesAre(j: JoinSpec, k: Key, left: seq<Record>, x: Record)
    requires x in LeftMatches(j, k, left)
    ensures x in left && EvalAll(j.leftKeys, x) == k
  {
    var n := |left| - 1;
    if x in LeftMatches(j, k, left[..n]) { MatchesAre(j, k, left[..n], x); }
  }

  lemma {:induction false} FilterMatches(c: Expr, j: JoinSpec, k: Key, left: seq<Record>)
    ensures FilterRows(c, LeftMatches(j, k, left)) == LeftMatches(j, k, FilterRows(c, left))
  {
    if left != [] {
      var n := |left| - 1;
      var x, kept, matched := left[n], FilterRows(c, left[..n]), LeftMatches(j, k, left[..n]);
      FilterMatches(c, j, k, left[..n]);
      assert matched + [] == matched && kept + [] == kept;
      FilterSnoc(c, matched, x);
      MatchesSnoc(j, k, kept, x);
    }
  }

  lemma {:induction false} FilterMerged(c: Expr, j: JoinSpec, ls: seq<Record>, r: Record)
    requires forall i :: 0 <= i < |ls| ==> Eval(c, Merged(j, ls[i], r)) == Eval(c, ls[i])
    ensures FilterRows(c, MergeEach(j, ls, r)) == MergeEach(j, FilterRows(c, ls), r)
  {
    hide Merged, Eval;
    if ls != [] {
      var n := |ls| - 1;
      var x, kept := ls[n], FilterRows(c, ls[..n]);
      FilterMerged(c, j, ls[..n], r);
      assert MergeEach(j, ls, r)[..n] == MergeEach(j, ls[..n], r);
      if Truthy(Eval(c, x)) {
        MergeSnoc(j, kept, x, r);
      } else {
        assert kept + [] == kept;
      }
    }
  }

  /** A filter on left columns only moves into the join's left side. */
  lemma {:induction false} FilterIntoLeft(c: Expr, j: JoinSpec, left: seq<Record>, right: seq<Record>)
    requires forall l, r :: l in left && r in right && Meet(j, l, r) ==> Eval(c, Merged(j, l, r)) == Eval(c, l)
    ensures FilterRows(c, JoinRows(j, left, right)) == JoinRows(j, FilterRows(c, left), right)
  {
    if right != [] {
      var front, x := right[..|right| - 1], right[|right| - 1];
      assert right == front + [x] && x in right && forall r :: r in front ==> r in right;
      FilterIntoLeft(c, j, left, front);
      JoinSnoc(j, left, front, x);
      JoinSnoc(j, FilterRows(c, left), front, x);
      FilterAppend(c, JoinRows(j, left, front), Pairs(j, left, x));
      var k := EvalAll(j.rightKeys, x);
      FilterMatches(c, j, k, left);
      var ls := LeftMatches(j, k, left);
      forall i | 0 <= i < |ls| ensures Eval(c, Merged(j, ls[i], x)) == Eval(c, ls[i]) {
        MatchesAre(j, k, left, ls[i]);
        assert Meet(j, ls[i], x);
      }
      FilterMerged(c, j, LeftMatches(j, k, left), x);
    }
  }

  lemma {:induction false} FilterAll(c: Expr, rows: seq<Record>, keep: bool)
    requires forall i :: 0 <= i < |rows| ==> Truthy(Eval(c, rows[i])) == keep
    ensures FilterRows(c, rows) == if keep then rows else []
  {
    if rows != [] { FilterAll(c, rows[..|rows| - 1], keep); }
  }

  lemma FilterPairs(c: Expr, j: JoinSpec, left: seq<Record>, x: Record)
    requires forall l :: l in left && Meet(j, l, x) ==> Eval(c, Merged(j, l, x)) == Eval(c, x)
    ensures FilterRows(c, Pairs(j, left, x)) == if Truthy(Eval(c, x)) then Pairs(j, left, x) else []
  {
    var k, pairs := EvalAll(j.rightKeys, x), Pairs(j, left, x);
    forall i | 0 <= i < |pairs| ensures Truthy(Eval(c, pairs[i])) == Truthy(Eval(c, x)) {
      var l := LeftMatches(j, k, left)[i];
      MatchesAre(j, k, left, l);
      assert Meet(j, l, x);
    }
    FilterAll(c, pairs, Truthy(Eval(c, x)));
  }

  /** A filter on right columns only moves into the join's right side. */
  lemma {:induction false} FilterIntoRight(c: Expr, j: JoinSpec, left: seq<Record>, right: seq<Record>)
    requires forall l, r :: l in left && r in right && Meet(j, l, r) ==> Eval(c, Merged(j, l, r)) == Eval(c, r)
    ensures FilterRows(c, JoinRows(j, left, right)) == JoinRows(j, left, FilterRows(c, right))
  {
    if right != [] {
      var front, x := right[..|right| - 1], right[|right| - 1];
      assert right == front + [x] && x in right && forall r :: r in front ==> r in right;
      FilterIntoRight(c, j, left, front);
      JoinSnoc(j, left, front, x);
      FilterSnoc(c, front, x);
      FilterAppend(c, JoinRows(j, left, front), Pairs(j, left, x));
      FilterPairs(c, j, left, x);
      if Truthy(Eval(c, x)) {
        JoinSnoc(j, left, FilterRows(c, front), x);
      } else {
        assert JoinRows(j, left, FilterRows(c, front)) + [] == JoinRows(j, left, FilterRows(c, front));
        assert FilterRows(c, front) + [] == FilterRows(c, front);
      }
    }
  }

  // ---- rows that agree on some columns -------------------------------------

  ghost predicate AgreeRows(cols: set<string>, a: seq<Record>, b: seq<Record>) {
    |a| == |b| && forall i :: 0 <= i < |a| ==> Agree(cols, a[i], b[i])
  }

  lemma AgreeFewer(some: set<string>, all: set<string>, a: seq<Record>, b: seq<Record>)
    requires some <= all && AgreeRows(all, a, b)
    ensures AgreeRows(some, a, b)
  {
  }

  lemma {:induction false} FilterAgree(c: Expr, cols: set<string>, a: seq<Record>, b: seq<Record>)
    requires ReferencedColumns(c) <= cols && AgreeRows(cols, a, b)
    ensures AgreeRows(cols, FilterRows(c, a), FilterRows(c, b))
  {
    if a != [] {
      var n := |a| - 1;
      FilterAgree(c, cols, a[..n], b[..n]);
      EvalAgree(c, a[n], b[n]);
    }
  }

  lemma ProjectAgree(columns: seq<Expr>, names: seq<string>, a: seq<Record>, b: seq<Record>)
    requires AgreeRows(ReferencedByAll(columns), a, b)
    ensures ProjectRows(columns, names, a) == ProjectRows(columns, names, b)
  {
    forall i | 0 <= i < |a| ensures ProjectRow(columns, names, a[i]) == ProjectRow(columns, names, b[i]) {
      EvalAllAgree(columns, a[i], b[i]);
    }
  }

  lemma {:induction false} InsertAgree(ks: seq<SortKey>, cols: set<string>, x: Record, y: Record, a: seq<Record>, b: seq<Record>)
    requires KeyColumns(ks) <= cols && Agree(cols, x, y) && AgreeRows(cols, a, b)
    ensures AgreeRows(cols, InsertStable(ks, x, a), InsertStable(ks, y, b))
  {
    if a != [] {
      BeforeAgree(ks, a[0], x, b[0], y);
      if Before(ks, a[0], x) { InsertAgree(ks, cols, x, y, a[1..], b[1..]); }
    }
  }

  /** Sorting looks at the key columns only. */
  lemma {:induction false} SortAgree(ks: seq<SortKey>, cols: set<string>, a: seq<Record>, b: seq<Record>)
    requires KeyColumns(ks) <= cols && AgreeRows(cols, a, b)
    ensures AgreeRows(cols, StableSort(ks, a), StableSort(ks, b))
  {
    if a != [] {
      SortAgree(ks, cols, a[1..], b[1..]);
      InsertAgree(ks, cols, a[0], b[0], StableSort(ks, a[1..]), StableSort(ks, b[1..]));
    }
  }
}
