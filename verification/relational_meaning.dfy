/**
 What filters, projections and joins return, row by row and column by column
 (minispark/physical/operators.py, `_execute_filter_partition`, `_execute_project_partition`,
 `_execute_hash_join_partition`).
 */
module RelationalMeaning {
  import opened Values
  import opened Expressions
  import opened Sequences
  import opened Joins
  import opened RowOperators
  import opened Logical
  import opened Shuffle

  ghost predicate Increasing(places: seq<nat>) {
    forall i, j :: 0 <= i < j < |places| ==> places[i] < places[j]
  }

  // ---- filters and projections ---------------------------------------------

  /** A filter returns the rows at exactly the places where its condition is true, in order. */
  lemma {:induction false} FilterMeans(cond: Expr, rows: seq<Record>) returns (places: seq<nat>)
    ensures Increasing(places) && |FilterRows(cond, rows)| == |places|
    ensures forall i :: 0 <= i < |places| ==> places[i] < |rows| && FilterRows(cond, rows)[i] == rows[places[i]]
    ensures forall p: nat :: p < |rows| ==> (p in places <==> Truthy(Eval(cond, rows[p])))
  {
    hide Eval, Truthy;
    if rows == [] {
      places := [];
    } else {
      var n := |rows| - 1;
      var before := FilterMeans(cond, rows[..n]);
      places := before + if Truthy(Eval(cond, rows[n])) then [n] else [];
      forall p: nat | p < |rows| ensures p in places <==> Truthy(Eval(cond, rows[p])) {
        if p < n { assert rows[..n][p] == rows[p]; } else { NotYet(before, n); }
      }
    }
  }

  lemma NotYet(places: seq<nat>, n: nat)
    requires forall i :: 0 <= i < |places| ==> places[i] < n
    ensures n !in places
  {
  }

  /** A projection returns one row for each, with exactly the named columns, each holding
      what its expression is on that row. */
  lemma ProjectMeans(cols: seq<Expr>, names: seq<string>, rows: seq<Record>, i: nat, j: nat)
    requires |cols| == |names| && NoDuplicates(names) && i < |rows| && j < |cols|
    ensures |ProjectRows(cols, names, rows)| == |rows|
    ensures var out := ProjectRows(cols, names, rows)[i];
            out.Keys == (set n | n in names) && out[names[j]] == Eval(cols[j], rows[i])
  {
    RowFromAt(names, EvalAll(cols, rows[i]), j);
  }

  // ---- joins ---------------------------------------------------------------

  /** A place in the left rows and one in the right. */
  datatype Pair = Pair(left: nat, right: nat)

  /** out has the left row's columns, and the right row's that are not joined on, the right
      one winning where both have a column. */
  ghost predicate JoinsRows(on: seq<string>, l: Record, r: Record, out: Record) {
    && (forall c :: c in out <==> c in l || (c in r && c !in on))
    && forall c :: c in out ==> out[c] == if c in r && c !in on then r[c] else l[c]
  }

  ghost predicate Matches(j: JoinSpec, left: seq<Record>, right: seq<Record>, p: Pair) {
    p.left < |left| && p.right < |right| && EvalAll(j.leftKeys, left[p.left]) == EvalAll(j.rightKeys, right[p.right])
  }

  ghost predicate Earlier(p: Pair, q: Pair) {
    p.right < q.right || (p.right == q.right && p.left < q.left)
  }

  lemma {:induction false} LeftMatchesMean(j: JoinSpec, k: Key, left: seq<Record>) returns (places: seq<nat>)
    ensures Increasing(places) && |LeftMatches(j, k, left)| == |places|
    ensures forall i :: 0 <= i < |places| ==> places[i] < |left| && LeftMatches(j, k, left)[i] == left[places[i]]
    ensures forall p: nat :: p < |left| ==> (p in places <==> EvalAll(j.leftKeys, left[p]) == k)
  {
    hide EvalAll;
    if left == [] {
      places := [];
    } else {
      var n := |left| - 1;
      var before := LeftMatchesMean(j, k, left[..n]);
      places := before + if EvalAll(j.leftKeys, left[n]) == k then [n] else [];
      forall p: nat | p < |left| ensures p in places <==> EvalAll(j.leftKeys, left[p]) == k {
        if p < n { assert left[..n][p] == left[p]; } else { NotYet(before, n); }
      }
    }
  }

  lemma MergedMeans(j: JoinSpec, l: Record, r: Record)
    ensures JoinsRows(j.on, l, r, Merged(j, l, r))
  {
  }

  /** The pairs that the rows of a join stand for: every pair of rows with equal keys, once,
      by right row and then by left. */
  ghost predicate JoinedBy(j: JoinSpec, left: seq<Record>, right: seq<Record>, out: seq<Record>, pairs: seq<Pair>) {
    && |pairs| == |out|
    && (forall i :: 0 <= i < |pairs| ==>
          Matches(j, left, right, pairs[i]) && JoinsRows(j.on, left[pairs[i].left], right[pairs[i].right], out[i]))
    && (forall a, b :: 0 <= a < b < |pairs| ==> Earlier(pairs[a], pairs[b]))
    && forall p :: Matches(j, left, right, p) ==> p in pairs
  }

  function WithRight(places: seq<nat>, n: nat): (pairs: seq<Pair>)
    ensures |pairs| == |places|
    ensures forall i :: 0 <= i < |places| ==> pairs[i] == Pair(places[i], n)
  {
    seq(|places|, i requires 0 <= i < |places| => Pair(places[i], n))
  }

  lemma JoinedOneMore(j: JoinSpec, left: seq<Record>, right: seq<Record>, r: Record, out: seq<Record>, pairs: seq<Pair>,
                      places: seq<nat>)
    requires JoinedBy(j, left, right, out, pairs)
    requires Increasing(places) && |places| == |LeftMatches(j, EvalAll(j.rightKeys, r), left)|
    requires forall i :: 0 <= i < |places| ==>
               places[i] < |left| && LeftMatches(j, EvalAll(j.rightKeys, r), left)[i] == left[places[i]]
    requires forall p: nat :: p < |left| ==> (p in places <==> EvalAll(j.leftKeys, left[p]) == EvalAll(j.rightKeys, r))
    ensures JoinedBy(j, left, right + [r], out + Pairs(j, left, r), pairs + WithRight(places, |right|))
  {
    hide JoinsRows, LeftMatches, EvalAll;
    var n, more, all := |right|, WithRight(places, |right|), pairs + WithRight(places, |right|);
    forall i | 0 <= i < |all|
      ensures Matches(j, left, right + [r], all[i])
      ensures JoinsRows(j.on, left[all[i].left], (right + [r])[all[i].right], (out + Pairs(j, left, r))[i])
    {
      if i < |pairs| {
        assert Matches(j, left, right, pairs[i]);
      } else {
        var p := places[i - |pairs|];
        assert p in places;
        MergedMeans(j, left[p], r);
      }
    }
    forall a, b | 0 <= a < b < |all| ensures Earlier(all[a], all[b]) {
      if a < |pairs| { assert Matches(j, left, right, pairs[a]); }
    }
    forall p | Matches(j, left, right + [r], p) ensures p in all {
      if p.right < n {
        assert Matches(j, left, right, p);
      } else {
        assert p.left in places;
        var i :| 0 <= i < |places| && places[i] == p.left;
        assert more[i] == p;
      }
    }
  }

  /** An inner join returns a row for every pair of rows with equal keys, nulls included, and
      no other row. */
  lemma {:induction false} JoinMeans(j: JoinSpec, left: seq<Record>, right: seq<Record>) returns (pairs: seq<Pair>)
    ensures JoinedBy(j, left, right, JoinRows(j, left, right), pairs)
  {
    hide JoinedBy, Pairs, LeftMatches;
    if right == [] {
      pairs := [];
      NothingJoined(j, left);
    } else {
      var front, r := right[..|right| - 1], right[|right| - 1];
      assert right == front + [r];
      var before := JoinMeans(j, left, front);
      var places := LeftMatchesMean(j, EvalAll(j.rightKeys, r), left);
      JoinedOneMore(j, left, front, r, JoinRows(j, left, front), before, places);
      pairs := before + WithRight(places, |front|);
    }
  }

  lemma NothingJoined(j: JoinSpec, left: seq<Record>)
    ensures JoinedBy(j, left, [], [], [])
  {
  }

  ghost predicate AgreeOn(on: seq<string>, l: Record, r: Record) {
    forall c :: c in on ==> c in l && c in r && l[c] == r[c]
  }

  ghost predicate HaveAll(on: seq<string>, rows: seq<Record>) {
    forall r, c :: r in rows && c in on ==> c in r
  }

  /** On columns that both sides have, equal keys are equal values in each of them. */
  lemma MatchesIs(on: seq<string>, left: seq<Record>, right: seq<Record>, p: Pair)
    requires HaveAll(on, left) && HaveAll(on, right)
    ensures Matches(JoinOn(on), left, right, p) <==> p.left < |left| && p.right < |right| && AgreeOn(on, left[p.left], right[p.right])
  {
    if p.left < |left| && p.right < |right| {
      var l, r, keys := left[p.left], right[p.right], ColumnsOf(on);
      assert forall i :: 0 <= i < |on| ==> on[i] in on;
      assert forall i :: 0 <= i < |on| ==> EvalAll(keys, l)[i] == l[on[i]] && EvalAll(keys, r)[i] == r[on[i]];
      assert EvalAll(keys, l) == EvalAll(keys, r) <==> forall i :: 0 <= i < |on| ==> EvalAll(keys, l)[i] == EvalAll(keys, r)[i];
    }
  }

  // ---- exchanges -----------------------------------------------------------

  /** Under a hash exchange two rows have one target exactly when the hashes of their keys
      leave the same remainder. */
  lemma SameTargetIff(rt: Runtime, exprs: seq<Expr>, num: nat, a: Record, b: Record)
    requires num >= 1
    ensures var p := Partitioning(exprs, num, Hashed);
            TargetOf(rt, p, a) == TargetOf(rt, p, b)
            <==> exists k: int :: rt.hash(EvalAll(exprs, a)) - rt.hash(EvalAll(exprs, b)) == k * num
  {
    Remainders(rt.hash(EvalAll(exprs, a)), rt.hash(EvalAll(exprs, b)), num);
  }

  lemma Remainders(x: nat, y: nat, n: nat)
    requires n >= 1
    ensures x % n == y % n <==> exists k: int :: x - y == k * n
  {
    assert x == (x / n) * n + x % n && y == (y / n) * n + y % n;
    if x % n == y % n {
      assert x - y == (x / n - y / n) * n;
    }
    if k: int :| x - y == k * n {
      MultipleApart(y, n, k);
    }
  }

  lemma MultipleApart(y: nat, n: nat, k: int)
    requires n >= 1 && y + k * n >= 0
    ensures (y + k * n) % n == y % n
  {
    var q := y / n + k;
    assert y + k * n == q * n + y % n;
    DivisionIsUnique(y + k * n, n, q, y % n);
  }

  lemma Remainder(x: int, n: nat)
    requires n >= 1
    ensures x == (x / n) * n + x % n && 0 <= x % n < n
  {
  }

  lemma FarApart(d: int, n: nat)
    ensures d >= 1 ==> d * n >= n
    ensures d <= -1 ==> d * n <= 0 - n
    ensures d == 0 ==> d * n == 0
  {
    if d >= 1 { assert (d - 1) * n >= 0; }
    if d <= -1 { assert (-1 - d) * n >= 0; }
  }

  lemma DivisionIsUnique(x: int, n: nat, q: int, r: int)
    requires n >= 1 && x == q * n + r && 0 <= r < n
    ensures x % n == r
  {
    Remainder(x, n);
    FarApart(x / n - q, n);
    assert r - x % n == (x / n - q) * n by { assert (x / n - q) * n == (x / n) * n - q * n; }
  }
}
