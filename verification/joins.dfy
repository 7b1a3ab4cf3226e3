/**
 The hash join of one partition, and how it splits over partitions
 (minispark/physical/operators.py, `_execute_hash_join_partition`).
 */
module Joins {
  import opened Values
  import opened Expressions
  import opened Sequences

  type Key = seq<Value>

  /** The two sides' key expressions and the shared column names. */
  datatype JoinSpec = JoinSpec(leftKeys: seq<Expr>, rightKeys: seq<Expr>, on: seq<string>)

  /** dict(left_row) updated with right's columns other than the join columns. */
  function Merged(j: JoinSpec, l: Record, r: Record): Record {
    l + map c | c in r && c !in j.on :: r[c]
  }

  function LeftMatches(j: JoinSpec, k: Key, left: seq<Record>): seq<Record> {
    if left == [] then []
    else
      var n := |left| - 1;
      LeftMatches(j, k, left[..n]) + if EvalAll(j.leftKeys, left[n]) == k then [left[n]] else []
  }

  function MergeEach(j: JoinSpec, ls: seq<Record>, r: Record): (out: seq<Record>)
    ensures |out| == |ls|
  {
    seq(|ls|, i requires 0 <= i < |ls| => Merged(j, ls[i], r))
  }

  /** One right row with every left row of the same key. */
  function Pairs(j: JoinSpec, left: seq<Record>, r: Record): seq<Record> {
    MergeEach(j, LeftMatches(j, EvalAll(j.rightKeys, r), left), r)
  }

  /** The nested-loop inner equi-join: for each right row, for each left row with an
      equal key.  Keys are compared as values, so null keys join null keys. */
  function JoinRows(j: JoinSpec, left: seq<Record>, right: seq<Record>): seq<Record> {
    if right == [] then []
    else
      var n := |right| - 1;
      JoinRows(j, left, right[..n]) + Pairs(j, left, right[n])
  }

  // ---- the hash join -------------------------------------------------------

  lemma MatchesSnoc(j: JoinSpec, k: Key, left: seq<Record>, x: Record)
    ensures LeftMatches(j, k, left + [x]) == LeftMatches(j, k, left) + if EvalAll(j.leftKeys, x) == k then [x] else []
  {
    assert (left + [x])[..|left|] == left;
  }

  lemma JoinSnoc(j: JoinSpec, left: seq<Record>, right: seq<Record>, x: Record)
    ensures JoinRows(j, left, right + [x]) == JoinRows(j, left, right) + Pairs(j, left, x)
  {
    assert (right + [x])[..|right|] == right;
  }

  /** The table maps each key that occurs on the left to its rows, in order. */
  ghost predicate Built(j: JoinSpec, table: map<Key, seq<Record>>, left: seq<Record>) {
    forall k: Key :: LeftMatches(j, k, left) == if k in table then table[k] else []
  }

  function Append(table: map<Key, seq<Record>>, k: Key, x: Record): map<Key, seq<Record>> {
    table[k := (if k in table then table[k] else []) + [x]]
  }

  lemma BuiltStep(j: JoinSpec, table: map<Key, seq<Record>>, left: seq<Record>, i: nat)
    requires i < |left| && Built(j, table, left[..i])
    ensures Built(j, Append(table, EvalAll(j.leftKeys, left[i]), left[i]), left[..i + 1])
  {
    assert left[..i + 1] == left[..i] + [left[i]];
    forall k: Key { MatchesSnoc(j, k, left[..i], left[i]); }
  }

  /** table.setdefault(key, []).append(record) over the left rows. */
  method BuildTable(j: JoinSpec, left: seq<Record>) returns (table: map<Key, seq<Record>>)
    ensures Built(j, table, left)
  {
    table := map[];
    for i := 0 to |left|
      invariant Built(j, table, left[..i])
    {
      BuiltStep(j, table, left, i);
      table := Append(table, EvalAll(j.leftKeys, left[i]), left[i]);
    }
    assert left[..|left|] == left;
  }

  lemma ProbeStep(j: JoinSpec, table: map<Key, seq<Record>>, left: seq<Record>, right: seq<Record>, i: nat)
    requires Built(j, table, left) && i < |right|
    ensures var k := EvalAll(j.rightKeys, right[i]);
            JoinRows(j, left, right[..i + 1])
            == JoinRows(j, left, right[..i]) + MergeEach(j, if k in table then table[k] else [], right[i])
  {
    hide JoinRows, MergeEach, LeftMatches;
    JoinSnoc(j, left, right[..i], right[i]);
    assert right[..i + 1] == right[..i] + [right[i]];
  }

  /** Build on left, probe with right: exactly the nested-loop join. */
  method ExecuteHashJoinPartition(j: JoinSpec, left: seq<Record>, right: seq<Record>) returns (out: seq<Record>)
    ensures out == JoinRows(j, left, right)
  {
    var table := BuildTable(j, left);
    out := [];
    for i := 0 to |right|
      invariant out == JoinRows(j, left, right[..i])
    {
      ProbeStep(j, table, left, right, i);
      var k := EvalAll(j.rightKeys, right[i]);
      out := out + MergeEach(j, if k in table then table[k] else [], right[i]);
    }
    assert right[..|right|] == right;
  }

  // ---- the join is bilinear ------------------------------------------------

  lemma {:induction false} MatchesAppend(j: JoinSpec, k: Key, a: seq<Record>, b: seq<Record>)
    ensures LeftMatches(j, k, a + b) == LeftMatches(j, k, a) + LeftMatches(j, k, b)
  {
    if b == [] {
      assert a + b == a;
    } else {
      var front, x := b[..|b| - 1], b[|b| - 1];
      assert a + b == (a + front) + [x] && b == front + [x];
      MatchesAppend(j, k, a, front);
      MatchesSnoc(j, k, a + front, x);
      MatchesSnoc(j, k, front, x);
    }
  }

  lemma {:induction false} JoinRightAppend(j: JoinSpec, left: seq<Record>, a: seq<Record>, b: seq<Record>)
    ensures JoinRows(j, left, a + b) == JoinRows(j, left, a) + JoinRows(j, left, b)
  {
    if b == [] {
      assert a + b == a;
    } else {
      var front, x := b[..|b| - 1], b[|b| - 1];
      assert a + b == (a + front) + [x] && b == front + [x];
      JoinRightAppend(j, left, a, front);
      JoinSnoc(j, left, a + front, x);
      JoinSnoc(j, left, front, x);
    }
  }

  lemma PairsAppend(j: JoinSpec, a: seq<Record>, b: seq<Record>, r: Record)
    ensures Pairs(j, a + b, r) == Pairs(j, a, r) + Pairs(j, b, r)
  {
    MatchesAppend(j, EvalAll(j.rightKeys, r), a, b);
  }

  lemma {:induction false} JoinLeftAppend(j: JoinSpec, a: seq<Record>, b: seq<Record>, right: seq<Record>)
    ensures multiset(JoinRows(j, a + b, right)) == multiset(JoinRows(j, a, right)) + multiset(JoinRows(j, b, right))
  {
    if right != [] {
      var n := |right| - 1;
      JoinLeftAppend(j, a, b, right[..n]);
      PairsAppend(j, a, b, right[n]);
    }
  }

  lemma {:induction false} MatchesPermute(j: JoinSpec, k: Key, a: seq<Record>, b: seq<Record>)
    requires multiset(a) == multiset(b)
    ensures multiset(LeftMatches(j, k, a)) == multiset(LeftMatches(j, k, b))
  {
    if a == [] {
      assert |multiset(b)| == 0;
    } else {
      var front, x := a[..|a| - 1], a[|a| - 1];
      assert a == front + [x];
      SameMembers(a, b, x);
      var p, q := SplitAt(b, x);
      CancelOne(front, x, p, q);
      MatchesPermute(j, k, front, p + q);
      MatchesSnoc(j, k, front, x);
      MatchesAppend(j, k, p, q);
      MatchesAppend(j, k, p + [x], q);
      MatchesSnoc(j, k, p, x);
    }
  }

  lemma MergeSnoc(j: JoinSpec, ls: seq<Record>, x: Record, r: Record)
    ensures MergeEach(j, ls + [x], r) == MergeEach(j, ls, r) + [Merged(j, x, r)]
  {
    hide Merged;
  }

  lemma MergeAppend(j: JoinSpec, a: seq<Record>, b: seq<Record>, r: Record)
    ensures MergeEach(j, a + b, r) == MergeEach(j, a, r) + MergeEach(j, b, r)
  {
    hide Merged;
  }

  lemma {:induction false} MergeEachPermutes(j: JoinSpec, a: seq<Record>, b: seq<Record>, r: Record)
    requires multiset(a) == multiset(b)
    ensures multiset(MergeEach(j, a, r)) == multiset(MergeEach(j, b, r))
  {
    hide MergeEach, Merged;
    if a == [] {
      assert |multiset(b)| == 0;
    } else {
      var front, x := a[..|a| - 1], a[|a| - 1];
      assert a == front + [x];
      SameMembers(a, b, x);
      var p, q := SplitAt(b, x);
      CancelOne(front, x, p, q);
      MergeEachPermutes(j, front, p + q, r);
      MergeSnoc(j, front, x, r);
      MergeAppend(j, p, q, r);
      MergeAppend(j, p + [x], q, r);
      MergeSnoc(j, p, x, r);
    }
  }

  lemma {:induction false} JoinLeftPermutes(j: JoinSpec, a: seq<Record>, b: seq<Record>, right: seq<Record>)
    requires multiset(a) == multiset(b)
    ensures multiset(JoinRows(j, a, right)) == multiset(JoinRows(j, b, right))
  {
    if right != [] {
      var n := |right| - 1;
      JoinLeftPermutes(j, a, b, right[..n]);
      MatchesPermute(j, EvalAll(j.rightKeys, right[n]), a, b);
      MergeEachPermutes(j, LeftMatches(j, EvalAll(j.rightKeys, right[n]), a),
                        LeftMatches(j, EvalAll(j.rightKeys, right[n]), b), right[n]);
    }
  }

  lemma {:induction false} JoinRightPermutes(j: JoinSpec, left: seq<Record>, a: seq<Record>, b: seq<Record>)
    requires multiset(a) == multiset(b)
    ensures multiset(JoinRows(j, left, a)) == multiset(JoinRows(j, left, b))
  {
    if a == [] {
      assert |multiset(b)| == 0;
    } else {
      var front, x := a[..|a| - 1], a[|a| - 1];
      assert a == front + [x];
      SameMembers(a, b, x);
      var p, q := SplitAt(b, x);
      CancelOne(front, x, p, q);
      JoinRightPermutes(j, left, front, p + q);
      JoinSnoc(j, left, front, x);
      JoinSnoc(j, left, p, x);
      JoinRightAppend(j, left, p + [x], q);
      JoinRightAppend(j, left, p, q);
    }
  }

  /** The join depends only on which rows each side holds. */
  lemma JoinPermutes(j: JoinSpec, left: seq<Record>, left': seq<Record>, right: seq<Record>, right': seq<Record>)
    requires multiset(left) == multiset(left') && multiset(right) == multiset(right')
    ensures multiset(JoinRows(j, left, right)) == multiset(JoinRows(j, left', right'))
  {
    JoinLeftPermutes(j, left, left', right);
    JoinRightPermutes(j, left', right, right');
  }
}
