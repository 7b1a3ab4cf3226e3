/**
 Deciding which target partition a row belongs to, and what each target reads back
 (minispark/shuffle/partitioner.py, minispark/execution/worker.py).
 */
module Shuffle {
  import opened Values
  import opened Expressions
  import opened Sequences

  /** How a row's key is read: a scalar among ascending boundaries, or a hashed tuple. */
  datatype Scheme = Hashed | Ranged(boundaries: seq<Value>)

  datatype Partitioning = Partitioning(exprs: seq<Expr>, num: nat, scheme: Scheme)

  /** What the partitioners' constructors check, and a range exchange's one key. */
  predicate Legal(p: Partitioning) {
    p.num >= 1 && (p.scheme.Ranged? ==> |p.exprs| == 1 && |p.scheme.boundaries| == p.num - 1)
  }

  /** bisect_right on an ascending list: how many entries are not above k. */
  function BisectRight(bs: seq<Value>, k: Value): (i: nat)
    ensures i <= |bs|
  {
    if bs == [] || ValueLt(k, bs[0]) then 0 else 1 + BisectRight(bs[1..], k)
  }

  /** partition_for(key_fn(row)): a target below num. */
  function TargetOf(rt: Runtime, p: Partitioning, r: Record): (t: nat)
    requires Legal(p)
    ensures t < p.num
  {
    if p.scheme.Ranged? then BisectRight(p.scheme.boundaries, Eval(p.exprs[0], r))
    else rt.hash(EvalAll(p.exprs, r)) % p.num
  }

  /** The rows of one source partition bound for target t, in order. */
  function BucketRows(rt: Runtime, p: Partitioning, t: nat, rows: seq<Record>): seq<Record>
    requires Legal(p)
  {
    if rows == [] then []
    else
      var n := |rows| - 1;
      BucketRows(rt, p, t, rows[..n]) + if TargetOf(rt, p, rows[n]) == t then [rows[n]] else []
  }

  /** What target t reads: its rows from every source partition, in partition order. */
  function ReadBucket(rt: Runtime, p: Partitioning, t: nat, parts: seq<seq<Record>>): seq<Record>
    requires Legal(p)
  {
    if parts == [] then []
    else
      var n := |parts| - 1;
      ReadBucket(rt, p, t, parts[..n]) + BucketRows(rt, p, t, parts[n])
  }

  lemma BucketSnoc(rt: Runtime, p: Partitioning, t: nat, rows: seq<Record>, x: Record)
    requires Legal(p)
    ensures BucketRows(rt, p, t, rows + [x]) == BucketRows(rt, p, t, rows) + if TargetOf(rt, p, x) == t then [x] else []
  {
    assert (rows + [x])[..|rows|] == rows;
  }

  lemma {:induction false} BucketAppend(rt: Runtime, p: Partitioning, t: nat, a: seq<Record>, b: seq<Record>)
    requires Legal(p)
    ensures BucketRows(rt, p, t, a + b) == BucketRows(rt, p, t, a) + BucketRows(rt, p, t, b)
  {
    if b == [] {
      assert a + b == a;
    } else {
      var front, x := b[..|b| - 1], b[|b| - 1];
      assert a + b == (a + front) + [x] && b == front + [x];
      BucketAppend(rt, p, t, a, front);
      BucketSnoc(rt, p, t, a + front, x);
      BucketSnoc(rt, p, t, front, x);
    }
  }

  /** Reading a bucket of many partitions is reading it of their concatenation. */
  lemma {:induction false} ReadIsBucketOfAll(rt: Runtime, p: Partitioning, t: nat, parts: seq<seq<Record>>)
    requires Legal(p)
    ensures ReadBucket(rt, p, t, parts) == BucketRows(rt, p, t, Flatten(parts))
  {
    if parts != [] {
      var n := |parts| - 1;
      ReadIsBucketOfAll(rt, p, t, parts[..n]);
      assert parts == parts[..n] + [parts[n]];
      FlattenSnoc(parts[..n], parts[n]);
      BucketAppend(rt, p, t, Flatten(parts[..n]), parts[n]);
    }
  }

  lemma {:induction false} BucketMembers(rt: Runtime, p: Partitioning, t: nat, rows: seq<Record>, x: Record)
    requires Legal(p)
    ensures x in BucketRows(rt, p, t, rows) <==> x in rows && TargetOf(rt, p, x) == t
  {
    if rows != [] {
      var n := |rows| - 1;
      assert rows == rows[..n] + [rows[n]];
      BucketMembers(rt, p, t, rows[..n], x);
    }
  }

  /** The rows of every target. */
  function Buckets(rt: Runtime, p: Partitioning, rows: seq<Record>): (bs: seq<seq<Record>>)
    requires Legal(p)
    ensures |bs| == p.num
    ensures forall t :: 0 <= t < p.num ==> bs[t] == BucketRows(rt, p, t, rows)
  {
    seq(p.num, t requires 0 <= t < p.num => BucketRows(rt, p, t, rows))
  }

  lemma BucketsSnoc(rt: Runtime, p: Partitioning, rows: seq<Record>, x: Record)
    requires Legal(p)
    ensures var bs, t := Buckets(rt, p, rows), TargetOf(rt, p, x);
            Buckets(rt, p, rows + [x]) == bs[t := bs[t] + [x]]
  {
    var bs, bs', t := Buckets(rt, p, rows), Buckets(rt, p, rows + [x]), TargetOf(rt, p, x);
    forall k | 0 <= k < p.num ensures bs'[k] == bs[t := bs[t] + [x]][k] {
      BucketSnoc(rt, p, k, rows, x);
      assert bs[k] + [] == bs[k];
    }
  }

  /** An exchange loses and duplicates nothing: the buckets together are the rows. */
  lemma {:induction false} BucketsPartition(rt: Runtime, p: Partitioning, rows: seq<Record>)
    requires Legal(p)
    ensures multiset(Flatten(Buckets(rt, p, rows))) == multiset(rows)
  {
    if rows == [] {
      FlattenAllEmpty(Buckets(rt, p, rows));
    } else {
      var front, x := rows[..|rows| - 1], rows[|rows| - 1];
      assert rows == front + [x];
      BucketsPartition(rt, p, front);
      BucketsSnoc(rt, p, front, x);
      FlattenGain(Buckets(rt, p, front), TargetOf(rt, p, x), [x]);
    }
  }

  // ---- range partitioning --------------------------------------------------

  ghost predicate NonDecreasing(bs: seq<Value>) {
    forall i, j :: 0 <= i < j < |bs| ==> !ValueLt(bs[j], bs[i])
  }

  /** On ascending boundaries a row's target is the only place its key fits. */
  lemma {:induction false} BisectRightIs(bs: seq<Value>, k: Value)
    requires NonDecreasing(bs)
    ensures forall i :: 0 <= i < BisectRight(bs, k) ==> !ValueLt(k, bs[i])
    ensures forall i :: BisectRight(bs, k) <= i < |bs| ==> ValueLt(k, bs[i])
  {
    if bs != [] {
      if ValueLt(k, bs[0]) {
        forall i | 0 <= i < |bs| ensures ValueLt(k, bs[i]) {
          ValueLtTotal(bs[0], bs[i]);
          if i > 0 && ValueLt(bs[0], bs[i]) { ValueLtTransitive(k, bs[0], bs[i]); }
        }
      } else {
        BisectRightIs(bs[1..], k);
        assert forall i :: 1 <= i < |bs| ==> bs[i] == bs[1..][i - 1];
      }
    }
  }

  /** A key sent to an earlier target is strictly smaller. */
  lemma BisectRightMonotone(bs: seq<Value>, a: Value, b: Value)
    requires NonDecreasing(bs) && BisectRight(bs, a) < BisectRight(bs, b)
    ensures ValueLt(a, b)
  {
    var i := BisectRight(bs, a);
    BisectRightIs(bs, a);
    BisectRightIs(bs, b);
    assert ValueLt(a, bs[i]) && !ValueLt(b, bs[i]);
    ValueLtTotal(b, bs[i]);
    ValueLtTotal(a, b);
    if ValueLt(bs[i], b) { ValueLtTransitive(a, bs[i], b); }
  }
}
