/**
 The distributed sort: a local sort of every source partition, a range exchange, and
 a final sort of every target, targets read in id order
 (minispark/physical/planner.py, `_plan_sort`).
 */
module DistributedSort {
  import opened Values
  import opened Expressions
  import opened Sequences
  import opened Sorting
  import opened Shuffle

  /** Rows sent to an earlier target come strictly before by the primary key. */
  ghost predicate RangeOrdered(rt: Runtime, p: Partitioning, ks: seq<SortKey>, rows: seq<Record>)
    requires Legal(p)
  {
    forall a, b :: a in rows && b in rows && TargetOf(rt, p, a) < TargetOf(rt, p, b) ==>
      ks != [] && KeyBefore(ks[0], a, b)
  }

  /** Every source partition sorted on its own. */
  function LocalSorts(ks: seq<SortKey>, parts: seq<seq<Record>>): (out: seq<seq<Record>>)
    ensures |out| == |parts|
    ensures forall i :: 0 <= i < |parts| ==> out[i] == StableSort(ks, parts[i])
  {
    seq(|parts|, i requires 0 <= i < |parts| => StableSort(ks, parts[i]))
  }

  /** Every target's rows, read in source order and sorted again. */
  function FinalSorts(rt: Runtime, p: Partitioning, ks: seq<SortKey>, sorted: seq<seq<Record>>): (out: seq<seq<Record>>)
    requires Legal(p)
    ensures |out| == p.num
    ensures forall t :: 0 <= t < p.num ==> out[t] == StableSort(ks, ReadBucket(rt, p, t, sorted))
  {
    seq(p.num, t requires 0 <= t < p.num => StableSort(ks, ReadBucket(rt, p, t, sorted)))
  }

  // ---- the same computation on tagged rows ---------------------------------

  lemma RecordsAppend(a: seq<Tagged>, b: seq<Tagged>)
    ensures Records(a + b) == Records(a) + Records(b)
  {
  }

  function RecordsEach(tss: seq<seq<Tagged>>): (out: seq<seq<Record>>)
    ensures |out| == |tss|
    ensures forall i :: 0 <= i < |tss| ==> out[i] == Records(tss[i])
  {
    seq(|tss|, i requires 0 <= i < |tss| => Records(tss[i]))
  }

  function SortEach(ks: seq<SortKey>, tss: seq<seq<Tagged>>): (out: seq<seq<Tagged>>)
    ensures |out| == |tss|
    ensures forall i :: 0 <= i < |tss| ==> out[i] == SortTagged(ks, tss[i])
  {
    seq(|tss|, i requires 0 <= i < |tss| => SortTagged(ks, tss[i]))
  }

  lemma {:induction false} RecordsFlatten(tss: seq<seq<Tagged>>)
    ensures Records(Flatten(tss)) == Flatten(RecordsEach(tss))
  {
    if tss != [] {
      RecordsFlatten(tss[1..]);
      assert RecordsEach(tss)[1..] == RecordsEach(tss[1..]);
      RecordsAppend(tss[0], Flatten(tss[1..]));
    }
  }

  /** How many rows come before partition i. */
  function Offset(parts: seq<seq<Record>>, i: nat): nat
    requires i <= |parts|
  {
    |Flatten(parts[..i])|
  }

  lemma OffsetStep(parts: seq<seq<Record>>, i: nat)
    requires i < |parts|
    ensures Flatten(parts[..i + 1]) == Flatten(parts[..i]) + parts[i]
  {
    assert parts[..i + 1] == parts[..i] + [parts[i]];
    FlattenSnoc(parts[..i], parts[i]);
  }

  lemma {:induction false} OffsetGrows(parts: seq<seq<Record>>, i: nat, j: nat)
    requires i <= j <= |parts|
    ensures Offset(parts, i) <= Offset(parts, j)
  {
    if i < j {
      OffsetGrows(parts, i, j - 1);
      OffsetStep(parts, j - 1);
    }
  }

  /** Every source partition's rows tagged by position in the whole input. */
  function TagParts(parts: seq<seq<Record>>): (out: seq<seq<Tagged>>)
    ensures |out| == |parts|
    ensures forall i :: 0 <= i < |parts| ==> out[i] == Tag(parts[i], Offset(parts, i))
  {
    seq(|parts|, i requires 0 <= i < |parts| => Tag(parts[i], Offset(parts, i)))
  }

  lemma TagAppend(a: seq<Record>, b: seq<Record>, start: nat)
    ensures Tag(a + b, start) == Tag(a, start) + Tag(b, start + |a|)
  {
  }

  lemma {:induction false} TagPartsFlatten(parts: seq<seq<Record>>, m: nat)
    requires m <= |parts|
    ensures Flatten(TagParts(parts)[..m]) == Tag(Flatten(parts[..m]), 0)
  {
    var tss := TagParts(parts);
    if m > 0 {
      TagPartsFlatten(parts, m - 1);
      OffsetStep(parts, m - 1);
      assert tss[..m] == tss[..m - 1] + [tss[m - 1]];
      FlattenSnoc(tss[..m - 1], tss[m - 1]);
      TagAppend(Flatten(parts[..m - 1]), parts[m - 1], 0);
    }
  }

  lemma TagRange(rows: seq<Record>, start: nat, x: Tagged)
    requires x in Tag(rows, start)
    ensures start <= x.arrival < start + |rows|
  {
  }

  /** Earlier partitions hold earlier tags. */
  lemma TagPartsIncrease(parts: seq<seq<Record>>, i: nat, j: nat, x: Tagged, y: Tagged)
    requires i < j < |parts|
    requires x in Tag(parts[i], Offset(parts, i)) && y in Tag(parts[j], Offset(parts, j))
    ensures x.arrival < y.arrival
  {
    TagRange(parts[i], Offset(parts, i), x);
    TagRange(parts[j], Offset(parts, j), y);
    OffsetStep(parts, i);
    OffsetGrows(parts, i + 1, j);
  }

  /** Lists whose ties are in order, with tags growing from list to list. */
  lemma {:induction false} TiesFlatten(ks: seq<SortKey>, tss: seq<seq<Tagged>>)
    requires forall i :: 0 <= i < |tss| ==> TiesInOrder(ks, tss[i])
    requires forall i, j, x: Tagged, y: Tagged :: 0 <= i < j < |tss| && x in tss[i] && y in tss[j] ==> x.arrival < y.arrival
    ensures TiesInOrder(ks, Flatten(tss))
  {
    hide KeyBefore;
    if tss != [] {
      var a, b := tss[0], Flatten(tss[1..]);
      TiesFlatten(ks, tss[1..]);
      forall x: Tagged, y: Tagged | x in a && y in b ensures x.arrival < y.arrival {
        InFlatten(tss[1..], y);
        var j :| 0 <= j < |tss[1..]| && y in tss[1..][j];
        assert y in tss[j + 1];
      }
    }
  }

  /** Sorted lists, each wholly before the next, are sorted together. */
  lemma {:induction false} SortedFlatten(ks: seq<SortKey>, tss: seq<seq<Tagged>>)
    requires forall i :: 0 <= i < |tss| ==> Sorted(ks, tss[i])
    requires forall i, j, x: Tagged, y: Tagged :: 0 <= i < j < |tss| && x in tss[i] && y in tss[j] ==> CompositeBefore(ks, x, y)
    ensures Sorted(ks, Flatten(tss))
  {
    if tss != [] {
      var a, b := tss[0], Flatten(tss[1..]);
      SortedFlatten(ks, tss[1..]);
      forall x: Tagged, y: Tagged | x in a && y in b ensures CompositeBefore(ks, x, y) {
        InFlatten(tss[1..], y);
        var j :| 0 <= j < |tss[1..]| && y in tss[1..][j];
        assert y in tss[j + 1];
      }
    }
  }

  lemma SortedTies(ks: seq<SortKey>, s: seq<Tagged>)
    requires Sorted(ks, s)
    ensures TiesInOrder(ks, s)
  {
    forall i, j | 0 <= i < j < |s| && Tied(ks, s[i].rec, s[j].rec) ensures s[i].arrival < s[j].arrival {
      BeforeLaws(ks, s[i].rec, s[j].rec);
      assert CompositeBefore(ks, s[i], s[j]);
    }
  }

  lemma LocalSortAt(ks: seq<SortKey>, rows: seq<Record>, start: nat)
    ensures var t := Tag(rows, start);
            TiesInOrder(ks, SortTagged(ks, t)) && Records(SortTagged(ks, t)) == StableSort(ks, rows)
  {
    var t := Tag(rows, start);
    SortTaggedSorted(ks, t);
    SortedTies(ks, SortTagged(ks, t));
    SortTaggedRecords(ks, t);
    assert Records(t) == rows;
  }

  /** The concatenated local sorts: the same rows, ties in input order. */
  lemma LocalSortsTagged(ks: seq<SortKey>, parts: seq<seq<Record>>) returns (s: seq<Tagged>)
    ensures TiesInOrder(ks, s)
    ensures multiset(s) == multiset(Tag(Flatten(parts), 0))
    ensures Records(s) == Flatten(LocalSorts(ks, parts))
  {
    var tagged := TagParts(parts);
    var sorted := SortEach(ks, tagged);
    s := Flatten(sorted);
    TagPartsFlatten(parts, |parts|);
    assert tagged[..|parts|] == tagged && parts[..|parts|] == parts;
    FlattenPermutes(sorted, tagged);
    RecordsFlatten(sorted);
    forall i | 0 <= i < |parts| ensures TiesInOrder(ks, sorted[i]) && Records(sorted[i]) == StableSort(ks, parts[i]) {
      LocalSortAt(ks, parts[i], Offset(parts, i));
    }
    assert RecordsEach(sorted) == LocalSorts(ks, parts);
    forall i, j, x: Tagged, y: Tagged | 0 <= i < j < |sorted| && x in sorted[i] && y in sorted[j]
      ensures x.arrival < y.arrival
    {
      SameMembers(sorted[i], tagged[i], x);
      SameMembers(sorted[j], tagged[j], y);
      TagPartsIncrease(parts, i, j, x, y);
    }
    TiesFlatten(ks, sorted);
  }

  function TaggedBucket(rt: Runtime, p: Partitioning, t: nat, s: seq<Tagged>): seq<Tagged>
    requires Legal(p)
  {
    if s == [] then []
    else
      var n := |s| - 1;
      TaggedBucket(rt, p, t, s[..n]) + if TargetOf(rt, p, s[n].rec) == t then [s[n]] else []
  }

  lemma {:induction false} TaggedBucketRecords(rt: Runtime, p: Partitioning, t: nat, s: seq<Tagged>)
    requires Legal(p)
    ensures Records(TaggedBucket(rt, p, t, s)) == BucketRows(rt, p, t, Records(s))
  {
    if s != [] {
      var n := |s| - 1;
      TaggedBucketRecords(rt, p, t, s[..n]);
      assert Records(s) == Records(s[..n]) + [s[n].rec];
      BucketSnoc(rt, p, t, Records(s[..n]), s[n].rec);
    }
  }

  lemma {:induction false} TaggedBucketMembers(rt: Runtime, p: Partitioning, t: nat, s: seq<Tagged>, x: Tagged)
    requires Legal(p) && x in TaggedBucket(rt, p, t, s)
    ensures x in s && TargetOf(rt, p, x.rec) == t
  {
    var n := |s| - 1;
    if x in TaggedBucket(rt, p, t, s[..n]) { TaggedBucketMembers(rt, p, t, s[..n], x); }
  }

  lemma {:induction false} TaggedBucketTies(rt: Runtime, p: Partitioning, t: nat, ks: seq<SortKey>, s: seq<Tagged>)
    requires Legal(p) && TiesInOrder(ks, s)
    ensures TiesInOrder(ks, TaggedBucket(rt, p, t, s))
  {
    if s != [] {
      var n := |s| - 1;
      var front := TaggedBucket(rt, p, t, s[..n]);
      TaggedBucketTies(rt, p, t, ks, s[..n]);
      forall i | 0 <= i < |front| && Tied(ks, front[i].rec, s[n].rec) ensures front[i].arrival < s[n].arrival {
        TaggedBucketMembers(rt, p, t, s[..n], front[i]);
        var m :| 0 <= m < n && s[m] == front[i];
      }
    }
  }

  function TaggedBuckets(rt: Runtime, p: Partitioning, s: seq<Tagged>): (bs: seq<seq<Tagged>>)
    requires Legal(p)
    ensures |bs| == p.num
    ensures forall t :: 0 <= t < p.num ==> bs[t] == TaggedBucket(rt, p, t, s)
  {
    seq(p.num, t requires 0 <= t < p.num => TaggedBucket(rt, p, t, s))
  }

  lemma TaggedBucketsSnoc(rt: Runtime, p: Partitioning, s: seq<Tagged>, x: Tagged)
    requires Legal(p)
    ensures var bs, t := TaggedBuckets(rt, p, s), TargetOf(rt, p, x.rec);
            TaggedBuckets(rt, p, s + [x]) == bs[t := bs[t] + [x]]
  {
    var bs, bs', t := TaggedBuckets(rt, p, s), TaggedBuckets(rt, p, s + [x]), TargetOf(rt, p, x.rec);
    assert (s + [x])[..|s|] == s;
    forall k | 0 <= k < p.num ensures bs'[k] == bs[t := bs[t] + [x]][k] {
      assert bs[k] + [] == bs[k];
    }
  }

  lemma {:induction false} TaggedBucketsPartition(rt: Runtime, p: Partitioning, s: seq<Tagged>)
    requires Legal(p)
    ensures multiset(Flatten(TaggedBuckets(rt, p, s))) == multiset(s)
  {
    if s == [] {
      FlattenAllEmpty(TaggedBuckets(rt, p, s));
    } else {
      var front, x := s[..|s| - 1], s[|s| - 1];
      assert s == front + [x];
      TaggedBucketsPartition(rt, p, front);
      TaggedBucketsSnoc(rt, p, front, x);
      FlattenGain(TaggedBuckets(rt, p, front), TargetOf(rt, p, x.rec), [x]);
    }
  }

  /** Targets in id order, each sorted, are sorted throughout and lose nothing. */
  lemma FinalSortsTagged(rt: Runtime, p: Partitioning, ks: seq<SortKey>, s: seq<Tagged>, sorted: seq<seq<Record>>)
    returns (g: seq<Tagged>)
    requires Legal(p) && TiesInOrder(ks, s) && RangeOrdered(rt, p, ks, Records(s))
    requires Records(s) == Flatten(sorted)
    ensures Sorted(ks, g) && multiset(g) == multiset(s)
    ensures Records(g) == Flatten(FinalSorts(rt, p, ks, sorted))
  {
    var buckets := TaggedBuckets(rt, p, s);
    var finals := SortEach(ks, buckets);
    g := Flatten(finals);
    FlattenPermutes(finals, buckets);
    TaggedBucketsPartition(rt, p, s);
    RecordsFlatten(finals);
    forall t | 0 <= t < p.num
      ensures Sorted(ks, finals[t]) && Records(finals[t]) == FinalSorts(rt, p, ks, sorted)[t]
    {
      TaggedBucketTies(rt, p, t, ks, s);
      SortTaggedSorted(ks, buckets[t]);
      SortTaggedRecords(ks, buckets[t]);
      TaggedBucketRecords(rt, p, t, s);
      ReadIsBucketOfAll(rt, p, t, sorted);
    }
    assert RecordsEach(finals) == FinalSorts(rt, p, ks, sorted);
    forall i, j, x: Tagged, y: Tagged | 0 <= i < j < |finals| && x in finals[i] && y in finals[j] ensures CompositeBefore(ks, x, y) {
      SameMembers(finals[i], buckets[i], x);
      SameMembers(finals[j], buckets[j], y);
      TaggedBucketMembers(rt, p, i, s, x);
      TaggedBucketMembers(rt, p, j, s, y);
      InRecords(s, x);
      InRecords(s, y);
    }
    SortedFlatten(ks, finals);
  }

  lemma InRecords(s: seq<Tagged>, x: Tagged)
    requires x in s
    ensures x.rec in Records(s)
  {
    var i :| 0 <= i < |s| && s[i] == x;
    assert Records(s)[i] == x.rec;
  }

  lemma RecordsOfSame(s: seq<Tagged>, rows: seq<Record>, r: Record)
    requires multiset(s) == multiset(Tag(rows, 0)) && r in Records(s)
    ensures r in rows
  {
    var i :| 0 <= i < |s| && Records(s)[i] == r;
    SameMembers(s, Tag(rows, 0), s[i]);
  }

  // ---- the theorem ---------------------------------------------------------

  /** Local sort, range exchange and final sort yield exactly the one stable sort of
      the concatenated source partitions, ties included. */
  lemma DistributedSortIsStableSort(rt: Runtime, p: Partitioning, ks: seq<SortKey>, parts: seq<seq<Record>>)
    requires Legal(p) && RangeOrdered(rt, p, ks, Flatten(parts))
    ensures Flatten(FinalSorts(rt, p, ks, LocalSorts(ks, parts))) == StableSort(ks, Flatten(parts))
  {
    var whole := Tag(Flatten(parts), 0);
    var s := LocalSortsTagged(ks, parts);
    forall r | r in Records(s) ensures r in Flatten(parts) {
      RecordsOfSame(s, Flatten(parts), r);
    }
    var g := FinalSortsTagged(rt, p, ks, s, LocalSorts(ks, parts));
    StableSortUnique(ks, Flatten(parts), g);
  }

  // ---- when a range exchange is ordered ------------------------------------

  /** The expression a range exchange partitions on: negated for a descending key,
      so that ascending targets read back in descending order. */
  function PartitionKey(k: SortKey): Expr {
    if k.ascending then k.expr else Binary(Mul, k.expr, Literal(Num(-1.0)))
  }

  /** One target, or ascending boundaries and a primary key that is a number in
      every row: then targets are in key order. */
  lemma RangeExchangeOrdered(rt: Runtime, p: Partitioning, ks: seq<SortKey>, rows: seq<Record>)
    requires Legal(p) && ks != []
    requires p.num == 1 ||
             (p.scheme.Ranged? && NonDecreasing(p.scheme.boundaries) && p.exprs == [PartitionKey(ks[0])]
              && forall r :: r in rows ==> Eval(ks[0].expr, r).Num?)
    ensures RangeOrdered(rt, p, ks, rows)
  {
    forall a, b | a in rows && b in rows && TargetOf(rt, p, a) < TargetOf(rt, p, b)
      ensures KeyBefore(ks[0], a, b)
    {
      assert p.num != 1;
      BisectRightMonotone(p.scheme.boundaries, Eval(p.exprs[0], a), Eval(p.exprs[0], b));
      var va, vb := Eval(ks[0].expr, a), Eval(ks[0].expr, b);
      if !ks[0].ascending {
        assert Eval(p.exprs[0], a) == Num(va.n * -1.0) && Eval(p.exprs[0], b) == Num(vb.n * -1.0);
      }
    }
  }
}
