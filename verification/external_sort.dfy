/**
 The external merge sort of one partition
 (minispark/physical/operators.py, `_execute_sort_partition`).
 A spill file is the sequence of items written to it.
 */
module ExternalSort {
  import opened Values
  import opened Expressions
  import opened Sequences
  import opened Sorting
  import opened Spilling

  function TotalSize(size: Record -> nat, rows: seq<Record>): nat {
    if rows == [] then 0 else TotalSize(size, rows[..|rows| - 1]) + size(rows[|rows| - 1])
  }

  /** _sort_rows: one stable pass per key, last key first. */
  method SortRows(rows: seq<Tagged>, ks: seq<SortKey>) returns (r: seq<Tagged>)
    ensures r == SortPasses(ks, rows)
  {
    r := rows;
    var i := |ks|;
    while i > 0
      invariant 0 <= i <= |ks|
      invariant r == SortPasses(ks[i..], rows)
    {
      i := i - 1;
      assert ks[i..][1..] == ks[i + 1..];
      r := StablePass(ks[i], r);
    }
    assert ks[0..] == ks;
  }

  /** No two rows share an arrival number. */
  ghost predicate Distinct(s: seq<Tagged>) {
    forall i, j :: 0 <= i < j < |s| ==> s[i].arrival != s[j].arrival
  }

  lemma {:induction false} DistinctOnce(s: seq<Tagged>, x: Tagged)
    requires Distinct(s)
    ensures multiset(s)[x] <= 1
  {
    if s != [] {
      DistinctOnce(s[1..], x);
      assert s == [s[0]] + s[1..];
      if x == s[0] { assert x !in s[1..]; }
    }
  }

  /** Distinctness does not depend on order. */
  lemma DistinctPermutes(s: seq<Tagged>, t: seq<Tagged>)
    requires Distinct(t) && multiset(s) == multiset(t)
    ensures Distinct(s)
  {
    forall i, j | 0 <= i < j < |s| ensures s[i].arrival != s[j].arrival {
      SameMembers(s, t, s[i]);
      SameMembers(s, t, s[j]);
      var p :| 0 <= p < |t| && t[p] == s[i];
      var q :| 0 <= q < |t| && t[q] == s[j];
      if s[i] == s[j] {
        DistinctOnce(t, s[i]);
        Twice(s, i, j);
      }
    }
  }

  ghost predicate AllSorted(ks: seq<SortKey>, runs: seq<seq<Tagged>>) {
    forall k :: 0 <= k < |runs| ==> Sorted(ks, runs[k])
  }

  ghost predicate AllBefore(ks: seq<SortKey>, s: seq<Tagged>, t: seq<Tagged>) {
    forall i, j :: 0 <= i < |s| && 0 <= j < |t| ==> CompositeBefore(ks, s[i], t[j])
  }

  lemma HeadIsLeast(ks: seq<SortKey>, runs: seq<seq<Tagged>>, best: nat, y: Tagged)
    requires best < |runs| && runs[best] != [] && AllSorted(ks, runs)
    requires forall k :: 0 <= k < |runs| && runs[k] != [] ==> !CompositeBefore(ks, runs[k][0], runs[best][0])
    requires y in Flatten(runs) && y.arrival != runs[best][0].arrival
    requires Distinct(Flatten(runs))
    ensures CompositeBefore(ks, runs[best][0], y)
  {
    InFlatten(runs, y);
    var k :| 0 <= k < |runs| && y in runs[k];
    var h, b := runs[k][0], runs[best][0];
    InFlatten(runs, h);
    InFlatten(runs, b);
    assert h in runs[k] && b in runs[best];
    BeforeLaws(ks, h.rec, b.rec);
    BeforeLaws(ks, b.rec, h.rec);
    assert h == b || CompositeBefore(ks, b, h);
    if y != h {
      var m :| 0 <= m < |runs[k]| && runs[k][m] == y;
      assert CompositeBefore(ks, h, runs[k][m]);
      if h != b { CompositeTransitive(ks, b, h, y); }
    }
  }

  /** The run whose head has the least composite key. */
  method LeastRun(runs: seq<seq<Tagged>>, ks: seq<SortKey>, first: nat) returns (best: nat)
    requires first < |runs| && runs[first] != []
    ensures best < |runs| && runs[best] != []
    ensures forall k :: 0 <= k < |runs| && runs[k] != [] ==> !CompositeBefore(ks, runs[k][0], runs[best][0])
  {
    best := first;
    var k := 0;
    while k < |runs|
      invariant 0 <= k <= |runs|
      invariant best < |runs| && runs[best] != []
      invariant forall m :: 0 <= m < k && runs[m] != [] ==> !CompositeBefore(ks, runs[m][0], runs[best][0])
    {
      if runs[k] != [] {
        CompositeKeyOrder(ks, runs[k][0], runs[best][0]);
        if TupleLess(CompositeSortKey(ks, runs[k][0]), CompositeSortKey(ks, runs[best][0])) {
          forall m | 0 <= m <= k && runs[m] != []
            ensures !CompositeBefore(ks, runs[m][0], runs[k][0])
          {
            if CompositeBefore(ks, runs[m][0], runs[k][0]) {
              CompositeTransitive(ks, runs[m][0], runs[k][0], runs[best][0]);
              CompositeAsymmetric(ks, runs[k][0], runs[k][0]);
            }
          }
          best := k;
        }
      }
      k := k + 1;
    }
  }

  lemma DropOne(s: seq<Tagged>, p: nat)
    requires p < |s| && Distinct(s)
    ensures Distinct(s[..p] + s[p + 1..])
    ensures forall y :: y in s[..p] + s[p + 1..] ==> y in s && y.arrival != s[p].arrival
  {
  }

  /** What taking the least head off keeps true. */
  lemma MergeStep(ks: seq<SortKey>, out: seq<Tagged>, runs: seq<seq<Tagged>>, best: nat, rest: seq<seq<Tagged>>)
    requires best < |runs| && runs[best] != [] && AllSorted(ks, runs)
    requires rest == runs[best := runs[best][1..]]
    requires forall k :: 0 <= k < |runs| && runs[k] != [] ==> !CompositeBefore(ks, runs[k][0], runs[best][0])
    requires Distinct(Flatten(runs)) && AllBefore(ks, out, Flatten(runs))
    ensures Distinct(Flatten(rest)) && |Flatten(rest)| < |Flatten(runs)|
    ensures multiset(Flatten(runs)) == multiset(Flatten(rest)) + multiset{runs[best][0]}
    ensures AllBefore(ks, out + [runs[best][0]], Flatten(rest))
    ensures forall i :: 0 <= i < |out| ==> CompositeBefore(ks, out[i], runs[best][0])
  {
    hide CompositeBefore, Flatten;
    var p := FlattenDropHead(runs, best);
    var all, left, head := Flatten(runs), Flatten(rest), runs[best][0];
    RemoveOne(all, p);
    DropOne(all, p);
    forall i, j | 0 <= i < |out| + 1 && 0 <= j < |left|
      ensures CompositeBefore(ks, (out + [head])[i], left[j])
    {
      if i < |out| {
        var q :| 0 <= q < |all| && all[q] == left[j];
        assert CompositeBefore(ks, out[i], all[q]);
      } else {
        HeadIsLeast(ks, runs, best, left[j]);
      }
    }
  }

  /** The merge's loop invariant. */
  ghost predicate Merging(ks: seq<SortKey>, runs: seq<seq<Tagged>>, out: seq<Tagged>, rest: seq<seq<Tagged>>) {
    && AllSorted(ks, rest) && Distinct(Flatten(rest))
    && multiset(Flatten(runs)) == multiset(Flatten(rest)) + multiset(out)
    && Sorted(ks, out) && AllBefore(ks, out, Flatten(rest))
  }

  lemma MergingStep(ks: seq<SortKey>, runs: seq<seq<Tagged>>, out: seq<Tagged>, rest: seq<seq<Tagged>>, best: nat)
    requires Merging(ks, runs, out, rest) && best < |rest| && rest[best] != []
    requires forall k :: 0 <= k < |rest| && rest[k] != [] ==> !CompositeBefore(ks, rest[k][0], rest[best][0])
    ensures var after := rest[best := rest[best][1..]];
            Merging(ks, runs, out + [rest[best][0]], after) && |Flatten(after)| < |Flatten(rest)|
  {
    hide CompositeBefore, Flatten, AllBefore, Distinct;
    var after, head := rest[best := rest[best][1..]], rest[best][0];
    MergeStep(ks, out, rest, best, after);
    assert multiset(out + [head]) == multiset(out) + multiset{head};
  }

  /** heapq.merge over sorted runs, comparing composite keys: the least head goes
      out next. */
  method MergeRuns(runs: seq<seq<Tagged>>, ks: seq<SortKey>) returns (out: seq<Tagged>)
    requires AllSorted(ks, runs) && Distinct(Flatten(runs))
    ensures Sorted(ks, out)
    ensures multiset(out) == multiset(Flatten(runs))
  {
    out := [];
    var rest := runs;
    while exists k :: 0 <= k < |rest| && rest[k] != []
      invariant Merging(ks, runs, out, rest)
      decreases |Flatten(rest)|
    {
      var first: nat :| first < |rest| && rest[first] != [];
      var best := LeastRun(rest, ks, first);
      MergingStep(ks, runs, out, rest, best);
      out, rest := out + [rest[best][0]], rest[best := rest[best][1..]];
    }
    FlattenAllEmpty(rest);
  }

  /** What the rows from a to b take in the buffer. */
  ghost function BufferBytes(parent: seq<Record>, size: Record -> nat): (nat, nat) -> nat {
    (a: nat, b: nat) => if a <= b <= |parent| then TotalSize(size, parent[a..b]) else 0
  }

  /** The row that the buffer begins at after i rows. */
  ghost function BufferFrom(parent: seq<Record>, threshold: int, size: Record -> nat, i: nat): (start: nat)
    requires i <= |parent|
    ensures start <= i
  {
    HeldFrom(BufferBytes(parent, size), threshold, i)
  }

  lemma TagSplit(rows: seq<Record>, start: nat, i: nat)
    requires start <= i <= |rows|
    ensures Tag(rows[..i], 0) == Tag(rows[..start], 0) + Tag(rows[start..i], start)
  {
  }

  lemma MultisetParts(whole: seq<Tagged>, a: seq<Tagged>, b: seq<Tagged>, a': seq<Tagged>, b': seq<Tagged>)
    requires whole == a + b && multiset(a') == multiset(a) && multiset(b') == multiset(b)
    ensures multiset(a' + b') == multiset(whole) && multiset(b' + a') == multiset(whole)
  {
  }

  /** Writing the buffer out as one more sorted run loses and adds nothing. */
  lemma SpillStep(ks: seq<SortKey>, parent: seq<Record>, start: nat, i: nat,
                  files: seq<seq<Tagged>>, run: seq<Tagged>)
    requires start <= i <= |parent|
    requires AllSorted(ks, files) && multiset(Flatten(files)) == multiset(Tag(parent[..start], 0))
    requires run == SortPasses(ks, Tag(parent[start..i], start))
    ensures AllSorted(ks, files + [run]) && AllSorted(ks, [run] + files)
    ensures multiset(Flatten(files + [run])) == multiset(Tag(parent[..i], 0))
    ensures multiset(Flatten([run] + files)) == multiset(Tag(parent[..i], 0))
  {
    var buffer := Tag(parent[start..i], start);
    SortPassesSorted(ks, buffer);
    FlattenSnoc(files, run);
    assert Flatten([run] + files) == run + Flatten(files) by {
      assert ([run] + files)[1..] == files;
    }
    TagSplit(parent, start, i);
    MultisetParts(Tag(parent[..i], 0), Tag(parent[..start], 0), buffer, Flatten(files), run);
  }

  lemma BufferStep(parent: seq<Record>, start: nat, i: nat, size: Record -> nat)
    requires start <= i < |parent|
    ensures Tag(parent[start..i + 1], start) == Tag(parent[start..i], start) + [Tagged(i, parent[i])]
    ensures TotalSize(size, parent[start..i + 1]) == TotalSize(size, parent[start..i]) + size(parent[i])
  {
    assert parent[start..i + 1][..i - start] == parent[start..i];
  }

  lemma BufferEmpty(parent: seq<Record>, i: nat, size: Record -> nat)
    requires i <= |parent|
    ensures Tag(parent[i..i], i) == [] && TotalSize(size, parent[i..i]) == 0
  {
  }

  /** The loop's local variables. */
  datatype Progress = Progress(buffer: seq<Tagged>, bufferBytes: int, spillFiles: seq<seq<Tagged>>)

  /** The loop invariant after i rows: the runs are sorted and hold the rows up to the
      last spill, the buffer holds the rest in arrival order, and the byte count is
      exact. */
  ghost predicate Holds(ks: seq<SortKey>, parent: seq<Record>, i: nat, p: Progress, threshold: int, size: Record -> nat) {
    && i <= |parent|
    && var start := BufferFrom(parent, threshold, size, i);
       && p.buffer == Tag(parent[start..i], start)
       && p.bufferBytes == TotalSize(size, parent[start..i])
       && AllSorted(ks, p.spillFiles)
       && multiset(Flatten(p.spillFiles)) == multiset(Tag(parent[..start], 0))
       && (p.spillFiles == [] <==> start == 0)
  }

  /** One iteration: buffer the row, and write a sorted run once the buffer is full. */
  method TakeRowAndSpill(ks: seq<SortKey>, parent: seq<Record>, i: nat, p: Progress, threshold: int, size: Record -> nat)
    returns (q: Progress)
    requires Holds(ks, parent, i, p, threshold, size) && i < |parent|
    ensures Holds(ks, parent, i + 1, q, threshold, size)
  {
    hide Flatten, SortPasses, AllSorted, TotalSize, Tag;
    ghost var start := BufferFrom(parent, threshold, size, i);
    BufferStep(parent, start, i, size);
    BufferEmpty(parent, i + 1, size);
    var buffer := p.buffer + [Tagged(i, parent[i])];
    var bytes := p.bufferBytes + size(parent[i]);
    if bytes >= threshold {
      var run := SortRows(buffer, ks);
      SpillStep(ks, parent, start, i + 1, p.spillFiles, run);
      q := Progress([], 0, p.spillFiles + [run]);
    } else {
      q := Progress(buffer, bytes, p.spillFiles);
    }
  }

  lemma HoldsNothing(ks: seq<SortKey>, parent: seq<Record>, threshold: int, size: Record -> nat)
    ensures Holds(ks, parent, 0, Progress([], 0, []), threshold, size)
  {
    BufferEmpty(parent, 0, size);
  }

  /** The buffering loop: rows in memory, sorted runs written at the threshold. */
  method BufferRows(ks: seq<SortKey>, parent: seq<Record>, threshold: int, size: Record -> nat) returns (p: Progress)
    ensures Holds(ks, parent, |parent|, p, threshold, size)
    ensures threshold > 0 ==> p.bufferBytes < threshold
  {
    hide TotalSize, AllSorted, Flatten, Tag, HeldFrom;
    p := Progress([], 0, []);
    HoldsNothing(ks, parent, threshold, size);
    for i := 0 to |parent|
      invariant Holds(ks, parent, i, p, threshold, size)
      invariant threshold > 0 ==> p.bufferBytes < threshold
    {
      p := TakeRowAndSpill(ks, parent, i, p, threshold, size);
      BufferEmpty(parent, i + 1, size);
      HeldBelowThreshold(BufferBytes(parent, size), threshold, i + 1);
    }
  }

  /** The external merge sort.  Whatever the threshold and the size estimate, the
      output is the one stable sort of the partition. */
  method ExecuteSortPartition(parent: seq<Record>, ks: seq<SortKey>, threshold: int, size: Record -> nat)
    returns (out: seq<Record>)
    ensures out == StableSort(ks, parent)
  {
    var p := BufferRows(ks, parent, threshold, size);
    ghost var start := BufferFrom(parent, threshold, size, |parent|);
    var lastRun := SortRows(p.buffer, ks);
    assert parent[..|parent|] == parent;
    if p.spillFiles == [] {
      SortPassesIsStableSort(ks, parent, 0);
      out := Records(lastRun);
    } else {
      SpillStep(ks, parent, start, |parent|, p.spillFiles, lastRun);
      DistinctPermutes(Flatten([lastRun] + p.spillFiles), Tag(parent, 0));
      var merged := MergeRuns([lastRun] + p.spillFiles, ks);
      StableSortUnique(ks, parent, merged);
      out := Records(merged);
    }
  }
}
