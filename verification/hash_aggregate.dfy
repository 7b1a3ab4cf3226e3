/**
 Hash aggregation of one partition with grace-hash spilling
 (minispark/physical/operators.py, `_execute_hash_aggregate_partition`,
 `_spill_groups`).  A spill file is the sequence of (key, state) items written to
 it; iterating a dict visits its items in some order.
 */
module HashAggregate {
  import opened Values
  import opened Expressions
  import opened AggregateFunctions
  import opened GroupTables
  import opened Sequences
  import opened Spilling

  const SPILL_BUCKETS: nat := 32

  datatype Entry = Entry(key: Key, state: State)

  type SpillFile = seq<Entry>

  // ---- what the files hold -------------------------------------------------

  predicate ShapedFile(n: nat, f: SpillFile) {
    forall i :: 0 <= i < |f| ==> |f[i].state| == n
  }

  ghost function FileTable(fs: seq<Expr>, f: SpillFile): (t: Table)
    requires ShapedFile(|fs|, f)
    ensures Shaped(|fs|, t)
  {
    if f == [] then map[]
    else
      var n := |f| - 1;
      MergeTables(fs, FileTable(fs, f[..n]), map[f[n].key := f[n].state])
  }

  predicate ShapedFiles(n: nat, files: seq<SpillFile>) {
    forall i :: 0 <= i < |files| ==> ShapedFile(n, files[i])
  }

  /** All of one bucket's files merged. */
  ghost function BucketTable(fs: seq<Expr>, files: seq<SpillFile>): (t: Table)
    requires ShapedFiles(|fs|, files)
    ensures Shaped(|fs|, t)
  {
    if files == [] then map[]
    else
      var n := |files| - 1;
      MergeTables(fs, BucketTable(fs, files[..n]), FileTable(fs, files[n]))
  }

  // ---- byte accounting -----------------------------------------------------

  /** The summed estimate of every group held. */
  ghost function TableBytes(size: (Key, State) -> nat, t: Table): nat {
    if t == map[] then 0
    else
      var k :| k in t;
      size(k, t[k]) + TableBytes(size, t - {k})
  }

  lemma {:induction false} TableBytesRemove(size: (Key, State) -> nat, t: Table, k: Key)
    requires k in t
    ensures TableBytes(size, t) == size(k, t[k]) + TableBytes(size, t - {k})
    decreases |t|
  {
    var k0 :| k0 in t && TableBytes(size, t) == size(k0, t[k0]) + TableBytes(size, t - {k0});
    if k0 != k {
      TableBytesRemove(size, t - {k0}, k);
      TableBytesRemove(size, t - {k}, k0);
      assert t - {k0} - {k} == t - {k} - {k0};
    }
  }

  /** Replacing one group's state changes the sum by exactly the difference the
      running counter applies. */
  lemma TableBytesUpdate(size: (Key, State) -> nat, t: Table, k: Key, s: State)
    ensures TableBytes(size, t[k := s])
            == TableBytes(size, t) - (if k in t then size(k, t[k]) else 0) + size(k, s)
  {
    TableBytesRemove(size, t[k := s], k);
    assert t[k := s] - {k} == t - {k};
    if k in t { TableBytesRemove(size, t, k); } else { assert t - {k} == t; }
  }

  // ---- spilling ------------------------------------------------------------

  /** files holds what it held before plus this table, bucket by bucket. */
  ghost predicate SpilledInto(rt: Runtime, fs: seq<Expr>, before: seq<seq<SpillFile>>, t: Table, after: seq<seq<SpillFile>>)
    requires Shaped(|fs|, t)
  {
    && |before| == |after| == SPILL_BUCKETS
    && forall b :: 0 <= b < SPILL_BUCKETS ==>
      && ShapedFiles(|fs|, before[b]) && ShapedFiles(|fs|, after[b])
      && BucketTable(fs, after[b]) == MergeTables(fs, BucketTable(fs, before[b]), Restrict(InBucket(rt, SPILL_BUCKETS, b), t))
  }

  lemma FileTableSnoc(fs: seq<Expr>, f: SpillFile, e: Entry)
    requires ShapedFile(|fs|, f) && |e.state| == |fs|
    ensures FileTable(fs, f + [e]) == MergeTables(fs, FileTable(fs, f), map[e.key := e.state])
  {
    assert (f + [e])[..|f|] == f;
  }

  lemma BucketTableSnoc(fs: seq<Expr>, files: seq<SpillFile>, f: SpillFile)
    requires ShapedFiles(|fs|, files) && ShapedFile(|fs|, f)
    ensures ShapedFiles(|fs|, files + [f])
    ensures BucketTable(fs, files + [f]) == MergeTables(fs, BucketTable(fs, files), FileTable(fs, f))
  {
    assert (files + [f])[..|files|] == files;
  }

  /** The items of `groups` in one bucket whose keys are in `done`. */
  ghost function PartOf(rt: Runtime, groups: Table, done: set<Key>, b: nat): Table {
    map k | k in groups && k in done && BucketOf(rt, SPILL_BUCKETS, k) == b :: groups[k]
  }

  /** The items of `groups` whose keys are in `done`, split by bucket. */
  ghost predicate Splits(rt: Runtime, fs: seq<Expr>, byBucket: seq<SpillFile>, groups: Table, done: set<Key>) {
    && |byBucket| == SPILL_BUCKETS
    && forall b :: 0 <= b < SPILL_BUCKETS ==>
      && ShapedFile(|fs|, byBucket[b])
      && FileTable(fs, byBucket[b]) == PartOf(rt, groups, done, b)
  }

  lemma PartOfStep(rt: Runtime, groups: Table, done: set<Key>, k: Key, c: nat)
    requires k in groups && k !in done && c < SPILL_BUCKETS
    ensures PartOf(rt, groups, done + {k}, c)
            == if c == BucketOf(rt, SPILL_BUCKETS, k) then PartOf(rt, groups, done, c)[k := groups[k]]
               else PartOf(rt, groups, done, c)
    ensures k !in PartOf(rt, groups, done, c)
  {
  }

  lemma SplitsStep(rt: Runtime, fs: seq<Expr>, byBucket: seq<SpillFile>, groups: Table, done: set<Key>, k: Key)
    requires Shaped(|fs|, groups) && Splits(rt, fs, byBucket, groups, done)
    requires k in groups && k !in done
    ensures var b := BucketOf(rt, SPILL_BUCKETS, k);
            Splits(rt, fs, byBucket[b := byBucket[b] + [Entry(k, groups[k])]], groups, done + {k})
  {
    var b, e := BucketOf(rt, SPILL_BUCKETS, k), Entry(k, groups[k]);
    var after := byBucket[b := byBucket[b] + [e]];
    forall c | 0 <= c < SPILL_BUCKETS
      ensures ShapedFile(|fs|, after[c]) && FileTable(fs, after[c]) == PartOf(rt, groups, done + {k}, c)
    {
      PartOfStep(rt, groups, done, k, c);
      if c == b {
        FileTableSnoc(fs, byBucket[b], e);
        PutIsMerge(fs, PartOf(rt, groups, done, b), k, groups[k]);
      }
    }
  }

  method SplitByBucket(rt: Runtime, ghost fs: seq<Expr>, groups: Table) returns (byBucket: seq<SpillFile>)
    requires Shaped(|fs|, groups)
    ensures Splits(rt, fs, byBucket, groups, groups.Keys)
  {
    byBucket := seq(SPILL_BUCKETS, _ => []);
    var todo := groups.Keys;
    while todo != {}
      invariant todo <= groups.Keys
      invariant Splits(rt, fs, byBucket, groups, groups.Keys - todo)
    {
      var k :| k in todo;
      SplitsStep(rt, fs, byBucket, groups, groups.Keys - todo, k);
      assert groups.Keys - todo + {k} == groups.Keys - (todo - {k});
      var b := BucketOf(rt, SPILL_BUCKETS, k);
      byBucket := byBucket[b := byBucket[b] + [Entry(k, groups[k])]];
      todo := todo - {k};
    }
    assert groups.Keys - {} == groups.Keys;
  }

  /** Bucket b's file list has taken in bucket b of the table. */
  ghost predicate Took(rt: Runtime, fs: seq<Expr>, before: seq<SpillFile>, t: Table, b: nat, after: seq<SpillFile>)
    requires Shaped(|fs|, t)
  {
    && ShapedFiles(|fs|, before) && ShapedFiles(|fs|, after)
    && BucketTable(fs, after) == MergeTables(fs, BucketTable(fs, before), Restrict(InBucket(rt, SPILL_BUCKETS, b), t))
  }

  lemma TookFile(rt: Runtime, fs: seq<Expr>, before: seq<SpillFile>, byBucket: seq<SpillFile>, groups: Table, b: nat)
    requires Shaped(|fs|, groups) && Splits(rt, fs, byBucket, groups, groups.Keys)
    requires b < SPILL_BUCKETS && ShapedFiles(|fs|, before)
    ensures Took(rt, fs, before, groups, b, before + [byBucket[b]])
    ensures byBucket[b] == [] ==> Took(rt, fs, before, groups, b, before)
  {
    assert FileTable(fs, byBucket[b]) == Restrict(InBucket(rt, SPILL_BUCKETS, b), groups);
    BucketTableSnoc(fs, before, byBucket[b]);
    MergeEmpty(fs, BucketTable(fs, before));
  }

  /** _spill_groups: one file per non-empty bucket. */
  method SpillGroups(rt: Runtime, ghost fs: seq<Expr>, groups: Table, files: seq<seq<SpillFile>>)
    returns (after: seq<seq<SpillFile>>)
    requires Shaped(|fs|, groups) && |files| == SPILL_BUCKETS
    requires forall b :: 0 <= b < SPILL_BUCKETS ==> ShapedFiles(|fs|, files[b])
    ensures SpilledInto(rt, fs, files, groups, after)
  {
    var byBucket := SplitByBucket(rt, fs, groups);
    after := files;
    for b := 0 to SPILL_BUCKETS
      invariant |after| == SPILL_BUCKETS
      invariant forall c :: b <= c < SPILL_BUCKETS ==> after[c] == files[c]
      invariant forall c :: 0 <= c < b ==> Took(rt, fs, files[c], groups, c, after[c])
    {
      TookFile(rt, fs, files[b], byBucket, groups, b);
      if byBucket[b] != [] {
        after := after[b := after[b] + [byBucket[b]]];
      }
    }
  }

  // ---- accumulation --------------------------------------------------------

  /** The files hold, bucket by bucket, the table of these rows. */
  ghost predicate FilesHold(rt: Runtime, h: HashAgg, files: seq<seq<SpillFile>>, rows: seq<Record>) {
    && |files| == SPILL_BUCKETS
    && forall b :: 0 <= b < SPILL_BUCKETS ==> BucketHolds(rt, h, files[b], rows, b)
  }

  ghost predicate BucketHolds(rt: Runtime, h: HashAgg, files: seq<SpillFile>, rows: seq<Record>, b: nat) {
    && ShapedFiles(|h.aggregates|, files)
    && BucketTable(Functions(h), files) == Restrict(InBucket(rt, SPILL_BUCKETS, b), TableOf(h, rows))
  }

  /** Two tables whose parts are in one bucket make up that bucket of all their rows. */
  lemma BucketAppend(rt: Runtime, h: HashAgg, a: seq<Record>, b: seq<Record>, bucket: nat)
    ensures var p := InBucket(rt, SPILL_BUCKETS, bucket);
            MergeTables(Functions(h), Restrict(p, TableOf(h, a)), Restrict(p, TableOf(h, b))) == Restrict(p, TableOf(h, a + b))
  {
    hide MergeTables, Restrict, TableOf;
    TableAppend(h, a, b);
    RestrictMerge(Functions(h), InBucket(rt, SPILL_BUCKETS, bucket), TableOf(h, a), TableOf(h, b));
  }

  /** Spilling the table of some rows adds those rows to what the files hold. */
  lemma FilesGain(rt: Runtime, h: HashAgg, files: seq<seq<SpillFile>>, spilled: seq<Record>, held: seq<Record>,
                  after: seq<seq<SpillFile>>)
    requires FilesHold(rt, h, files, spilled)
    requires SpilledInto(rt, Functions(h), files, TableOf(h, held), after)
    ensures FilesHold(rt, h, after, spilled + held)
  {
    hide MergeTables, Restrict, TableOf, BucketTable;
    forall b | 0 <= b < SPILL_BUCKETS ensures BucketHolds(rt, h, after[b], spilled + held, b) {
      assert BucketHolds(rt, h, files[b], spilled, b);
      BucketAppend(rt, h, spilled, held, b);
    }
  }

  /** The new state of a row's group, as the loop body computes it. */
  method NewState(h: HashAgg, groups: Table, x: Record) returns (s: State)
    requires AreAggregates(Functions(h)) && Shaped(|h.aggregates|, groups)
    requires h.isPartial ==> ValidTable(Functions(h), groups)
    ensures |s| == |h.aggregates|
    ensures groups[KeyOf(h, x) := s] == MergeTables(Functions(h), groups, Single(h, x))
  {
    hide UpdateAll, MergeAll, InitializeAll;
    var fs, k := Functions(h), KeyOf(h, x);
    PutIsMerge(fs, groups, k, Contribution(h, x));
    if h.isPartial {
      var state := if k in groups then groups[k] else InitializeAll(fs);
      InitializeAllValid(fs);
      UpdateAllIsMergeAll(fs, state, x);
      s := UpdateAll(fs, state, x);
    } else {
      var incoming := Contribution(h, x);
      s := if k in groups then MergeAll(fs, groups[k], incoming) else incoming;
    }
  }

  // ---- the merge phase -----------------------------------------------------

  lemma MergeEntry(fs: seq<Expr>, base: Table, f: SpillFile, j: nat)
    requires Shaped(|fs|, base) && ShapedFile(|fs|, f) && j < |f|
    ensures MergeTables(fs, MergeTables(fs, base, FileTable(fs, f[..j])), map[f[j].key := f[j].state])
            == MergeTables(fs, base, FileTable(fs, f[..j + 1]))
  {
    hide MergeTables;
    assert f[..j + 1] == f[..j] + [f[j]];
    FileTableSnoc(fs, f[..j], f[j]);
    MergeTablesAssociate(fs, base, FileTable(fs, f[..j]), map[f[j].key := f[j].state]);
  }

  /** Folds one spill file into a table. */
  method MergeFile(fs: seq<Expr>, base: Table, f: SpillFile) returns (merged: Table)
    requires Shaped(|fs|, base) && ShapedFile(|fs|, f)
    ensures Shaped(|fs|, merged)
    ensures merged == MergeTables(fs, base, FileTable(fs, f))
  {
    hide MergeTables, MergeAll;
    merged := base;
    MergeEmpty(fs, base);
    for j := 0 to |f|
      invariant Shaped(|fs|, merged)
      invariant merged == MergeTables(fs, base, FileTable(fs, f[..j]))
    {
      MergeEntry(fs, base, f, j);
      var e := f[j];
      PutIsMerge(fs, merged, e.key, e.state);
      merged := merged[e.key := if e.key in merged then MergeAll(fs, merged[e.key], e.state) else e.state];
    }
    assert f[..|f|] == f;
  }

  /** Folds all of one bucket's files, oldest first, into its in-memory remainder. */
  method MergeBucket(fs: seq<Expr>, base: Table, files: seq<SpillFile>) returns (merged: Table)
    requires Shaped(|fs|, base) && ShapedFiles(|fs|, files)
    ensures Shaped(|fs|, merged) && merged == MergeTables(fs, base, BucketTable(fs, files))
  {
    hide MergeTables, FileTable;
    merged := base;
    MergeEmpty(fs, base);
    for j := 0 to |files|
      invariant Shaped(|fs|, merged)
      invariant merged == MergeTables(fs, base, BucketTable(fs, files[..j]))
    {
      assert files[..j + 1] == files[..j] + [files[j]];
      BucketTableSnoc(fs, files[..j], files[j]);
      MergeTablesAssociate(fs, base, BucketTable(fs, files[..j]), FileTable(fs, files[j]));
      merged := MergeFile(fs, merged, files[j]);
    }
    assert files[..|files|] == files;
  }

  /** Yields one output row per group of a table. */
  method EmitRows(rt: Runtime, h: HashAgg, t: Table) returns (out: seq<Record>, ghost order: seq<Key>)
    requires Shaped(|h.aggregates|, t)
    ensures Lists(rt, h, out, t)
    ensures Enumerates(order, t.Keys) && out == OutputRows(rt, h, order, t)
  {
    out, order := [], [];
    var todo := t.Keys;
    while todo != {}
      invariant todo <= t.Keys
      invariant Enumerates(order, t.Keys - todo)
      invariant forall i :: 0 <= i < |order| ==> order[i] in order && order[i] in t
      invariant out == OutputRows(rt, h, order, t)
    {
      var k :| k in todo;
      out := out + [OutputRow(rt, h, k, t[k])];
      order := order + [k];
      todo := todo - {k};
    }
  }

  // ---- what memory holds ---------------------------------------------------

  /** What the table of the rows from a to b takes. */
  ghost function HeldBytes(h: HashAgg, rows: seq<Record>, size: (Key, State) -> nat): (nat, nat) -> nat {
    (a: nat, b: nat) => if a <= b <= |rows| then TableBytes(size, TableOf(h, rows[a..b])) else 0
  }

  /** How many of the first i rows have been spilled: the table in memory is of the rest. */
  ghost function SpilledBy(h: HashAgg, rows: seq<Record>, threshold: int, size: (Key, State) -> nat, i: nat): (start: nat)
    requires i <= |rows|
    ensures start <= i
  {
    HeldFrom(HeldBytes(h, rows, size), threshold, i)
  }

  lemma EmptyTable(h: HashAgg, rows: seq<Record>, i: nat, size: (Key, State) -> nat)
    requires i <= |rows|
    ensures TableOf(h, rows[i..i]) == map[] && TableBytes(size, map[]) == 0
  {
    assert rows[i..i] == [];
  }

  lemma SpilledByStep(h: HashAgg, rows: seq<Record>, threshold: int, size: (Key, State) -> nat, i: nat)
    requires i < |rows|
    ensures var start := SpilledBy(h, rows, threshold, size, i);
            SpilledBy(h, rows, threshold, size, i + 1)
            == if TableBytes(size, TableOf(h, rows[start..i + 1])) >= threshold then i + 1 else start
  {
    hide TableBytes, TableOf;
  }

  /** Folds one row into the table and the running byte count. */
  method TakeRow(h: HashAgg, groups: Table, groupsBytes: int, x: Record, size: (Key, State) -> nat)
    returns (after: Table, afterBytes: int)
    requires AreAggregates(Functions(h)) && Shaped(|h.aggregates|, groups)
    requires h.isPartial ==> ValidTable(Functions(h), groups)
    requires groupsBytes == TableBytes(size, groups)
    ensures after == MergeTables(Functions(h), groups, Single(h, x))
    ensures afterBytes == TableBytes(size, after)
  {
    var key := KeyOf(h, x);
    var state := NewState(h, groups, x);
    TableBytesUpdate(size, groups, key, state);
    afterBytes := groupsBytes;
    if key in groups {
      afterBytes := afterBytes - size(key, groups[key]);
    }
    afterBytes := afterBytes + size(key, state);
    after := groups[key := state];
  }

  /** Spills the whole table once it has grown to the threshold. */
  method SpillIfFull(rt: Runtime, h: HashAgg, groups: Table, groupsBytes: int, files: seq<seq<SpillFile>>, threshold: int,
                     ghost spilled: seq<Record>, ghost held: seq<Record>)
    returns (after: Table, afterBytes: int, afterFiles: seq<seq<SpillFile>>, full: bool)
    requires FilesHold(rt, h, files, spilled) && groups == TableOf(h, held)
    ensures full == (groupsBytes >= threshold)
    ensures full ==> after == map[] && afterBytes == 0 && FilesHold(rt, h, afterFiles, spilled + held)
    ensures !full ==> after == groups && afterBytes == groupsBytes && afterFiles == files
  {
    hide TableOf, BucketTable;
    full := groupsBytes >= threshold;
    if full {
      forall b | 0 <= b < SPILL_BUCKETS ensures ShapedFiles(|Functions(h)|, files[b]) { assert BucketHolds(rt, h, files[b], spilled, b); }
      afterFiles := SpillGroups(rt, Functions(h), groups, files);
      FilesGain(rt, h, files, spilled, held, afterFiles);
      after, afterBytes := map[], 0;
    } else {
      after, afterBytes, afterFiles := groups, groupsBytes, files;
    }
  }

  /** The loop's local variables. */
  datatype Progress = Progress(groups: Table, groupsBytes: int, files: seq<seq<SpillFile>>, spilled: bool)

  /** The loop invariant after i rows: the files are the table of the rows up to the last
      spill, memory is the table of the rows since, and the byte count is exact. */
  ghost predicate Holds(rt: Runtime, h: HashAgg, rows: seq<Record>, i: nat, p: Progress, threshold: int,
                        size: (Key, State) -> nat)
  {
    && i <= |rows|
    && var start := SpilledBy(h, rows, threshold, size, i);
       && FilesHold(rt, h, p.files, rows[..start])
       && p.groups == TableOf(h, rows[start..i])
       && p.groupsBytes == TableBytes(size, p.groups)
       && (p.spilled <==> start > 0)
  }

  lemma RowStep(h: HashAgg, rows: seq<Record>, start: nat, i: nat)
    requires start <= i < |rows|
    ensures rows[..start] + rows[start..i + 1] == rows[..i + 1]
    ensures TableOf(h, rows[start..i + 1]) == MergeTables(Functions(h), TableOf(h, rows[start..i]), Single(h, rows[i]))
  {
    hide TableOf, MergeTables, Single;
    assert rows[start..i + 1] == rows[start..i] + [rows[i]];
    TableSnoc(h, rows[start..i], rows[i]);
  }

  /** One iteration. */
  method TakeRowAndSpill(rt: Runtime, h: HashAgg, rows: seq<Record>, i: nat, p: Progress, threshold: int,
                         size: (Key, State) -> nat)
    returns (q: Progress)
    requires AreAggregates(Functions(h)) && i < |rows|
    requires Holds(rt, h, rows, i, p, threshold, size)
    ensures Holds(rt, h, rows, i + 1, q, threshold, size)
  {
    hide FilesHold, TableOf, TableBytes, MergeTables, Single, AreAggregates, SpilledBy, ValidTable;
    ghost var start := SpilledBy(h, rows, threshold, size, i);
    RowStep(h, rows, start, i);
    if h.isPartial { TableValid(h, rows[start..i]); }
    var groups, bytes := TakeRow(h, p.groups, p.groupsBytes, rows[i], size);
    var after, afterBytes, files, full := SpillIfFull(rt, h, groups, bytes, p.files, threshold, rows[..start], rows[start..i + 1]);
    q := Progress(after, afterBytes, files, p.spilled || full);
    SpilledByStep(h, rows, threshold, size, i);
    EmptyTable(h, rows, i + 1, size);
  }

  /** The accumulation loop: groups in memory, whole tables spilled at the threshold. */
  method Accumulate(rt: Runtime, h: HashAgg, rows: seq<Record>, threshold: int, size: (Key, State) -> nat)
    returns (p: Progress)
    requires AreAggregates(Functions(h))
    ensures Holds(rt, h, rows, |rows|, p, threshold, size)
    ensures threshold > 0 ==> p.groupsBytes < threshold
  {
    hide FilesHold, TableOf, TableBytes, AreAggregates, HeldFrom;
    p := Progress(map[], 0, seq(SPILL_BUCKETS, _ => []), false);
    HoldsNothing(rt, h, p.files, rows, threshold, size);
    EmptyTable(h, rows, 0, size);
    for i := 0 to |rows|
      invariant Holds(rt, h, rows, i, p, threshold, size)
      invariant threshold > 0 ==> p.groupsBytes < threshold
    {
      p := TakeRowAndSpill(rt, h, rows, i, p, threshold, size);
      EmptyTable(h, rows, i + 1, size);
      HeldBelowThreshold(HeldBytes(h, rows, size), threshold, i + 1);
    }
  }

  lemma HoldsNothing(rt: Runtime, h: HashAgg, files: seq<seq<SpillFile>>, rows: seq<Record>, threshold: int,
                     size: (Key, State) -> nat)
    requires files == seq(SPILL_BUCKETS, _ => [])
    ensures Holds(rt, h, rows, 0, Progress(map[], 0, files, false), threshold, size)
  {
    assert rows[..0] == [] && rows[0..0] == [];
    forall b | 0 <= b < SPILL_BUCKETS ensures BucketHolds(rt, h, files[b], rows[..0], b) {
      assert Restrict(InBucket(rt, SPILL_BUCKETS, b), map[]) == map[];
    }
  }

  /** The whole operator.  For every threshold, size estimate and number of spill rounds it
      outputs each group exactly once, its state merged from its rows in order except that
      the rows it had spilled come after the others; where the rows commute, or nothing was
      spilled, those are the groups of the unspilled table. */
  method ExecuteHashAggregatePartition(rt: Runtime, h: HashAgg, rows: seq<Record>, threshold: int, size: (Key, State) -> nat)
    returns (out: seq<Record>)
    requires AreAggregates(Functions(h))
    ensures var spilled := SpilledBy(h, rows, threshold, size, |rows|);
            && Lists(rt, h, out, TableOf(h, Rotated(rows, spilled)))
            && (Commuting(h, rows) || spilled == 0 ==>
                  Lists(rt, h, out, TableOf(h, rows)) && multiset(out) == multiset(AggregateRows(rt, h, rows)))
  {
    hide FilesHold, TableOf, TableBytes, AreAggregates, SpilledBy, Commuting, Lists, AggregateRows;
    var p := Accumulate(rt, h, rows, threshold, size);
    ghost var spilled := SpilledBy(h, rows, threshold, size, |rows|);
    assert rows[spilled..|rows|] == rows[spilled..];
    if !p.spilled {
      assert Rotated(rows, 0) == rows == rows[0..];
      ghost var order;
      out, order := EmitRows(rt, h, p.groups);
    } else {
      out := MergeBuckets(rt, h, p.groups, p.files, rows[spilled..], rows[..spilled]);
    }
    if Commuting(h, rows) || spilled == 0 {
      RotatedTable(h, rows, spilled);
      ListsPermute(rt, h, out, rows);
    }
  }

  /** The part of the in-memory remainder in one bucket. */
  method RemainderOf(rt: Runtime, groups: Table, b: nat) returns (part: Table)
    ensures part == Restrict(InBucket(rt, SPILL_BUCKETS, b), groups)
  {
    part := map k | k in groups && BucketOf(rt, SPILL_BUCKETS, k) == b :: groups[k];
  }

  /** One bucket: what memory holds of it, then its files. */
  method OneBucket(rt: Runtime, h: HashAgg, groups: Table, files: seq<SpillFile>, b: nat,
                   ghost held: seq<Record>, ghost spilled: seq<Record>)
    returns (merged: Table)
    requires groups == TableOf(h, held) && BucketHolds(rt, h, files, spilled, b)
    ensures merged == Restrict(InBucket(rt, SPILL_BUCKETS, b), TableOf(h, held + spilled))
  {
    hide TableOf, MergeTables, BucketTable;
    var base := RemainderOf(rt, groups, b);
    merged := MergeBucket(Functions(h), base, files);
    BucketAppend(rt, h, held, spilled, b);
  }

  /** The merge phase: one bucket at a time, remainder first, then its files. */
  method MergeBuckets(rt: Runtime, h: HashAgg, groups: Table, files: seq<seq<SpillFile>>,
                      ghost held: seq<Record>, ghost spilled: seq<Record>)
    returns (out: seq<Record>)
    requires groups == TableOf(h, held) && FilesHold(rt, h, files, spilled)
    ensures Lists(rt, h, out, TableOf(h, held + spilled))
  {
    hide TableOf, OutputRows;
    ghost var whole := TableOf(h, held + spilled);
    ghost var order: seq<Key> := [];
    out := [];
    assert OutputRows(rt, h, order, whole) == [];
    for b := 0 to SPILL_BUCKETS
      invariant ListsBelow(rt, h, SPILL_BUCKETS, out, order, whole, b)
    {
      assert BucketHolds(rt, h, files[b], spilled, b);
      var merged := OneBucket(rt, h, groups, files[b], b, held, spilled);
      var part, keys := EmitRows(rt, h, merged);
      ListsBucket(rt, h, SPILL_BUCKETS, out, order, whole, b, keys);
      out, order := out + part, order + keys;
    }
    assert Restrict(InBucketsBelow(rt, SPILL_BUCKETS, SPILL_BUCKETS), whole) == whole;
  }
}
