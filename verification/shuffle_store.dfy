/**
 Shuffle blocks: the writer, the driver's block registry, and reading blocks back
 (minispark/shuffle/writer.py, minispark/shuffle/manager.py, minispark/shuffle/reader.py).
 */
module ShuffleStore {
  import opened Options
  import opened Values
  import opened Expressions
  import opened Sequences
  import opened Shuffle

  /** stage_<stage>/partition_<target>/block_<task>. */
  datatype Path = Path(stage: nat, task: nat, target: nat)

  /** The checksum is modelled by the rows it digests: different contents have different
      checksums, so corruption is always detected. */
  datatype BlockMeta = BlockMeta(path: Path, recordCount: nat, checksum: seq<Record>)

  type Files = map<Path, seq<Record>>

  // ---- what a map task writes ----------------------------------------------

  /** The targets that receive a row, in order of first appearance. */
  function Targets(rt: Runtime, p: Partitioning, rows: seq<Record>): (ts: seq<nat>)
    requires Legal(p)
    ensures forall t :: t in ts ==> t < p.num
  {
    if rows == [] then []
    else
      var n := |rows| - 1;
      var before, t := Targets(rt, p, rows[..n]), TargetOf(rt, p, rows[n]);
      if t in before then before else before + [t]
  }

  function Block(rt: Runtime, p: Partitioning, stage: nat, task: nat, t: nat, rows: seq<Record>): BlockMeta
    requires Legal(p)
  {
    BlockMeta(Path(stage, task, t), |BucketRows(rt, p, t, rows)|, BucketRows(rt, p, t, rows))
  }

  /** One block per target that receives a row, holding exactly its rows, in order. */
  function WrittenBlocks(rt: Runtime, p: Partitioning, stage: nat, task: nat, rows: seq<Record>): (ms: seq<BlockMeta>)
    requires Legal(p)
    ensures |ms| == |Targets(rt, p, rows)|
    ensures forall i :: 0 <= i < |ms| ==> ms[i] == Block(rt, p, stage, task, Targets(rt, p, rows)[i], rows)
  {
    var ts := Targets(rt, p, rows);
    seq(|ts|, i requires 0 <= i < |ts| => Block(rt, p, stage, task, ts[i], rows))
  }

  lemma TargetsSnoc(rt: Runtime, p: Partitioning, rows: seq<Record>, x: Record)
    requires Legal(p)
    ensures var before, t := Targets(rt, p, rows), TargetOf(rt, p, x);
            Targets(rt, p, rows + [x]) == if t in before then before else before + [t]
  {
    assert (rows + [x])[..|rows|] == rows;
  }

  ghost predicate Distinct(ts: seq<nat>) {
    forall i, j :: 0 <= i < j < |ts| ==> ts[i] != ts[j]
  }

  lemma {:induction false} TargetsDistinct(rt: Runtime, p: Partitioning, rows: seq<Record>)
    requires Legal(p)
    ensures Distinct(Targets(rt, p, rows))
  {
    if rows != [] { TargetsDistinct(rt, p, rows[..|rows| - 1]); }
  }

  /** A target without a row has no block, and its bucket is empty. */
  lemma {:induction false} TargetsAre(rt: Runtime, p: Partitioning, rows: seq<Record>, t: nat)
    requires Legal(p)
    ensures t in Targets(rt, p, rows) <==> BucketRows(rt, p, t, rows) != []
  {
    if rows != [] { TargetsAre(rt, p, rows[..|rows| - 1], t); }
  }

  /** Per-target write state: an open file, a running digest and a counter. */
  class BlockWriter {
    const path: Path
    var content: seq<Record>
    var digest: seq<Record>
    var recordCount: nat

    constructor (path: Path)
      ensures this.path == path && Wrote([])
    {
      this.path := path;
      content, digest, recordCount := [], [], 0;
    }

    ghost predicate Wrote(rows: seq<Record>)
      reads this
    {
      content == rows && digest == rows && recordCount == |rows|
    }

    method Write(record: Record)
      modifies this
      ensures content == old(content) + [record] && digest == old(digest) + [record]
      ensures recordCount == old(recordCount) + 1
    {
      content := content + [record];
      digest := digest + [record];
      recordCount := recordCount + 1;
    }
  }

  /** The open writers after some rows: one per target seen, holding its rows so far. */
  ghost predicate Writing(rt: Runtime, p: Partitioning, stage: nat, task: nat, rows: seq<Record>,
                          order: seq<nat>, writers: map<nat, BlockWriter>)
    requires Legal(p)
    reads writers.Values
  {
    && order == Targets(rt, p, rows)
    && (forall t :: t in writers <==> t in order)
    && (forall t :: t in writers ==> writers[t].path == Path(stage, task, t) && writers[t].Wrote(BucketRows(rt, p, t, rows)))
    && (forall t, u :: t in writers && u in writers && t != u ==> writers[t] != writers[u])
  }

  lemma WritingNothing(rt: Runtime, p: Partitioning, stage: nat, task: nat)
    requires Legal(p)
    ensures Writing(rt, p, stage, task, [], [], map[])
  {
  }

  /** The files once these blocks are closed. */
  function Stored(files: Files, blocks: seq<BlockMeta>): Files {
    if blocks == [] then files
    else
      var n := |blocks| - 1;
      Stored(files, blocks[..n])[blocks[n].path := blocks[n].checksum]
  }

  /** write_shuffle_partition: streams the rows into one file per target that receives
      any. */
  method WriteShufflePartition(rt: Runtime, p: Partitioning, stage: nat, task: nat, rows: seq<Record>, files: Files)
    returns (blocks: seq<BlockMeta>, after: Files)
    requires Legal(p)
    ensures blocks == WrittenBlocks(rt, p, stage, task, rows)
    ensures after == Stored(files, blocks)
  {
    hide Targets, BucketRows;
    var writers: map<nat, BlockWriter> := map[];
    var order: seq<nat> := [];
    assert rows[..0] == [];
    WritingNothing(rt, p, stage, task);
    for i := 0 to |rows|
      invariant forall t :: t in writers ==> fresh(writers[t])
      invariant Writing(rt, p, stage, task, rows[..i], order, writers)
    {
      order, writers := WriteRow(rt, p, stage, task, rows[..i], rows[i], order, writers);
      assert rows[..i + 1] == rows[..i] + [rows[i]];
    }
    assert rows[..|rows|] == rows;
    blocks, after := CloseBlocks(rt, p, stage, task, rows, files, order, writers);
  }

  /** Closes the writers in the order they were opened. */
  method CloseBlocks(rt: Runtime, p: Partitioning, stage: nat, task: nat, ghost rows: seq<Record>, files: Files,
                     order: seq<nat>, writers: map<nat, BlockWriter>)
    returns (blocks: seq<BlockMeta>, after: Files)
    requires Legal(p) && Writing(rt, p, stage, task, rows, order, writers)
    ensures blocks == WrittenBlocks(rt, p, stage, task, rows)
    ensures after == Stored(files, blocks)
  {
    hide Targets, BucketRows;
    blocks, after := [], files;
    ghost var all := WrittenBlocks(rt, p, stage, task, rows);
    for i := 0 to |order|
      invariant blocks == all[..i] && after == Stored(files, blocks)
    {
      var w := writers[order[i]];
      var meta := BlockMeta(w.path, w.recordCount, w.digest);
      assert meta == all[i];
      assert (blocks + [meta])[..|blocks|] == blocks;
      blocks, after := blocks + [meta], after[w.path := w.content];
    }
    assert all[..|order|] == all;
  }

  method WriteRow(rt: Runtime, p: Partitioning, stage: nat, task: nat, ghost before: seq<Record>, record: Record,
                  order: seq<nat>, writers: map<nat, BlockWriter>)
    returns (order': seq<nat>, writers': map<nat, BlockWriter>)
    requires Legal(p) && Writing(rt, p, stage, task, before, order, writers)
    modifies writers.Values
    ensures forall t :: t in writers' ==> fresh(writers'[t]) || (t in writers && writers'[t] == writers[t])
    ensures Writing(rt, p, stage, task, before + [record], order', writers')
  {
    hide Targets, BucketRows, TargetOf;
    order', writers' := order, writers;
    var target := TargetOf(rt, p, record);
    TargetsSnoc(rt, p, before, record);
    forall t ensures BucketRows(rt, p, t, before + [record])
                     == BucketRows(rt, p, t, before) + if t == target then [record] else []
    {
      BucketSnoc(rt, p, t, before, record);
    }
    if target !in writers {
      TargetsAre(rt, p, before, target);
      var w := new BlockWriter(Path(stage, task, target));
      writers' := writers[target := w];
      order' := order + [target];
    }
    writers'[target].Write(record);
  }

  // ---- the registry --------------------------------------------------------

  function ForTarget(blocks: seq<BlockMeta>, target: nat): seq<BlockMeta> {
    if blocks == [] then []
    else
      var n := |blocks| - 1;
      ForTarget(blocks[..n], target) + if blocks[n].path.target == target then [blocks[n]] else []
  }

  class ShuffleManager {
    var blocks: map<nat, seq<BlockMeta>>

    constructor ()
      ensures blocks == map[]
    {
      blocks := map[];
    }

    /** Overwrites: the blocks of a recomputed stage replace the stale ones. */
    method RegisterBlocks(stage: nat, newBlocks: seq<BlockMeta>)
      modifies this
      ensures blocks == old(blocks)[stage := newBlocks]
    {
      blocks := blocks[stage := newBlocks];
    }
  }

  /** blocks_for: one stage's blocks of one target. */
  function BlocksIn(blocks: map<nat, seq<BlockMeta>>, stage: nat, target: nat): seq<BlockMeta> {
    if stage in blocks then ForTarget(blocks[stage], target) else []
  }

  // ---- reading back --------------------------------------------------------

  /** The rows the blocks stand for, in block order. */
  function RowsOf(blocks: seq<BlockMeta>): seq<Record> {
    if blocks == [] then [] else RowsOf(blocks[..|blocks| - 1]) + blocks[|blocks| - 1].checksum
  }

  /** The block's file is there and is what was written. */
  predicate Intact(files: Files, unreadable: set<Path>, m: BlockMeta) {
    m.path in files && m.path !in unreadable && files[m.path] == m.checksum
  }

  /** read_shuffle_blocks: every block's rows, or a report that one is gone or corrupt. */
  function ReadBlocks(files: Files, unreadable: set<Path>, blocks: seq<BlockMeta>): Option<seq<Record>> {
    if blocks == [] then Some([])
    else
      var n := |blocks| - 1;
      var before := ReadBlocks(files, unreadable, blocks[..n]);
      if before.Some? && Intact(files, unreadable, blocks[n]) then Some(before.value + files[blocks[n].path]) else None
  }

  /** A read returns what was written or reports; it reports only what it could not
      read. */
  lemma {:induction false} ReadBlocksSafe(files: Files, unreadable: set<Path>, blocks: seq<BlockMeta>)
    ensures var r := ReadBlocks(files, unreadable, blocks);
            && (r.Some? ==> r.value == RowsOf(blocks))
            && (r.None? ==> exists m :: m in blocks && !Intact(files, unreadable, m))
  {
    if blocks != [] {
      var n := |blocks| - 1;
      ReadBlocksSafe(files, unreadable, blocks[..n]);
      if ReadBlocks(files, unreadable, blocks[..n]).None? {
        var m :| m in blocks[..n] && !Intact(files, unreadable, m);
        assert m in blocks;
      }
    }
  }

  lemma {:induction false} ForTargetAppend(a: seq<BlockMeta>, b: seq<BlockMeta>, target: nat)
    ensures ForTarget(a + b, target) == ForTarget(a, target) + ForTarget(b, target)
  {
    if b == [] {
      assert a + b == a;
    } else {
      var n := |b| - 1;
      assert (a + b)[..|a + b| - 1] == a + b[..n];
      ForTargetAppend(a, b[..n], target);
    }
  }

  lemma {:induction false} RowsOfAppend(a: seq<BlockMeta>, b: seq<BlockMeta>)
    ensures RowsOf(a + b) == RowsOf(a) + RowsOf(b)
  {
    if b == [] {
      assert a + b == a;
    } else {
      var n := |b| - 1;
      assert (a + b)[..|a + b| - 1] == a + b[..n];
      RowsOfAppend(a, b[..n]);
    }
  }

  lemma {:induction false} ForTargetMembers(blocks: seq<BlockMeta>, target: nat, m: BlockMeta)
    requires m in ForTarget(blocks, target)
    ensures m in blocks && m.path.target == target
  {
    var n := |blocks| - 1;
    if m in ForTarget(blocks[..n], target) { ForTargetMembers(blocks[..n], target, m); }
  }

  lemma {:induction false} ForTargetNone(ms: seq<BlockMeta>, target: nat)
    requires forall m :: m in ms ==> m.path.target != target
    ensures ForTarget(ms, target) == []
  {
    if ms != [] {
      assert ms[|ms| - 1] in ms;
      ForTargetNone(ms[..|ms| - 1], target);
    }
  }

  lemma {:induction false} ForTargetOne(ms: seq<BlockMeta>, i: nat, target: nat)
    requires i < |ms| && ms[i].path.target == target
    requires forall j :: 0 <= j < |ms| && j != i ==> ms[j].path.target != target
    ensures ForTarget(ms, target) == [ms[i]]
  {
    var a, b := ms[..i], ms[i + 1..];
    assert ms == (a + [ms[i]]) + b;
    ForTargetAppend(a + [ms[i]], b, target);
    ForTargetAppend(a, [ms[i]], target);
    ForTargetNone(a, target);
    ForTargetNone(b, target);
    assert [ms[i]][..0] == [];
  }

  /** A map task's blocks for one target stand for exactly its rows for that target. */
  lemma WrittenRows(rt: Runtime, p: Partitioning, stage: nat, task: nat, rows: seq<Record>, t: nat)
    requires Legal(p)
    ensures RowsOf(ForTarget(WrittenBlocks(rt, p, stage, task, rows), t)) == BucketRows(rt, p, t, rows)
  {
    var ms, ts := WrittenBlocks(rt, p, stage, task, rows), Targets(rt, p, rows);
    TargetsDistinct(rt, p, rows);
    TargetsAre(rt, p, rows, t);
    if t in ts {
      var i :| 0 <= i < |ts| && ts[i] == t;
      ForTargetOne(ms, i, t);
      assert RowsOf([ms[i]]) == RowsOf([]) + ms[i].checksum;
    } else {
      forall m | m in ms ensures m.path.target != t {
        var i :| 0 <= i < |ms| && ms[i] == m;
        assert ts[i] in ts;
      }
      ForTargetNone(ms, t);
    }
  }

  /** Closing the blocks of one task touches no other task's files. */
  lemma {:induction false} StoredElsewhere(files: Files, blocks: seq<BlockMeta>, task: nat)
    requires forall m :: m in blocks ==> m.path.task == task
    ensures forall q :: q in files && q.task != task ==> q in Stored(files, blocks) && Stored(files, blocks)[q] == files[q]
  {
    if blocks != [] {
      assert blocks[|blocks| - 1] in blocks;
      StoredElsewhere(files, blocks[..|blocks| - 1], task);
    }
  }

  lemma {:induction false} StoredHolds(files: Files, blocks: seq<BlockMeta>, m: BlockMeta)
    requires m in blocks
    requires forall i, j :: 0 <= i < j < |blocks| ==> blocks[i].path != blocks[j].path
    ensures m.path in Stored(files, blocks) && Stored(files, blocks)[m.path] == m.checksum
  {
    var n := |blocks| - 1;
    if m != blocks[n] {
      StoredHolds(files, blocks[..n], m);
      var i :| 0 <= i < n && blocks[i] == m;
    }
  }

  // ---- a whole stage run ---------------------------------------------------

  /** The blocks of one run of a stage whose tasks, numbered from `first`, computed
      `outs`: in task order. */
  function OutputBlocks(rt: Runtime, p: Partitioning, stage: nat, first: nat, outs: seq<seq<Record>>): seq<BlockMeta>
    requires Legal(p)
  {
    if outs == [] then []
    else
      var n := |outs| - 1;
      OutputBlocks(rt, p, stage, first, outs[..n]) + WrittenBlocks(rt, p, stage, first + n, outs[n])
  }

  lemma ReadAppend(a: seq<BlockMeta>, b: seq<BlockMeta>, t: nat)
    ensures RowsOf(ForTarget(a + b, t)) == RowsOf(ForTarget(a, t)) + RowsOf(ForTarget(b, t))
  {
    ForTargetAppend(a, b, t);
    RowsOfAppend(ForTarget(a, t), ForTarget(b, t));
  }

  /** What a target reads from a run's blocks is its rows from every task, in task order. */
  lemma {:induction false} OutputBlocksRows(rt: Runtime, p: Partitioning, stage: nat, first: nat, outs: seq<seq<Record>>, t: nat)
    requires Legal(p)
    ensures RowsOf(ForTarget(OutputBlocks(rt, p, stage, first, outs), t)) == ReadBucket(rt, p, t, outs)
  {
    if outs != [] {
      var n := |outs| - 1;
      var before, here := OutputBlocks(rt, p, stage, first, outs[..n]), WrittenBlocks(rt, p, stage, first + n, outs[n]);
      OutputBlocksRows(rt, p, stage, first, outs[..n], t);
      assert OutputBlocks(rt, p, stage, first, outs) == before + here;
      ReadAppend(before, here, t);
      WrittenRows(rt, p, stage, first + n, outs[n], t);
      assert ReadBucket(rt, p, t, outs) == ReadBucket(rt, p, t, outs[..n]) + BucketRows(rt, p, t, outs[n]);
    }
  }

  lemma {:induction false} OutputBlocksStage(rt: Runtime, p: Partitioning, stage: nat, first: nat, outs: seq<seq<Record>>)
    requires Legal(p)
    ensures forall m :: m in OutputBlocks(rt, p, stage, first, outs) ==>
              m.path.stage == stage && first <= m.path.task < first + |outs|
  {
    if outs != [] { OutputBlocksStage(rt, p, stage, first, outs[..|outs| - 1]); }
  }
}
