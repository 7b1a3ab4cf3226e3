/**
 Tasks, faults and the state one run of the scheduler works on, with the invariant it
 keeps (minispark/execution/tasks.py, minispark/execution/scheduler.py).
 */
module SchedulerState {
  import opened Options
  import opened Values
  import opened Expressions
  import opened Sequences
  import opened Shuffle
  import opened Physical
  import opened Stages
  import opened ShuffleStore

  /** `blocks` lists, per stage read, the blocks to read: fixed when the task is built or
      rebuilt. */
  datatype Task = Task(taskId: nat, stageId: nat, partitionId: nat, plan: PhysicalPlan, blocks: map<nat, seq<BlockMeta>>)

  /** A task waiting to run, and how many of its retries are spent. */
  datatype Attempt = Attempt(task: Task, number: nat)

  /** A failure names the stage whose blocks it missed, if that was why, and the execution
      that failed. */
  datatype TaskResult =
    | Succeeded(rows: seq<Record>, blocks: seq<BlockMeta>)
    | Failed(missingStage: Option<nat>, execution: nat)

  datatype StageMetrics = StageMetrics(stageId: nat, recomputed: bool, retriedTasks: nat)

  /** What goes wrong, decided per task execution (counted over the whole run): whether
      it fails on its own, what it has then written, and which block files it finds gone
      or corrupt, for good or only this time. */
  datatype Faults = Faults(ordinary: nat -> bool, debris: nat -> map<nat, seq<Record>>, unreadable: nat -> set<Path>)

  /** What the proof remembers of a run: the tasks that succeeded, the first task id of
      each stage's latest completed run, the stages whose runs were started, the failed
      executions the scheduler has dealt with, each with the stage it missed, and those of
      them held against their task, each with its task. */
  datatype Log = Log(
    completed: set<nat>,
    generation: map<nat, nat>,
    runs: seq<nat>,
    dealt: map<nat, Option<nat>>,
    spent: map<nat, nat>)

  /** The state of a run at one moment. */
  datatype Snapshot = Snapshot(
    files: Files,
    blocks: map<nat, seq<BlockMeta>>,
    nextTaskId: nat,
    recomputed: set<nat>,
    metrics: seq<StageMetrics>,
    executions: nat,
    log: Log)

  /** Stages as build_stages makes them. */
  ghost predicate Sound(stages: seq<Stage>) {
    forall k :: 0 <= k < |stages| ==>
      StageOk(stages[k], k) && (stages[k].plan.ShuffleWriteExec? ==> WritesLegally(stages[k]))
  }

  predicate Writes(stages: seq<Stage>, k: nat) {
    k < |stages| && WritesLegally(stages[k])
  }

  // ---- resolving and reading blocks ----------------------------------------

  /** _resolve_shuffle_blocks. */
  function ResolveBlocks(blocks: map<nat, seq<BlockMeta>>, leaves: seq<ReadLeaf>, pid: nat): (m: map<nat, seq<BlockMeta>>)
    ensures forall i :: 0 <= i < |leaves| ==> leaves[i].fromStage in m
  {
    if leaves == [] then map[]
    else
      var n := |leaves| - 1;
      ResolveBlocks(blocks, leaves[..n], pid)[leaves[n].fromStage := BlocksIn(blocks, leaves[n].fromStage, TargetFor(leaves[n], pid))]
  }

  datatype Gathered = Inputs(inputs: map<nat, seq<Record>>) | MissingStage(stage: nat)

  predicate Listed(blocks: map<nat, seq<BlockMeta>>, leaves: seq<ReadLeaf>) {
    forall i :: 0 <= i < |leaves| ==> leaves[i].fromStage in blocks
  }

  /** Reads every leaf's blocks in turn; the first unreadable one is reported. */
  function Gather(files: Files, unreadable: set<Path>, blocks: map<nat, seq<BlockMeta>>, leaves: seq<ReadLeaf>): Gathered
    requires Listed(blocks, leaves)
  {
    if leaves == [] then Inputs(map[])
    else
      var n := |leaves| - 1;
      var before, f := Gather(files, unreadable, blocks, leaves[..n]), leaves[n].fromStage;
      if before.MissingStage? then before
      else match ReadBlocks(files, unreadable, blocks[f])
        case None => MissingStage(f)
        case Some(rows) => Inputs(before.inputs[f := rows])
  }

  // ---- what a completed stage run has registered ---------------------------

  /** The blocks of one run of stage k whose tasks are numbered from `first`. */
  ghost function StageBlocks(rt: Runtime, stages: seq<Stage>, k: nat, first: nat): seq<BlockMeta>
    requires Writes(stages, k)
  {
    OutputBlocks(rt, stages[k].plan.part, k, first, StageOutput(rt, stages, k))
  }

  // ---- the invariant -------------------------------------------------------

  /** The blocks were written by completed tasks, and their files still hold them. */
  ghost predicate Held(s: Snapshot, blocks: seq<BlockMeta>) {
    forall m :: m in blocks ==>
      m.path.task in s.log.completed && m.path in s.files && s.files[m.path] == m.checksum
  }

  /** Every registered stage is registered with the blocks of one whole run of it, in
      task order: its latest completed run. */
  ghost predicate Registered(rt: Runtime, stages: seq<Stage>, s: Snapshot, k: nat)
    requires k in s.blocks
  {
    && Writes(stages, k) && k in s.log.generation
    && s.blocks[k] == StageBlocks(rt, stages, k, s.log.generation[k])
    && Held(s, s.blocks[k])
  }

  /** Some execution that has been dealt with reported stage k missing. */
  ghost predicate Missed(dealt: map<nat, Option<nat>>, k: nat) {
    exists n :: n in dealt && dealt[n] == Some(k)
  }

  ghost predicate Consistent(rt: Runtime, stages: seq<Stage>, s: Snapshot) {
    && (forall k :: k in s.blocks ==> Registered(rt, stages, s, k))
    && (forall id :: id in s.log.completed ==> id < s.nextTaskId)
    && (forall k :: k in s.recomputed ==> k < |stages| && Missed(s.log.dealt, k))
  }

  /** Every stage below k that writes blocks has them registered. */
  ghost predicate Ready(stages: seq<Stage>, s: Snapshot, k: nat) {
    forall j :: 0 <= j < k && Writes(stages, j) ==> j in s.blocks
  }

  /** From a to b nothing a completed task wrote was touched, and nothing registered or
      reported was forgotten. */
  ghost predicate Kept(a: Snapshot, b: Snapshot) {
    && a.log.completed <= b.log.completed
    && (forall q :: q in a.files && q.task in a.log.completed ==> q in b.files && b.files[q] == a.files[q])
    && a.blocks.Keys <= b.blocks.Keys
    && a.recomputed <= b.recomputed
    && a.nextTaskId <= b.nextTaskId
    && a.executions <= b.executions
    && (forall n :: n in a.log.dealt ==> n in b.log.dealt && b.log.dealt[n] == a.log.dealt[n])
    && (forall n :: n in a.log.spent ==> n in b.log.spent && b.log.spent[n] == a.log.spent[n])
  }

  /** From a to b only tasks numbered from `first` on have completed. */
  ghost predicate OnlyFrom(a: Snapshot, b: Snapshot, first: nat) {
    forall id :: id in b.log.completed && id !in a.log.completed ==> id >= first
  }

  /** The failures held against a task. */
  ghost function SpentBy(s: Snapshot, id: nat): set<nat> {
    set n | n in s.log.spent && s.log.spent[n] == id
  }

  /** From a to b failures were held only against tasks numbered from `first` on, and
      against those in `own`. */
  ghost predicate SpentFrom(a: Snapshot, b: Snapshot, first: nat, own: set<nat>) {
    forall n :: n in b.log.spent && n !in a.log.spent ==> b.log.spent[n] >= first || b.log.spent[n] in own
  }

  lemma SpentSame(a: Snapshot, b: Snapshot, first: nat, own: set<nat>, id: nat)
    requires Kept(a, b) && SpentFrom(a, b, first, own) && id < first && id !in own
    ensures SpentBy(a, id) == SpentBy(b, id)
  {
  }

  lemma HeldKept(a: Snapshot, b: Snapshot, blocks: seq<BlockMeta>)
    requires Kept(a, b) && Held(a, blocks)
    ensures Held(b, blocks)
  {
  }

  lemma KeptTrans(a: Snapshot, b: Snapshot, c: Snapshot)
    requires Kept(a, b) && Kept(b, c)
    ensures Kept(a, c)
    ensures forall first :: OnlyFrom(a, b, first) && OnlyFrom(b, c, first) ==> OnlyFrom(a, c, first)
  {
  }

  lemma ReadyKept(stages: seq<Stage>, a: Snapshot, b: Snapshot, k: nat)
    requires Kept(a, b) && Ready(stages, a, k)
    ensures Ready(stages, b, k)
  {
    forall j | 0 <= j < k && Writes(stages, j) ensures j in b.blocks { assert j in a.blocks.Keys; }
  }

  // ---- good tasks and good results -----------------------------------------

  /** A leaf's blocks are held and stand for what the fault-free run reads there. */
  ghost predicate GoodLeaf(rt: Runtime, stages: seq<Stage>, s: Snapshot, k: nat, p: nat, leaf: ReadLeaf, blocks: seq<BlockMeta>)
    requires k < |stages|
  {
    && Held(s, blocks)
    && RowsOf(blocks) == LeafRows(rt, stages, k, leaf, p)
    && forall m :: m in blocks ==> m.path.stage == leaf.fromStage
  }

  ghost predicate GoodLeaves(rt: Runtime, stages: seq<Stage>, s: Snapshot, k: nat, p: nat, leaves: seq<ReadLeaf>,
                             blocks: map<nat, seq<BlockMeta>>)
    requires k < |stages|
  {
    Listed(blocks, leaves) &&
    forall i :: 0 <= i < |leaves| ==> GoodLeaf(rt, stages, s, k, p, leaves[i], blocks[leaves[i].fromStage])
  }

  /** A task of stage k, not yet completed, whose block lists are good, of whatever
      generations they are. */
  ghost predicate GoodTask(rt: Runtime, stages: seq<Stage>, s: Snapshot, k: nat, task: Task) {
    && k < |stages| && task.stageId == k && task.plan == stages[k].plan
    && task.taskId < s.nextTaskId && task.taskId !in s.log.completed
    && GoodLeaves(rt, stages, s, k, task.partitionId, ReadLeaves(stages[k].plan), task.blocks)
  }

  /** Task id of stage k computed partition p, right. */
  ghost predicate GoodSuccess(rt: Runtime, stages: seq<Stage>, s: Snapshot, k: nat, p: nat, id: nat, result: TaskResult) {
    && k < |stages| && result.Succeeded? && id in s.log.completed
    && if stages[k].plan.ShuffleWriteExec? then
         && Writes(stages, k) && result.rows == [] && Held(s, result.blocks)
         && result.blocks == WrittenBlocks(rt, stages[k].plan.part, k, id, TaskRows(rt, stages, k, p))
       else result.rows == TaskRows(rt, stages, k, p) && result.blocks == []
  }

  lemma GoodTaskKept(rt: Runtime, stages: seq<Stage>, a: Snapshot, b: Snapshot, k: nat, task: Task)
    requires GoodTask(rt, stages, a, k, task) && Kept(a, b) && task.taskId !in b.log.completed
    ensures GoodTask(rt, stages, b, k, task)
  {
    var leaves := ReadLeaves(stages[k].plan);
    forall i | 0 <= i < |leaves|
      ensures GoodLeaf(rt, stages, b, k, task.partitionId, leaves[i], task.blocks[leaves[i].fromStage])
    {
      HeldKept(a, b, task.blocks[leaves[i].fromStage]);
    }
  }

  lemma GoodSuccessKept(rt: Runtime, stages: seq<Stage>, a: Snapshot, b: Snapshot, k: nat, p: nat, id: nat, result: TaskResult)
    requires GoodSuccess(rt, stages, a, k, p, id, result) && Kept(a, b)
    ensures GoodSuccess(rt, stages, b, k, p, id, result)
  {
    if stages[k].plan.ShuffleWriteExec? { HeldKept(a, b, result.blocks); }
  }

  /** What the registry gives for a leaf is good. */
  lemma ResolvedLeaf(rt: Runtime, stages: seq<Stage>, s: Snapshot, k: nat, p: nat, leaf: ReadLeaf)
    requires Consistent(rt, stages, s) && Ready(stages, s, k) && k < |stages| && leaf.fromStage < k
    ensures GoodLeaf(rt, stages, s, k, p, leaf, BlocksIn(s.blocks, leaf.fromStage, TargetFor(leaf, p)))
  {
    var f, t := leaf.fromStage, TargetFor(leaf, p);
    forall m | m in BlocksIn(s.blocks, f, t) ensures m in s.blocks[f] { ForTargetMembers(s.blocks[f], t, m); }
    if f in s.blocks {
      assert Registered(rt, stages, s, f);
      OutputBlocksRows(rt, stages[f].plan.part, f, s.log.generation[f], StageOutput(rt, stages, f), t);
      OutputBlocksStage(rt, stages[f].plan.part, f, s.log.generation[f], StageOutput(rt, stages, f));
    }
  }

  /** Distinct leaves each find their own entry. */
  lemma {:induction false} ResolveAt(blocks: map<nat, seq<BlockMeta>>, leaves: seq<ReadLeaf>, pid: nat, lo: nat, hi: nat, i: nat)
    requires ReadsWithin(leaves, lo, hi) && i < |leaves|
    ensures ResolveBlocks(blocks, leaves, pid)[leaves[i].fromStage]
            == BlocksIn(blocks, leaves[i].fromStage, TargetFor(leaves[i], pid))
  {
    var n := |leaves| - 1;
    if i < n { ResolveAt(blocks, leaves[..n], pid, lo, hi, i); }
  }

  lemma ResolvedLeaves(rt: Runtime, stages: seq<Stage>, s: Snapshot, k: nat, p: nat)
    requires Sound(stages) && Consistent(rt, stages, s) && Ready(stages, s, k) && k < |stages|
    ensures var leaves := ReadLeaves(stages[k].plan);
            GoodLeaves(rt, stages, s, k, p, leaves, ResolveBlocks(s.blocks, leaves, p))
  {
    var leaves := ReadLeaves(stages[k].plan);
    assert StageOk(stages[k], k);
    forall i | 0 <= i < |leaves|
      ensures GoodLeaf(rt, stages, s, k, p, leaves[i], ResolveBlocks(s.blocks, leaves, p)[leaves[i].fromStage])
    {
      ResolveAt(s.blocks, leaves, p, 0, k, i);
      ResolvedLeaf(rt, stages, s, k, p, leaves[i]);
    }
  }

  /** Reading good leaves gives the fault-free inputs, or reports a stage one of whose
      blocks really was unreadable. */
  lemma {:induction false} GatherGood(rt: Runtime, stages: seq<Stage>, s: Snapshot, unreadable: set<Path>, k: nat, p: nat,
                                      leaves: seq<ReadLeaf>, blocks: map<nat, seq<BlockMeta>>)
    requires k < |stages| && GoodLeaves(rt, stages, s, k, p, leaves, blocks)
    ensures var g := Gather(s.files, unreadable, blocks, leaves);
            && (g.Inputs? ==> g.inputs == InputsFor(rt, stages, k, leaves, p))
            && (g.MissingStage? ==> (exists i :: 0 <= i < |leaves| && leaves[i].fromStage == g.stage)
                                    && exists q :: q in unreadable && q.stage == g.stage)
  {
    if leaves != [] {
      var n := |leaves| - 1;
      var f := leaves[n].fromStage;
      GatherGood(rt, stages, s, unreadable, k, p, leaves[..n], blocks);
      assert GoodLeaf(rt, stages, s, k, p, leaves[n], blocks[f]);
      ReadBlocksSafe(s.files, unreadable, blocks[f]);
      var before := Gather(s.files, unreadable, blocks, leaves[..n]);
      if before.MissingStage? {
        var i :| 0 <= i < n && leaves[..n][i].fromStage == before.stage;
        assert leaves[i].fromStage == before.stage;
      } else if ReadBlocks(s.files, unreadable, blocks[f]).None? {
        var m :| m in blocks[f] && !Intact(s.files, unreadable, m);
        assert m.path in unreadable && m.path.stage == f;
      }
    }
  }
}
