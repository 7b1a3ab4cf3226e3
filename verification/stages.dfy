/**
 The stage compiler and the fault-free run of what it builds
 (minispark/execution/stages.py).
 */
module Stages {
  import opened Values
  import opened Expressions
  import opened Sequences
  import opened Joins
  import opened Shuffle
  import opened Physical

  datatype Stage = Stage(stageId: nat, plan: PhysicalPlan, numPartitions: nat)

  datatype SplitResult = SplitResult(fragment: PhysicalPlan, partitions: nat, stages: seq<Stage>)

  /** _split: the fragment of the stage still open, its partition count, and the list
      of completed stages after the ones found below have been appended. */
  function Split(plan: PhysicalPlan, stages: seq<Stage>): SplitResult
    requires PlannerForm(plan)
  {
    match plan
    case ScanExec(ps) => SplitResult(plan, |ps|, stages)
    case ExchangeExec(c, part, b) =>
      var r := Split(c, stages);
      SplitResult(ShuffleReadExec(|r.stages|, b), part.num,
                  r.stages + [Stage(|r.stages|, ShuffleWriteExec(r.fragment, part), r.partitions)])
    case HashJoinExec(l, r, j) =>
      var a := Split(l, stages);
      var b := Split(r, a.stages);
      SplitResult(HashJoinExec(a.fragment, b.fragment, j), a.partitions, b.stages)
    case FilterExec(c, cond) =>
      var r := Split(c, stages);
      r.(fragment := FilterExec(r.fragment, cond))
    case ProjectExec(c, cols, names) =>
      var r := Split(c, stages);
      r.(fragment := ProjectExec(r.fragment, cols, names))
    case HashAggregateExec(c, agg, threshold) =>
      var r := Split(c, stages);
      r.(fragment := HashAggregateExec(r.fragment, agg, threshold))
    case SortExec(c, ks, threshold) =>
      var r := Split(c, stages);
      r.(fragment := SortExec(r.fragment, ks, threshold))
  }

  function BuildStages(plan: PhysicalPlan): (stages: seq<Stage>)
    requires PlannerForm(plan)
    ensures |stages| > 0
  {
    var r := Split(plan, []);
    r.stages + [Stage(|r.stages|, r.fragment, r.partitions)]
  }

  // ---- the list mutated in place -------------------------------------------

  class StageList {
    var items: seq<Stage>

    constructor ()
      ensures items == []
    {
      items := [];
    }

    method Append(s: Stage)
      modifies this
      ensures items == old(items) + [s]
    {
      items := items + [s];
    }
  }

  /** _split as it runs: completed stages are appended to the shared list. */
  method SplitInPlace(plan: PhysicalPlan, stages: StageList) returns (fragment: PhysicalPlan, partitions: nat)
    requires PlannerForm(plan)
    modifies stages
    ensures SplitResult(fragment, partitions, stages.items) == Split(plan, old(stages.items))
    decreases plan
  {
    match plan
    case ScanExec(ps) =>
      fragment, partitions := plan, |ps|;
    case ExchangeExec(c, part, b) =>
      var child, n := SplitInPlace(c, stages);
      stages.Append(Stage(|stages.items|, ShuffleWriteExec(child, part), n));
      fragment, partitions := ShuffleReadExec(|stages.items| - 1, b), part.num;
    case HashJoinExec(l, r, j) =>
      var left, n := SplitInPlace(l, stages);
      var right, _ := SplitInPlace(r, stages);
      fragment, partitions := HashJoinExec(left, right, j), n;
    case FilterExec(c, cond) =>
      fragment, partitions := SplitInPlace(c, stages);
      fragment := FilterExec(fragment, cond);
    case ProjectExec(c, cols, names) =>
      fragment, partitions := SplitInPlace(c, stages);
      fragment := ProjectExec(fragment, cols, names);
    case HashAggregateExec(c, agg, threshold) =>
      fragment, partitions := SplitInPlace(c, stages);
      fragment := HashAggregateExec(fragment, agg, threshold);
    case SortExec(c, ks, threshold) =>
      fragment, partitions := SplitInPlace(c, stages);
      fragment := SortExec(fragment, ks, threshold);
  }

  method BuildStagesInPlace(plan: PhysicalPlan) returns (result: seq<Stage>)
    requires PlannerForm(plan)
    ensures result == BuildStages(plan)
  {
    var stages := new StageList();
    var fragment, n := SplitInPlace(plan, stages);
    stages.Append(Stage(|stages.items|, fragment, n));
    result := stages.items;
  }

  // ---- what a fragment reads -----------------------------------------------

  datatype ReadLeaf = ReadLeaf(fromStage: nat, isBroadcast: bool)

  /** The ShuffleReadExec leaves, left to right. */
  function ReadLeaves(plan: PhysicalPlan): seq<ReadLeaf> {
    match plan
    case ScanExec(_) => []
    case ShuffleReadExec(f, b) => [ReadLeaf(f, b)]
    case HashJoinExec(l, r, _) => ReadLeaves(l) + ReadLeaves(r)
    case FilterExec(c, _) => ReadLeaves(c)
    case ProjectExec(c, _, _) => ReadLeaves(c)
    case HashAggregateExec(c, _, _) => ReadLeaves(c)
    case ExchangeExec(c, _, _) => ReadLeaves(c)
    case ShuffleWriteExec(c, _) => ReadLeaves(c)
    case SortExec(c, _, _) => ReadLeaves(c)
  }

  /** A task's body: what it runs before writing shuffle blocks, if it writes any. */
  function Body(plan: PhysicalPlan): PhysicalPlan {
    if plan.ShuffleWriteExec? then plan.child else plan
  }

  /** The target a leaf reads for task pid: its own, or always 0 for a broadcast. */
  function TargetFor(leaf: ReadLeaf, pid: nat): nat {
    if leaf.isBroadcast then 0 else pid
  }

  predicate WritesLegally(s: Stage) {
    s.plan.ShuffleWriteExec? && Legal(s.plan.part)
  }

  // ---- the fault-free run --------------------------------------------------

  /** What a leaf finds when every stage below `limit` has run without fault. */
  function LeafRows(rt: Runtime, stages: seq<Stage>, limit: nat, leaf: ReadLeaf, pid: nat): seq<Record>
    requires limit <= |stages|
    decreases limit, 0, 0
  {
    if leaf.fromStage < limit && WritesLegally(stages[leaf.fromStage]) then
      ReadBucket(rt, stages[leaf.fromStage].plan.part, TargetFor(leaf, pid), StageOutput(rt, stages, leaf.fromStage))
    else []
  }

  /** Every leaf's rows, by stage (a later leaf on the same stage wins, as in a dict). */
  function InputsFor(rt: Runtime, stages: seq<Stage>, limit: nat, leaves: seq<ReadLeaf>, pid: nat): map<nat, seq<Record>>
    requires limit <= |stages|
    decreases limit, 1, |leaves|
  {
    if leaves == [] then map[]
    else
      var n := |leaves| - 1;
      InputsFor(rt, stages, limit, leaves[..n], pid)[leaves[n].fromStage := LeafRows(rt, stages, limit, leaves[n], pid)]
  }

  /** The rows task pid of stage k computes. */
  function TaskRows(rt: Runtime, stages: seq<Stage>, k: nat, pid: nat): seq<Record>
    requires k < |stages|
    decreases k, 2, 0
  {
    ExecutePartition(rt, Body(stages[k].plan), pid, InputsFor(rt, stages, k, ReadLeaves(stages[k].plan), pid))
  }

  /** The rows every task of stage k computes. */
  function StageOutput(rt: Runtime, stages: seq<Stage>, k: nat): (out: seq<seq<Record>>)
    requires k < |stages|
    ensures |out| == stages[k].numPartitions
    ensures forall i :: 0 <= i < |out| ==> out[i] == TaskRows(rt, stages, k, i)
    decreases k, 4, 0
  {
    TaskOutputs(rt, stages, k, stages[k].numPartitions)
  }

  function TaskOutputs(rt: Runtime, stages: seq<Stage>, k: nat, n: nat): (out: seq<seq<Record>>)
    requires k < |stages|
    ensures |out| == n
    ensures forall i :: 0 <= i < n ==> out[i] == TaskRows(rt, stages, k, i)
    decreases k, 3, n
  {
    if n == 0 then [] else TaskOutputs(rt, stages, k, n - 1) + [TaskRows(rt, stages, k, n - 1)]
  }

  /** A stage's output depends only on the stages up to it. */
  lemma {:induction false} OutputPrefix(rt: Runtime, a: seq<Stage>, b: seq<Stage>, k: nat)
    requires k < |a| && k < |b| && a[..k + 1] == b[..k + 1]
    ensures StageOutput(rt, a, k) == StageOutput(rt, b, k)
    decreases k, 1
  {
    assert forall i :: 0 <= i <= k ==> a[i] == a[..k + 1][i] == b[i];
    forall pid | 0 <= pid < a[k].numPartitions ensures TaskRows(rt, a, k, pid) == TaskRows(rt, b, k, pid) {
      InputsPrefix(rt, a, b, k, ReadLeaves(a[k].plan), pid);
    }
  }

  lemma {:induction false} InputsPrefix(rt: Runtime, a: seq<Stage>, b: seq<Stage>, limit: nat, leaves: seq<ReadLeaf>, pid: nat)
    requires limit <= |a| && limit <= |b|
    requires forall i :: 0 <= i < limit ==> a[i] == b[i]
    ensures InputsFor(rt, a, limit, leaves, pid) == InputsFor(rt, b, limit, leaves, pid)
    decreases limit, 0, |leaves|
  {
    if leaves != [] {
      var n := |leaves| - 1;
      InputsPrefix(rt, a, b, limit, leaves[..n], pid);
      var f := leaves[n].fromStage;
      if f < limit {
        assert a[..f + 1] == b[..f + 1];
        OutputPrefix(rt, a, b, f);
      }
    }
  }

  // ---- shape of the result -------------------------------------------------

  function CountExchanges(plan: PhysicalPlan): nat {
    match plan
    case ScanExec(_) => 0
    case ShuffleReadExec(_, _) => 0
    case ExchangeExec(c, _, _) => 1 + CountExchanges(c)
    case HashJoinExec(l, r, _) => CountExchanges(l) + CountExchanges(r)
    case FilterExec(c, _) => CountExchanges(c)
    case ProjectExec(c, _, _) => CountExchanges(c)
    case HashAggregateExec(c, _, _) => CountExchanges(c)
    case ShuffleWriteExec(c, _) => CountExchanges(c)
    case SortExec(c, _, _) => CountExchanges(c)
  }

  /** The leaves read distinct stages, all numbered from lo up to but not hi. */
  ghost predicate ReadsWithin(leaves: seq<ReadLeaf>, lo: nat, hi: nat) {
    && (forall i :: 0 <= i < |leaves| ==> lo <= leaves[i].fromStage < hi)
    && (forall i, j :: 0 <= i < j < |leaves| ==> leaves[i].fromStage != leaves[j].fromStage)
  }

  /** A fragment ready to run: no exchange or write left in it. */
  predicate Runnable(plan: PhysicalPlan) {
    match plan
    case ScanExec(_) => true
    case ShuffleReadExec(_, _) => true
    case ExchangeExec(_, _, _) => false
    case ShuffleWriteExec(_, _) => false
    case HashJoinExec(l, r, _) => Runnable(l) && Runnable(r)
    case FilterExec(c, _) => Runnable(c)
    case ProjectExec(c, _, _) => Runnable(c)
    case HashAggregateExec(c, _, _) => Runnable(c)
    case SortExec(c, _, _) => Runnable(c)
  }

  /** Stage k of a list: numbered k, reading only earlier stages, each at most once. */
  ghost predicate StageOk(s: Stage, k: nat) {
    && s.stageId == k
    && Runnable(Body(s.plan))
    && ReadsWithin(ReadLeaves(s.plan), 0, k)
  }

  /** What splitting adds to the list, and what it leaves open. */
  ghost predicate SplitOk(plan: PhysicalPlan, before: seq<Stage>, r: SplitResult) {
    && before <= r.stages && |r.stages| == |before| + CountExchanges(plan)
    && r.partitions == NumPartitions(plan)
    && Runnable(r.fragment) && ReadsWithin(ReadLeaves(r.fragment), |before|, |r.stages|)
    && forall k :: |before| <= k < |r.stages| ==> StageOk(r.stages[k], k) && WritesLegally(r.stages[k])
  }

  lemma SplitExchangeOk(c: PhysicalPlan, part: Partitioning, b: bool, before: seq<Stage>, r: SplitResult)
    requires SplitOk(c, before, r) && Legal(part)
    ensures SplitOk(ExchangeExec(c, part, b), before,
                    SplitResult(ShuffleReadExec(|r.stages|, b), part.num,
                                r.stages + [Stage(|r.stages|, ShuffleWriteExec(r.fragment, part), r.partitions)]))
  {
  }

  lemma SplitJoinOk(l: PhysicalPlan, r: PhysicalPlan, j: JoinSpec, before: seq<Stage>, a: SplitResult, b: SplitResult)
    requires SplitOk(l, before, a) && SplitOk(r, a.stages, b)
    ensures SplitOk(HashJoinExec(l, r, j), before, SplitResult(HashJoinExec(a.fragment, b.fragment, j), a.partitions, b.stages))
  {
    forall k | |before| <= k < |a.stages| ensures b.stages[k] == a.stages[k] { }
  }

  lemma {:induction false} SplitShape(plan: PhysicalPlan, stages: seq<Stage>)
    requires PlannerForm(plan)
    ensures SplitOk(plan, stages, Split(plan, stages))
  {
    match plan
    case ScanExec(_) =>
    case ExchangeExec(c, part, b) =>
      SplitShape(c, stages);
      SplitExchangeOk(c, part, b, stages, Split(c, stages));
    case HashJoinExec(l, r, j) =>
      var a := Split(l, stages);
      SplitShape(l, stages);
      SplitShape(r, a.stages);
      SplitJoinOk(l, r, j, stages, a, Split(r, a.stages));
    case FilterExec(c, _) => SplitShape(c, stages);
    case ProjectExec(c, _, _) => SplitShape(c, stages);
    case HashAggregateExec(c, _, _) => SplitShape(c, stages);
    case SortExec(c, _, _) => SplitShape(c, stages);
  }

  // ---- meaning is preserved ------------------------------------------------

  /** inputs gives every leaf of the plan the rows the fault-free run gives it. */
  ghost predicate Feeds(rt: Runtime, stages: seq<Stage>, limit: nat, leaves: seq<ReadLeaf>, pid: nat,
                        inputs: map<nat, seq<Record>>)
    requires limit <= |stages|
  {
    forall i :: 0 <= i < |leaves| ==>
      leaves[i].fromStage in inputs && inputs[leaves[i].fromStage] == LeafRows(rt, stages, limit, leaves[i], pid)
  }

  lemma {:induction false} InputsFeed(rt: Runtime, stages: seq<Stage>, limit: nat, leaves: seq<ReadLeaf>, pid: nat, lo: nat, hi: nat)
    requires limit <= |stages| && ReadsWithin(leaves, lo, hi)
    ensures Feeds(rt, stages, limit, leaves, pid, InputsFor(rt, stages, limit, leaves, pid))
  {
    hide LeafRows;
    if leaves != [] {
      var n := |leaves| - 1;
      InputsFeed(rt, stages, limit, leaves[..n], pid, lo, hi);
    }
  }

  lemma FeedsParts(rt: Runtime, stages: seq<Stage>, limit: nat, a: seq<ReadLeaf>, b: seq<ReadLeaf>, pid: nat,
                   inputs: map<nat, seq<Record>>)
    requires limit <= |stages| && Feeds(rt, stages, limit, a + b, pid, inputs)
    ensures Feeds(rt, stages, limit, a, pid, inputs) && Feeds(rt, stages, limit, b, pid, inputs)
  {
    forall i | 0 <= i < |a|
      ensures a[i].fromStage in inputs && inputs[a[i].fromStage] == LeafRows(rt, stages, limit, a[i], pid)
    {
      assert (a + b)[i] == a[i];
    }
    forall i | 0 <= i < |b|
      ensures b[i].fromStage in inputs && inputs[b[i].fromStage] == LeafRows(rt, stages, limit, b[i], pid)
    {
      assert (a + b)[|a| + i] == b[i];
    }
  }

  /** A leaf finds the same rows whatever the limit, once it is high enough. */
  lemma LeafAnyLimit(rt: Runtime, stages: seq<Stage>, k: nat, limit: nat, leaf: ReadLeaf, pid: nat)
    requires leaf.fromStage < k <= limit <= |stages|
    ensures LeafRows(rt, stages, k, leaf, pid) == LeafRows(rt, stages, limit, leaf, pid)
  {
  }

  /** Running a fragment on the shuffled output of the stages split off below it gives
      what the plan gives with each exchange read as a repartition. */
  lemma {:induction false} SplitMeaning(rt: Runtime, plan: PhysicalPlan, before: seq<Stage>, all: seq<Stage>, pid: nat,
                                        inputs: map<nat, seq<Record>>)
    requires PlannerForm(plan) && Split(plan, before).stages <= all
    requires Feeds(rt, all, |all|, ReadLeaves(Split(plan, before).fragment), pid, inputs)
    ensures ExecutePartition(rt, Split(plan, before).fragment, pid, inputs) == PartRows(rt, plan, pid)
    decreases plan, 0
  {
    match plan
    case ScanExec(_) =>
    case ExchangeExec(c, part, b) =>
      ExchangeMeaning(rt, c, part, b, before, all, pid);
      assert ReadLeaves(Split(plan, before).fragment)[0] == ReadLeaf(|Split(c, before).stages|, b);
    case HashJoinExec(l, r, j) =>
      var a := Split(l, before);
      SplitShape(r, a.stages);
      FeedsParts(rt, all, |all|, ReadLeaves(a.fragment), ReadLeaves(Split(r, a.stages).fragment), pid, inputs);
      SplitMeaning(rt, l, before, all, pid, inputs);
      SplitMeaning(rt, r, a.stages, all, pid, inputs);
    case FilterExec(c, _) => SplitMeaning(rt, c, before, all, pid, inputs);
    case ProjectExec(c, _, _) => SplitMeaning(rt, c, before, all, pid, inputs);
    case HashAggregateExec(c, _, _) => SplitMeaning(rt, c, before, all, pid, inputs);
    case SortExec(c, _, _) => SplitMeaning(rt, c, before, all, pid, inputs);
  }

  /** The stage an exchange closes outputs the partitions of the exchange's child, so
      reading it back is the repartition. */
  lemma {:induction false} ExchangeMeaning(rt: Runtime, c: PhysicalPlan, part: Partitioning, b: bool, before: seq<Stage>,
                                           all: seq<Stage>, pid: nat)
    requires PlannerForm(ExchangeExec(c, part, b)) && Split(ExchangeExec(c, part, b), before).stages <= all
    ensures LeafRows(rt, all, |all|, ReadLeaf(|Split(c, before).stages|, b), pid) == PartRows(rt, ExchangeExec(c, part, b), pid)
    decreases c, 2
  {
    var r := Split(c, before);
    var k := |r.stages|;
    SplitShape(c, before);
    assert all[k] == Stage(k, ShuffleWriteExec(r.fragment, part), r.partitions) by {
      assert Split(ExchangeExec(c, part, b), before).stages[k] == all[k];
    }
    StageMeaning(rt, c, before, all, k);
    assert StageOutput(rt, all, k) == AllParts(rt, c, NumPartitions(c));
  }

  /** A stage running plan c's fragment outputs c's partitions. */
  lemma {:induction false} StageMeaning(rt: Runtime, c: PhysicalPlan, before: seq<Stage>, all: seq<Stage>, k: nat)
    requires PlannerForm(c) && Split(c, before).stages <= all
    requires k == |Split(c, before).stages| < |all|
    requires Body(all[k].plan) == Split(c, before).fragment && all[k].numPartitions == Split(c, before).partitions
    requires ReadLeaves(all[k].plan) == ReadLeaves(Split(c, before).fragment)
    ensures StageOutput(rt, all, k) == Partitions(rt, c)
    decreases c, 1
  {
    SplitShape(c, before);
    var leaves := ReadLeaves(all[k].plan);
    forall p | 0 <= p < NumPartitions(c) ensures TaskRows(rt, all, k, p) == PartRows(rt, c, p) {
      var inputs := InputsFor(rt, all, k, leaves, p);
      InputsFeed(rt, all, k, leaves, p, |before|, k);
      forall i | 0 <= i < |leaves| ensures LeafRows(rt, all, k, leaves[i], p) == LeafRows(rt, all, |all|, leaves[i], p) {
        LeafAnyLimit(rt, all, k, |all|, leaves[i], p);
      }
      SplitMeaning(rt, c, before, all, p, inputs);
    }
  }

  /** Stage splitting preserves meaning: running the stages in order through the block
      store outputs, from the last stage, exactly the plan's partitions.  There is one
      stage per exchange and one more; stage k is numbered k, holds no exchange and
      reads only lower-numbered stages; every stage but the last writes shuffle blocks. */
  lemma BuildStagesMeaning(rt: Runtime, plan: PhysicalPlan)
    requires PlannerForm(plan)
    ensures var stages := BuildStages(plan);
            && |stages| == CountExchanges(plan) + 1
            && (forall k :: 0 <= k < |stages| ==> StageOk(stages[k], k))
            && (forall k :: 0 <= k < |stages| - 1 ==> WritesLegally(stages[k]))
            && !stages[|stages| - 1].plan.ShuffleWriteExec?
            && StageOutput(rt, stages, |stages| - 1) == Partitions(rt, plan)
  {
    SplitShape(plan, []);
    var r := Split(plan, []);
    var stages := BuildStages(plan);
    StageMeaning(rt, plan, [], stages, |r.stages|);
  }
}
