/**
 Physical plans, one task's work on one partition, and the reference meaning of a
 plan whose exchanges are read as repartitions
 (minispark/physical/plan.py, minispark/physical/operators.py).
 */
module Physical {
  import opened Values
  import opened Expressions
  import opened Sequences
  import opened Sorting
  import opened GroupTables
  import opened Joins
  import opened RowOperators
  import opened Shuffle

  datatype PhysicalPlan =
    | ScanExec(partitions: seq<seq<Record>>)
    | FilterExec(child: PhysicalPlan, condition: Expr)
    | ProjectExec(child: PhysicalPlan, columns: seq<Expr>, names: seq<string>)
    | HashAggregateExec(child: PhysicalPlan, agg: HashAgg, spillThreshold: int)
    | ExchangeExec(child: PhysicalPlan, part: Partitioning, isBroadcast: bool)
    | ShuffleWriteExec(child: PhysicalPlan, part: Partitioning)
    | ShuffleReadExec(fromStage: nat, isBroadcast: bool)
    | HashJoinExec(left: PhysicalPlan, right: PhysicalPlan, join: JoinSpec)
    | SortExec(child: PhysicalPlan, keys: seq<SortKey>, spillThreshold: int)

  // ---- one task ------------------------------------------------------------

  /** execute_partition: the rows of partition pid, given the rows each shuffle read
      finds.  A spilling sort is given by what it is proved to compute (ExternalSort),
      a spilling aggregation by the rows it emits (see EmitsGroups, HashAggregate). */
  function ExecutePartition(rt: Runtime, plan: PhysicalPlan, pid: nat, inputs: map<nat, seq<Record>>): seq<Record> {
    match plan
    case ScanExec(ps) => if pid < |ps| then ps[pid] else []
    case FilterExec(c, cond) => FilterRows(cond, ExecutePartition(rt, c, pid, inputs))
    case ProjectExec(c, cols, names) => ProjectRows(cols, names, ExecutePartition(rt, c, pid, inputs))
    case HashAggregateExec(c, agg, threshold) => Emitted(rt, agg, threshold, ExecutePartition(rt, c, pid, inputs))
    case HashJoinExec(l, r, j) => JoinRows(j, ExecutePartition(rt, l, pid, inputs), ExecutePartition(rt, r, pid, inputs))
    case SortExec(c, ks, _) => StableSort(ks, ExecutePartition(rt, c, pid, inputs))
    case ShuffleReadExec(f, _) => if f in inputs then inputs[f] else []
    case ExchangeExec(_, _, _) => []
    case ShuffleWriteExec(_, _) => []
  }

  // ---- the reference meaning -----------------------------------------------

  /** How many partitions a plan's output has. */
  function NumPartitions(plan: PhysicalPlan): nat {
    match plan
    case ScanExec(ps) => |ps|
    case ExchangeExec(_, p, _) => p.num
    case HashJoinExec(l, _, _) => NumPartitions(l)
    case ShuffleReadExec(_, _) => 0
    case FilterExec(c, _) => NumPartitions(c)
    case ProjectExec(c, _, _) => NumPartitions(c)
    case HashAggregateExec(c, _, _) => NumPartitions(c)
    case ShuffleWriteExec(c, _) => NumPartitions(c)
    case SortExec(c, _, _) => NumPartitions(c)
  }

  /** A plan as the planner builds it: no shuffle nodes yet, legal partitionings. */
  predicate PlannerForm(plan: PhysicalPlan) {
    match plan
    case ScanExec(_) => true
    case ExchangeExec(c, p, b) => Legal(p) && (b ==> p.num == 1) && PlannerForm(c)
    case HashJoinExec(l, r, _) => PlannerForm(l) && PlannerForm(r)
    case ShuffleReadExec(_, _) => false
    case ShuffleWriteExec(_, _) => false
    case FilterExec(c, _) => PlannerForm(c)
    case ProjectExec(c, _, _) => PlannerForm(c)
    case HashAggregateExec(c, _, _) => PlannerForm(c)
    case SortExec(c, _, _) => PlannerForm(c)
  }

  /** Partition i of the plan, each Exchange read as a repartition of its child: the
      rows whose target is i, or for a broadcast all rows whatever i is. */
  function PartRows(rt: Runtime, plan: PhysicalPlan, i: nat): seq<Record>
    requires PlannerForm(plan)
    decreases plan, 0
  {
    match plan
    case ScanExec(ps) => if i < |ps| then ps[i] else []
    case FilterExec(c, cond) => FilterRows(cond, PartRows(rt, c, i))
    case ProjectExec(c, cols, names) => ProjectRows(cols, names, PartRows(rt, c, i))
    case HashAggregateExec(c, agg, threshold) => Emitted(rt, agg, threshold, PartRows(rt, c, i))
    case HashJoinExec(l, r, j) => JoinRows(j, PartRows(rt, l, i), PartRows(rt, r, i))
    case SortExec(c, ks, _) => StableSort(ks, PartRows(rt, c, i))
    case ExchangeExec(c, p, b) => ReadBucket(rt, p, if b then 0 else i, AllParts(rt, c, NumPartitions(c)))
  }

  /** The first n partitions of a plan. */
  function AllParts(rt: Runtime, plan: PhysicalPlan, n: nat): (ps: seq<seq<Record>>)
    requires PlannerForm(plan)
    ensures |ps| == n
    ensures forall i :: 0 <= i < n ==> ps[i] == PartRows(rt, plan, i)
    decreases plan, 1, n
  {
    if n == 0 then [] else AllParts(rt, plan, n - 1) + [PartRows(rt, plan, n - 1)]
  }

  function Partitions(rt: Runtime, plan: PhysicalPlan): (ps: seq<seq<Record>>)
    requires PlannerForm(plan)
    ensures |ps| == NumPartitions(plan)
    ensures forall i :: 0 <= i < |ps| ==> ps[i] == PartRows(rt, plan, i)
  {
    AllParts(rt, plan, NumPartitions(plan))
  }

  /** The rows of a plan, partitions in id order. */
  function PlanRows(rt: Runtime, plan: PhysicalPlan): seq<Record>
    requires PlannerForm(plan)
  {
    Flatten(Partitions(rt, plan))
  }
}
