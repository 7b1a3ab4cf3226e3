# MiniSpark in Dafny

MiniSpark is a small query engine, and most of its hard code exists to make a complicated
execution path agree with a simple one. This project models those paths and proves the
agreement, up to one statement about a whole query (`Query.Collect`): whatever tasks fail and
whatever shuffle blocks are lost or corrupted, for any optimizer configuration, spill
threshold, partition count and hash function, a query that returns has returned the rows its
logical plan denotes, in sorted order when it ends in `order_by`; it always ends; and it does
return when no more task executions fail on their own, or find a stage lost that another one
finds lost too, than one task has retries: even with none, when no task fails on its own and
every stage's blocks are lost at most once.

The pieces, in the order data flows through them:

- **SQL text** (`sql_tokenizer`, `sql_parser`, `sql_printer`, `sql_round_trip`, `sql_shortest`,
  `sql_numerals`, `sql_readings`, `sql_having`). The tokenizer and the precedence-climbing parser
  as the methods they are, specified by recursive functions on the rest of the text or token
  list; a printer with minimal parentheses, which is its inverse; the numbers that numerals
  denote, and what precedence, words and names mean in any text; and the HAVING rewrite.
- **What operators mean** (`operator_laws`, `string_order`, `aggregate_meaning`,
  `relational_meaning`). Laws that fix arithmetic, comparison and logic; sorted rows in terms of
  numbers and of the dictionary; what each aggregate says of a group's rows; and what filters,
  projections and joins return, row by row.
- **Plans and rules** (`logical`, `expression_rules`, `plan_rules`, `pruning`, `optimizer`,
  `alias_reuse`, `executable_plans`, `quiet_plans`, `quiet_passes`, `scan_pushdown`,
  `rule_effects`). `Logical.Rows` is the reference meaning of a plan. Every rule refines it, any
  number of passes does, each hypothesis the rules need is shown to survive every rule, and each
  rule is shown to do its work.
- **Operators** (`sorting`, `spilling`, `external_sort`, `aggregate_functions`, `group_tables`,
  `hash_aggregate`, `spilled_sums`, `joins`, `row_operators`). Stable sort, group-by and
  nested-loop join as functions; the spilling sort, the grace-hash aggregation and the hash join
  as methods with their buffers, dictionaries and byte counters; and exactly which groupings let
  a spill be seen.
- **Distribution** (`shuffle`, `distributed_sort`, `distributed_aggregate`,
  `distributed_join`, `physical`, `planner`, `stages`). Each exchange-based strategy equals the
  one-partition operator on the concatenated input; the planner's tree means what the logical
  plan means; splitting it into stages keeps that meaning.
- **Execution** (`shuffle_store`, `scheduler_state`, `scheduler_accounts`, `scheduler_steps`,
  `scheduler_plan`, `scheduler`, `query`). The scheduler as a class whose mutually recursive
  methods mutate shared state under an adversary: for each task execution `Faults` decides
  whether the task fails on its own (leaving anything in its own files) and which block files
  it finds gone or corrupt.
- **CSV partitions** (`csv_ranges`). Cutting a file into row ranges and reading each by offset.

Conventions. Where Python raises, evaluation here has a value anyway, and a predicate
(`Raises`, `FoldRaises`) says where; a task on whose rows an expression raises is one of the
failures `Faults` may choose. `Runtime` holds what a run depends on besides the plan: the text
(`repr`) of an expression, the hash of a key, what a spilling aggregation task emits, and the
number of shuffle partitions. Every theorem holds for every such runtime, given
`EmitsGroups`: that each aggregation task lists its groups once each, merged from its rows in
order except that rows it had spilled come last, which is what
`HashAggregate.ExecuteHashAggregatePartition` is proved to do. `Optimizable` and `Executable`
(in `logical`) gather the hypotheses on a plan: it passes analysis; computed columns of a
Project have aliases, which reuse no name from below; operands of And, Or and Not are
boolean where their value matters; the rows of a grouping may be merged in any order, or nothing
spills and no Join or Aggregation below it reorders them (only sums over strings need this:
`SpilledSums.GroupedTextSettles`); and where a sort splits its range over several partitions, its
primary key is a number in every row (or null in all of them).

Where the code does not do what its comments say, the model follows the code:

- `minispark/physical/operators.py:229-233` describes the states of a group that was spilled and
  seen again as reconciled by `merge` like those of two partitions; they are, but what memory
  still holds goes before what was spilled, so a sum over strings comes out in another order.
  `SpilledSums.SpillsUnseenIff` says exactly when that cannot be seen.
- A comment at `minispark/physical/planner.py:377-381` calls every pushed filter
  "namespace-safe"; the guard at `minispark/optimizer/rules.py:224-227` only compares names,
  and `AliasReuse.AliasesAreSafeIff` and `AliasReuse.DeepAliasesAreSafeIff` show exactly which
  aliases that is enough for.
- `minispark/optimizer/rules.py:152` presents `x AND True` as `x`; the code drops a coercion to
  bool (`minispark/expressions/binary.py:69-71`), and `ExpressionRules.ConnectiveKeepsValueIff`
  says when that shows.
- `minispark/shuffle/partitioner.py:59-64` says no operator uses range partitioning; `order_by`
  does (`minispark/physical/planner.py:226-228`).

## Model

| member | source | states |
|---|---|---|
| Query.Collect | minispark/api/dataframe.py:130-144 | end to end, from optimizer to scheduler, under every pattern of task failures and block losses: a result that is returned holds the plan's rows, sorted if the plan ends in order_by, and in exactly the plan's order if it has no Join and no Aggregation; its metrics hold one normal entry per stage in order and at most one recompute entry for any; it does return when no more executions fail on their own, or find unreadable a stage that another finds unreadable too, than one task has retries |
| Query.RunQuery | minispark/api/dataframe.py:113-144 | the same with the run itself: its invariant, the bound on executions, and the excuse of a failure: one task that failed as often as it may be tried, each time on its own or for a stage that another execution missed too |
| Query.StagesAnswer | minispark/api/dataframe.py:118-124 | the stages built for an optimized, scan-pushed-down, translated plan are sound, and their fault-free run answers the original plan |
| Query.StableSortOrdered | minispark/physical/operators.py:554-568 | no row of a stable sort must come before an earlier one |
| Query.SortedAnswer | minispark/physical/operators.py:554-580 | what order_by returns, row against later row: by the first key in which they differ numbers rise and strings go through the dictionary under an ascending key, the other way under a descending one, nulls last |
| Query.GroupedAnswer | minispark/physical/operators.py:300-315 | every row that group_by returns is that of one key of its input, and holds for each aggregate what it says of the input rows with that key |
| Query.JoinedAnswer | minispark/physical/operators.py:430-446 | what join returns, in some order: one row, with the columns of both, for exactly the pairs of rows that agree on the join columns |
| Scheduler.LocalScheduler.RunPlan | minispark/execution/scheduler.py:127-156 | for every fault pattern: it ends; a returned result is the fault-free run's partitions even when tasks read different generations of blocks; it aborts only if one task failed as often as it may be tried, each time on its own or for a stage that another execution missed too, so it returns when no more executions are harmed so than one task has retries; one normal metrics entry per stage in order and one recompute entry exactly per recomputed stage; executions are at most (retries + 1) times the partitions of all stage runs plus the recomputed stages |
| Scheduler.Run.RunStage | minispark/execution/scheduler.py:158-194 | a stage run that succeeds has the right rows or blocks for every task, registers exactly its own blocks in task order, adds its one metrics entry, and stays within the execution credit |
| Scheduler.Run.RunToCompletion | minispark/execution/scheduler.py:196-267 | the loop over pending tasks ends (by recomputed stages, then by what the retries still allow), and returns only right results, in task order; the retried count is exactly the number of tasks against which a failure is held, recoveries not counted |
| Scheduler.Run.RunRound | minispark/execution/scheduler.py:220-257 | one batch and its results: every task of the stage either waits or is done with, and either a stage was newly recomputed or the waiting tasks' remaining retries shrank |
| Scheduler.Run.StartRun | minispark/execution/scheduler.py:205-219 | a stage run starts with every task waiting, none of its retries spent and all of them paid for |
| Scheduler.Run.SettleNext | minispark/execution/scheduler.py:224-257 | settling one result keeps the round invariant, or stops for a reason with everything paid for |
| Scheduler.Run.Settle | minispark/execution/scheduler.py:224-257 | a missing input recovers its stage, keeps the attempt number and is held against no one; any other failure is held against its task and spends one retry; a failed task is given up only when it has failed as often as it may be tried |
| Scheduler.Run.TryRecoverMissingShuffle | minispark/execution/scheduler.py:269-307 | a stage is recomputed at most once per run; a recovered task is the same task on blocks of the fresh run; recovery adds one execution of credit |
| Scheduler.Run.ExecuteTask | minispark/execution/worker.py:103-145 | a task whose listed blocks are intact returns exactly the fault-free rows or blocks; otherwise it reports a stage whose block really was unreadable; no completed task's files are touched |
| Scheduler.Run.RunBody | minispark/execution/worker.py:148-207 | what a task returns or writes once its inputs are read is the fault-free result for its partition |
| Scheduler.Run.RunBatch | minispark/execution/scheduler.py:309-315 | every waiting task is executed exactly once, in order, and answered |
| Scheduler.Run.MakeTasks | minispark/execution/scheduler.py:205-215 | one fresh task per partition, on good blocks |
| Scheduler.Run.Collect | minispark/execution/scheduler.py:258-267 | results in task order, all right, or a failure that is excused |
| Scheduler.Run.Record | minispark/execution/scheduler.py:181-194 | the whole new state: one entry appended, the stage's registration overwritten if it writes, nothing else |
| Scheduler.Run.RunNext | minispark/execution/scheduler.py:142-148 | the run_plan invariant from one stage to the next |
| SchedulerPlan.PlanBounded | minispark/execution/scheduler.py:217-257 | the execution bound follows from the invariant kept by every stage |
| SchedulerPlan.TolerableReturns | minispark/execution/scheduler.py:240-257 | with no more executions failing on their own, or missing a stage that another misses too, than one task has retries, nothing excuses a failure |
| SchedulerPlan.RetriesSuffice | minispark/execution/scheduler.py:240-257 | so it is with no stage lost twice and at most as many failures of executions on their own as one task has retries |
| SchedulerPlan.LostOnceTolerable | minispark/execution/scheduler.py:225-239 | with no failure of an execution on its own and every stage lost at most once it is so however few the retries: recovery spends none |
| SchedulerPlan.SpentIsHarmed | minispark/execution/scheduler.py:290-291 | a failure held against a task was an execution's own, or for a stage that another execution lost too |
| SchedulerPlan.FaultlessLosesNothing | minispark/execution/scheduler.py:220-267 | a run without faults is one of these |
| SchedulerPlan.CountedStep | minispark/execution/scheduler.py:181-189 | running one more stage keeps the metrics count: normal entries in order, recompute entries exactly for recomputed stages |
| SchedulerSteps.NotedTwice | minispark/execution/scheduler.py:290-291 | a stage missed by an execution after its recomputation was missed by two different executions |
| SchedulerSteps.NotedFine | minispark/execution/scheduler.py:225-257 | dealing with a failure keeps everything, and puts it down to the one execution it befell and what befell it |
| SchedulerSteps.HeldSettles | minispark/execution/scheduler.py:240-257 | holding a failure against its task keeps everything and adds exactly one to what is held against it |
| SchedulerSteps.RetriedNext | minispark/execution/scheduler.py:219-247 | the set of retried tasks stays, of the tasks that wait or have succeeded, those against which a failure is held |
| SchedulerSteps.RecordedFine | minispark/execution/scheduler.py:190-193 | registering a completed stage run keeps every registration equal to one whole completed run of its stage |
| SchedulerSteps.StillConsistent | minispark/execution/worker.py:160-207 | executing tasks, whatever they leave in their own files, keeps every registered block intact |
| SchedulerSteps.GatherTask | minispark/physical/operators.py:386-396 | reading a task's inputs in one execution gives the fault-free inputs or names a lower stage that this execution finds unreadable |
| SchedulerSteps.FailedExecution | minispark/execution/worker.py:117-141 | a failed execution moves on nothing but files of its own task |
| SchedulerSteps.RoundEnds | minispark/execution/scheduler.py:220-257 | after a batch the credit left over the waiting tasks' retries has not shrunk, and without a recomputation the retries have |
| SchedulerState.GatherGood | minispark/physical/operators.py:386-396 | reading good block lists gives the fault-free inputs or reports a stage with an unreadable block |
| SchedulerState.ResolvedLeaves | minispark/execution/scheduler.py:318-339 | resolving every read leaf against the registry gives good block lists, target 0 for a broadcast |
| Stages.BuildStagesMeaning | minispark/execution/stages.py:49-111 | one stage per exchange plus one; no exchange survives; every read is of a lower-numbered stage; all stages but the last write; running them in order through the block store gives the partitions of the plan with each exchange read as a repartition |
| Stages.SplitMeaning | minispark/execution/stages.py:57-111 | a fragment fed by the stages split off below it computes each partition of the original plan |
| Stages.ExchangeMeaning | minispark/execution/stages.py:66-75 | reading a closed stage back is the repartition its exchange stands for |
| Stages.SplitShape | minispark/execution/stages.py:57-111 | the shape of what splitting adds to the list and leaves open |
| Stages.OutputPrefix | minispark/execution/stages.py:49-54 | a stage's output depends only on the stages up to it |
| Stages.SplitInPlace | minispark/execution/stages.py:57-111 | the recursion that appends to the shared list computes the split, with the list as the function says |
| Stages.BuildStagesInPlace | minispark/execution/stages.py:49-54 | the shared list ends as the stage list of the theorems |
| ShuffleStore.WriteShufflePartition | minispark/shuffle/writer.py:74-112 | streaming through a dictionary of open writers leaves one file per target that receives a row, holding exactly its rows in order, and metadata to match |
| ShuffleStore.WriteRow | minispark/shuffle/writer.py:88-97 | one row goes to its target's writer, opened on first use, and to no other |
| ShuffleStore.CloseBlocks | minispark/shuffle/writer.py:98-112 | the metadata of every writer opened, in that order, and each file as its digest says |
| ShuffleStore.BlockWriter.Write | minispark/shuffle/writer.py:62-67 | file, digest and counter move together |
| ShuffleStore.OutputBlocksRows | minispark/shuffle/manager.py:48-51 | a target's blocks of one stage run hold its rows from every task, in task order |
| ShuffleStore.ReadBlocksSafe | minispark/shuffle/reader.py:56-80 | reading blocks returns exactly what was written or reports, and reports only an unreadable block |
| ShuffleStore.ShuffleManager.RegisterBlocks | minispark/shuffle/manager.py:38-46 | registering overwrites that stage's blocks and no other's |
| ShuffleStore.TargetsAre | minispark/shuffle/writer.py:82-85 | a target has a block exactly when it receives a row |
| Planner.TranslateMeaning | minispark/physical/planner.py:124-143 | the physical plan of every executable logical plan is legal and its partitions hold the multiset of the plan's rows |
| Planner.SortedQuery | minispark/physical/planner.py:212-231 | order_by: the partitions in id order are exactly one stable multi-key sort of the input as computed |
| Planner.StraightExact | minispark/physical/planner.py:127-143 | any plan of scans, filters, projections and sorts, in any nesting, is computed in exactly the reference order |
| Planner.SortPlanRows | minispark/physical/planner.py:212-231 | local sort, exchange, final sort of any child is one stable sort of the child's rows in partition order |
| Planner.AggregatePlanRows | minispark/physical/planner.py:164-184 | partial aggregation, hash exchange, final aggregation is one group-by of the child's rows, sums over strings included when nothing was spilled or the rows may be merged in any order |
| Planner.ShuffleJoinRows | minispark/physical/planner.py:157-161 | the shuffle hash join is the multiset of the inner join of the whole inputs |
| Planner.BroadcastJoinRows | minispark/physical/planner.py:152-161 | the broadcast join is the multiset of the inner join of the whole inputs |
| Planner.BoundariesAscend | minispark/physical/planner.py:326-334 | the cut points are n - 1 long and never decrease, in both directions |
| Planner.ColumnRangeBrackets | minispark/physical/planner.py:319-324 | the range found while planning brackets every non-null key |
| Planner.ColumnRangeOccurs | minispark/physical/planner.py:319-324 | and its ends are keys that occur |
| Planner.BoundariesEven | minispark/physical/planner.py:326-334 | the cuts divide the signed range into n equal parts |
| Planner.RangeIsSplit | minispark/physical/planner.py:305-334 | a numeric primary key over scans, filters and projections is split over all the partitions configured |
| Planner.ColumnRangeOfNulls | minispark/physical/planner.py:323-324 | a column of nulls has no range, so a single partition is used |
| Planner.OracleRowsAreRows | minispark/physical/planner.py:319-320 | what is executed while planning is the child's rows |
| Planner.SplitsNumbers | minispark/physical/planner.py:312-317 | the range is split only when every primary key is a number |
| DistributedSort.DistributedSortIsStableSort | minispark/physical/operators.py:451-551 | per-partition sort, range exchange read in source order, and final sort give the same sequence, ties included, as one stable sort of the concatenated partitions |
| DistributedSort.RangeExchangeOrdered | minispark/shuffle/partitioner.py:76-77 | ascending boundaries over the key, negated for descending, send strictly smaller keys to earlier targets |
| DistributedSort.SortedFlatten | minispark/execution/scheduler.py:342-353 | targets each sorted and wholly before the next are sorted when concatenated in id order |
| DistributedAggregate.AggregationIsGroupBy | minispark/physical/planner.py:164-184 | for any source partitioning, hash and target count, over all targets every group is listed exactly once with the state of all its rows |
| DistributedAggregate.MergeOfPartials | minispark/physical/operators.py:274-283 | read in task order, states shuffled from all partitions merge to the table of all rows, sums over strings included |
| DistributedAggregate.PartialsCommute | minispark/physical/operators.py:274-283 | where rows may be merged in any order, so may the partial rows made of them |
| DistributedAggregate.ReadBack | minispark/physical/operators.py:269-275 | the final pass reads from a partial row exactly the key and states put there |
| DistributedAggregate.KeysSurviveIff | minispark/physical/operators.py:304-307 | group keys survive the exchange exactly when no group column is named like an internal state column |
| DistributedAggregate.ClashLosesKey | minispark/physical/planner.py:200-202 | a group column with such a name is overwritten by the state |
| DistributedJoin.ShuffleJoinIsJoin | minispark/physical/operators.py:405-448 | over all targets, the joins of the two sides' buckets are the join of the whole sides, null and duplicate keys included |
| DistributedJoin.BroadcastJoinIsJoin | minispark/physical/operators.py:405-448 | each left partition joined with all of the right side, over all partitions, is the whole join |
| Shuffle.BucketsPartition | minispark/shuffle/writer.py:88-97 | an exchange loses and duplicates no row |
| Shuffle.BisectRightIs | minispark/shuffle/partitioner.py:76-77 | the target of a key is the only place it fits among the boundaries |
| Shuffle.ReadIsBucketOfAll | minispark/shuffle/reader.py:56-60 | reading a target from every source is the target's bucket of the concatenation |
| RelationalMeaning.SameTargetIff | minispark/shuffle/partitioner.py:45-52 | under a hash exchange two rows have one target exactly when their keys' hashes differ by a multiple of the number of targets |
| ExternalSort.ExecuteSortPartition | minispark/physical/operators.py:505-551 | for every threshold and size estimate the output is the one stable sort of the partition, ties included |
| ExternalSort.SortRows | minispark/physical/operators.py:554-568 | the loop of stable passes, last key first |
| ExternalSort.MergeRuns | minispark/physical/operators.py:543-545 | a k-way merge of sorted runs is sorted by the composite key and loses nothing |
| ExternalSort.LeastRun | minispark/physical/operators.py:544 | the run whose head has the least composite key |
| ExternalSort.TakeRowAndSpill | minispark/physical/operators.py:515-527 | one row: runs stay sorted and hold all rows up to the last spill, the buffer holds the rest, the byte count is exactly what is held |
| ExternalSort.BufferRows | minispark/physical/operators.py:509-527 | after the loop the same holds of the whole input, and a positive threshold exceeds the bytes held |
| Spilling.HeldBelowThreshold | minispark/physical/operators.py:284-295 | at every loop head, of the sort as of the aggregation, what is held is nothing or below the threshold, for any size estimate |
| ExternalSort.SpillStep | minispark/physical/operators.py:519-527 | writing the buffer out as one more sorted run loses and adds no row |
| Sorting.SortPassesIsStableSort | minispark/physical/operators.py:565-580 | last-key-first passes with per-key reversal and nulls last are one stable sort by the whole key list |
| Sorting.PassLessIsKeyBefore | minispark/physical/operators.py:571-580 | the flipped sentinel keeps nulls last in both directions |
| Sorting.CompositeKeyOrder | minispark/physical/operators.py:602-631 | comparing composite key tuples is comparing by key list, then arrival |
| Sorting.StableSortMeaning | minispark/physical/operators.py:554-564 | the reference sort is a permutation in key order with ties in arrival order |
| Sorting.StableSortUnique | minispark/physical/operators.py:554-564 | and the only such arrangement |
| StringOrder.ValueLtIs | minispark/physical/operators.py:571-580 | the order of keys is that of numbers on numbers, and on strings that of the dictionary: at the first place where they differ one ends or has the lower character |
| StringOrder.LessThanIs | minispark/expressions/binary.py:49-51 | so is `<` on strings and numbers |
| StringOrder.SortedRowsRise | minispark/physical/operators.py:554-580 | any number of keys, in either direction: what a sort puts earlier comes earlier on those terms, nulls last |
| StringOrder.SortedStrings | minispark/physical/operators.py:554-580 | under one string key no later row's string comes before an earlier one's, or after it if descending |
| OperatorLaws.AdditionLaws | minispark/expressions/binary.py:79-86 | addition is commutative and associative, with 0, and subtraction undoes it |
| OperatorLaws.MultiplicationLaws | minispark/expressions/binary.py:89-96 | multiplication is commutative, distributes over addition, with 1 and 0, and division undoes it |
| OperatorLaws.OrderLaws | minispark/expressions/binary.py:39-56 | of two numbers exactly one of <, = and > holds, < is transitive and kept by addition, a < a + 1, and >= and <= are the negations |
| OperatorLaws.EqualityLaws | minispark/expressions/binary.py:59-66 | = holds of equal values of any kind, != is its negation, neither raises |
| OperatorLaws.LogicLaws | minispark/expressions/binary.py:69-76 | AND, OR and NOT are Boolean algebra on booleans |
| OperatorLaws.TruthLaws | minispark/expressions/predicates.py:11-47 | null, False, zero and the empty string count as false, everything else as true; what NOT, IS NULL, IS NOT NULL, AND and OR make of them |
| OperatorLaws.ReadingLaws | minispark/expressions/column.py:13-22 | a column reads its own field and raises exactly when the row has none |
| OperatorLaws.ConcatenationLaws | minispark/expressions/binary.py:79-81 | a sum of strings has the first before the second |
| OperatorLaws.RaisingLaws | minispark/expressions/binary.py:28-29 | numbers raise only when divided by zero, strings under anything but addition and comparison |
| OperatorLaws.MixedRaisingLaws | minispark/expressions/binary.py:28-29 | a number with a string, or a null, raises under everything but AND, OR, = and != |
| RelationalMeaning.FilterMeans | minispark/physical/operators.py:166-177 | a filter returns the rows at exactly the places where its condition is true, in order |
| RelationalMeaning.ProjectMeans | minispark/physical/operators.py:180-194 | a projection returns each row with exactly the named columns, each holding what its expression is on that row |
| RelationalMeaning.JoinMeans | minispark/physical/operators.py:430-446 | a join returns one row for each pair of rows with equal keys, in order of the right row and then the left, with the columns of both |
| HashAggregate.ExecuteHashAggregatePartition | minispark/physical/operators.py:255-352 | for every input, threshold, size estimate and number of spill rounds the output lists every group once, its state merged from the rows still in memory and then the spilled ones; that is the unspilled table if the rows may be merged in any order or none was spilled |
| HashAggregate.Accumulate | minispark/physical/operators.py:262-295 | the files are, bucket by bucket, the table of the rows up to the last spill, memory that of the rows since, the byte count is exactly what is held and below a positive threshold |
| HashAggregate.TakeRowAndSpill | minispark/physical/operators.py:268-295 | one iteration keeps all of this |
| HashAggregate.NewState | minispark/physical/operators.py:269-283 | a row's new group state is the merge of the old one with the row's contribution |
| HashAggregate.SpillGroups | minispark/physical/operators.py:355-373 | spilling adds the table to the files bucket by bucket, only non-empty buckets |
| HashAggregate.SplitByBucket | minispark/physical/operators.py:368-370 | every group goes to its own bucket, and no bucket has another |
| HashAggregate.TakeRow | minispark/physical/operators.py:268-287 | one row is folded into the table, and the byte count stays the sum over all groups |
| HashAggregate.SpillIfFull | minispark/physical/operators.py:289-295 | at the threshold the whole table moves to the files, after what they hold |
| HashAggregate.MergeFile | minispark/physical/operators.py:329-339 | reading a spill file entry by entry merges its table in |
| HashAggregate.MergeBucket | minispark/physical/operators.py:327-339 | a bucket becomes the merge of its remainder and then all its files, oldest first |
| HashAggregate.OneBucket | minispark/physical/operators.py:319-339 | which is that bucket of the table of the rows held and then the rows spilled |
| HashAggregate.EmitRows | minispark/physical/operators.py:340-348 | one output row per group, each group once |
| HashAggregate.RemainderOf | minispark/physical/operators.py:321-325 | the part of the table in memory that belongs to one bucket |
| HashAggregate.MergeBuckets | minispark/physical/operators.py:319-348 | merging bucket by bucket, remainder then files, lists every group of the whole table exactly once |
| HashAggregate.TableBytesUpdate | minispark/physical/operators.py:284-287 | the running byte count changes by exactly the change of the sum over all groups |
| GroupTables.TableIsGroupBy | minispark/physical/operators.py:268-287 | the table's keys are the keys that occur, each with the fold of exactly its own rows |
| AggregateMeaning.AggregateMeans | minispark/expressions/aggregate.py:64-196 | what an aggregate says of any rows: count of rows, count of non-null values, their sum (a string sum their concatenation), a value that times their count is their sum, one of them that none is below or above; null where there is none |
| AggregateMeaning.StateStep | minispark/expressions/aggregate.py:64-196 | folding in one more row keeps what the state stands for |
| AggregateMeaning.GroupRowsMean | minispark/physical/operators.py:300-315 | a grouping has exactly one row for each key that occurs, with its key and what every aggregate says of the rows with that key |
| AggregateMeaning.GroupIsItsRows | minispark/physical/operators.py:268-270 | a group's rows are the input rows with its key, each as often as it occurs |
| GroupTables.TableAppend | minispark/expressions/aggregate.py:57-58 | the table of a concatenation is the merge of the tables, for any rows and aggregates |
| GroupTables.TablePermutes | minispark/physical/operators.py:268-287 | where rows may be merged in any order, the table depends only on which rows there are |
| GroupTables.TableWhere | minispark/physical/operators.py:325-331 | the rows of some keys make exactly those keys' groups |
| GroupTables.UnspilledEmitsGroups | minispark/physical/operators.py:300-315 | the unspilled listing is one that the end-to-end theorems allow, sums over strings included |
| GroupTables.ListingsEmitGroups | minispark/physical/operators.py:300-352 | so is any listing that meets the contract of the spilling operator |
| SpilledSums.SpillsUnseenIff | minispark/physical/operators.py:289-339 | over columns of known types, spilling never changes a group, whatever the rows, the threshold and the size estimate, exactly when every sum over strings reads group columns only |
| SpilledSums.SpilledSumDiffers | minispark/physical/operators.py:319-339 | otherwise two rows of one group that hold "a" and "b" are summed to another string once the first was spilled |
| SpilledSums.GroupedTextCommutes | minispark/expressions/aggregate.py:104-111 | if every sum over strings reads group columns only, any rows of such a table may be merged in any order |
| SpilledSums.GroupedTextSettles | minispark/physical/planner.py:164-184 | and grouping it is settled, as the end-to-end theorems ask |
| AggregateFunctions.MergeCommutes | minispark/expressions/aggregate.py:70-196 | merging is commutative for all five aggregates, nulls and steps that raise included, but for two strings of a sum |
| AggregateFunctions.MergeAssociates | minispark/expressions/aggregate.py:70-196 | merging is associative, whatever the states |
| AggregateFunctions.UpdateIsMerge | minispark/expressions/aggregate.py:70-196 | updating is merging in one row's state, and the initial state is neutral |
| Joins.ExecuteHashJoinPartition | minispark/physical/operators.py:430-446 | build on left and probe with right is exactly the nested-loop join, order included |
| Joins.BuildTable | minispark/physical/operators.py:430-433 | the table maps exactly the keys that occur on the left, each to its rows in order |
| Joins.JoinPermutes | minispark/physical/operators.py:430-446 | the join depends only on which rows each side holds |
| Optimizers.Optimizer.Optimize | minispark/optimizer/optimizer.py:58-66 | the result is some number of passes, at most the limit, fewer only when a pass left the explain text unchanged; for every plan meeting the hypotheses the rows and columns are unchanged |
| Optimizers.PassesRefine | minispark/optimizer/optimizer.py:60-65 | any number of passes keeps the row sequence, the columns, and the hypotheses themselves |
| Optimizers.FixedPoint | minispark/optimizer/optimizer.py:64-65 | once a pass changes nothing, stopping early loses nothing |
| Optimizers.Optimizer.OnePass | minispark/optimizer/optimizer.py:62-63 | the loop over the rules is one pass |
| RuleEffects.DefaultRulesAre | minispark/optimizer/optimizer.py:29-46 | the rules are those enabled, each once, in their fixed turn |
| Optimizers.FoldingKeepsNamesIff | minispark/logical/nodes.py:256-261 | folding keeps a Project's column names exactly when each column is plain, aliased or has nothing to fold |
| AliasReuse.AliasesAreSafeIff | minispark/optimizer/rules.py:221-227 | pushing filters below a projection of kept and aliased columns is safe for every table, expressions and filter exactly when no alias names a column below |
| AliasReuse.DeepAliasesAreSafeIff | minispark/optimizer/rules.py:407-415 | under any tower of plain projections, elimination followed by pushdown is safe exactly when no alias names a column of the table at the bottom |
| AliasReuse.TowerRows | minispark/optimizer/rules.py:414-415 | over any such tower a projection computes what it computes over the table |
| AliasReuse.ReusedNameLosesRow | minispark/optimizer/rules.py:223-227 | a projection and filter that lose a row when the alias does |
| PlanRules.ConstantFoldingRefines | minispark/optimizer/rules.py:106-116 | constant folding keeps rows, columns and hypotheses |
| PlanRules.FilterSimplificationRefines | minispark/optimizer/rules.py:151-166 | filter simplification keeps rows, columns and hypotheses |
| PlanRules.MapExpressionsRefines | minispark/optimizer/rules.py:39-77 | any rewrite that keeps meanings and shapes may be mapped over a plan's expressions |
| PlanRules.PushdownRefines | minispark/optimizer/rules.py:201-251 | predicate pushdown keeps rows, columns and hypotheses, below Projects and into either side of a Join |
| PlanRules.EliminateRefines | minispark/optimizer/rules.py:395-419 | eliminating identity and plain projections keeps rows, columns and hypotheses |
| Pruning.PruneNarrows | minispark/optimizer/rules.py:281-350 | a pruned plan has the same rows, in order, restricted to the needed columns |
| Pruning.PruneRefines | minispark/optimizer/rules.py:277-350 | with nothing narrowed above, pruning keeps the rows exactly |
| RuleEffects.PruneNarrowsScans | minispark/optimizer/rules.py:281-350 | a pruned plan is the same plan with no column of a scan read that nothing above it reads |
| ExpressionRules.FoldPreserves | minispark/optimizer/rules.py:83-103 | folding keeps the value on every row |
| ExpressionRules.FoldIsSafe | minispark/optimizer/rules.py:83-103 | an expression that evaluates somewhere folds without raising, to one that evaluates there too |
| ExpressionRules.FoldIdempotent | minispark/optimizer/rules.py:83-103 | folding twice is folding once |
| RuleEffects.FoldFolds | minispark/optimizer/rules.py:83-103 | after folding no operator is left with only literals to work on |
| RuleEffects.ConstantsFoldAway | minispark/optimizer/rules.py:83-103 | an expression of literals folds to the one literal it evaluates to |
| RuleEffects.PushdownRestsIff | minispark/optimizer/rules.py:201-251 | pushdown leaves a plan alone exactly when no filter in it stands over a projection or join it could go below |
| RuleEffects.EliminateRestsIff | minispark/optimizer/rules.py:395-419 | elimination leaves a plan alone exactly when no projection in it passes on everything or reads from one that only picks columns, and makes it smaller otherwise |
| ExpressionRules.SimplifyPreserves | minispark/optimizer/rules.py:122-148 | with boolean operands simplification keeps the value |
| ExpressionRules.SimplifyKeepsTruth | minispark/optimizer/rules.py:122-148 | in boolean positions it keeps the truth |
| ExpressionRules.SimplifyIdempotent | minispark/optimizer/rules.py:122-148 | one pass reaches a form with no literal beside And or Or and no double negation; a second changes nothing |
| ExpressionRules.ConnectiveKeepsValueIff | minispark/optimizer/rules.py:122-143 | for And, Or and Not of simplified operands, the exact condition: an operand put in the place of its connective (beside a literal that decides nothing, or under two negations) keeps the value exactly when it is a boolean there, and every other simplification keeps it always |
| ExpressionRules.SimplifyDropsCoercion | minispark/expressions/binary.py:69-76 | where n is 5, `n AND True`, `n OR False` and `NOT NOT n` are True, and 5 once simplified |
| QuietPlans.ExpressionRulesQuiet | minispark/optimizer/rules.py:39-77 | folding and simplification make no plan raise |
| QuietPlans.PushFilterQuietIff | minispark/optimizer/rules.py:221-248 | one push keeps a quiet plan quiet exactly when, if it goes below a join, the condition raises on no row of that side |
| QuietPlans.PushdownQuietIff | minispark/optimizer/rules.py:201-251 | the whole pass, filters, projections and joins nested in any way, keeps a quiet plan quiet exactly when every filter it moves below a join raises on no row of the side it moves to |
| QuietPlans.PushdownHeadSilent | minispark/optimizer/rules.py:204-227 | a projection that ends up on top raises on no row of its whole input |
| QuietPlans.JoinFreePushesQuietly | minispark/optimizer/rules.py:201-251 | without joins the condition holds |
| QuietPlans.PushBelowJoinCanRaise | minispark/optimizer/rules.py:228-247 | a query that returns nothing raises once its filter is pushed to rows that join nothing |
| QuietPlans.PushdownQuiet | minispark/optimizer/rules.py:201-251 | so it makes no plan without joins raise |
| QuietPlans.EliminateQuiet | minispark/optimizer/rules.py:395-419 | projection elimination makes no plan raise |
| QuietPlans.PruneQuiet | minispark/optimizer/rules.py:281-350 | pruning makes no plan raise |
| QuietPasses.FoldPassRaisesIff | minispark/optimizer/rules.py:39-88 | constant folding raises on a quiet plan exactly when it folds to an error some condition or column that no row reaches |
| QuietPasses.FoldingSafeIff | minispark/optimizer/rules.py:39-88 | whatever the conditions and columns of a plan computing the same rows, folding does not raise, exactly when every filter and every projection is given rows |
| QuietPasses.FilterFoldsIff | minispark/optimizer/rules.py:83-88 | for one filter over any quiet plan: it folds safely, whatever it asks, exactly when some row reaches it |
| QuietPasses.FoldingRaisesOnNothing | minispark/optimizer/rules.py:87-88 | over an empty table the optimizer raises where the query would return nothing |
| QuietPasses.UnfedRaises | minispark/optimizer/rules.py:39-88 | every plan with a starved filter or projection is like a quiet plan on which folding raises |
| QuietPasses.SafePassesIff | minispark/optimizer/optimizer.py:58-66 | over any number of passes every rule runs to its end and leaves a quiet plan exactly when no folding meets a starved error and no push moves a filter to rows it raises on |
| ExecutablePlans.PassesCarry | minispark/optimizer/optimizer.py:58-66 | what distributed execution relies on (settled groupings, split sort keys, no clashing names) survives any number of passes |
| ScanPushdown.WalkExact | minispark/physical/planner.py:337-403 | for any source that keeps the asked-for columns and drops no matching row, the rewritten plan has the same rows in order |
| ScanPushdown.WalkHides | minispark/physical/planner.py:343-403 | under hints, the rows agree on the wanted columns once the filters above are applied |
| RuleEffects.SourceIsAsked | minispark/physical/planner.py:343-403 | under a filter and a projection a source is asked for just the columns the two read and for the filter's rows |
| RuleEffects.BothFiltersAreAsked | minispark/physical/planner.py:383-391 | under two filters it is asked for the rows that pass both |
| RuleEffects.NothingIsAskedThroughSorts | minispark/physical/planner.py:392-403 | a sort stops hints, and a scan without hints is left alone |
| ScanPushdown.WalkCarries | minispark/physical/planner.py:343-417 | scan pushdown keeps what execution relies on |
| Logical.RowsOk | minispark/logical/analyzer.py:38-65 | every row of an analyzed plan has exactly the schema's columns, with booleans where promised |
| SqlRoundTrip.RoundTrip | minispark/sql/parser.py:309-426 | every expression in the parser's image, printed with minimal parentheses, tokenizes and parses back to itself, consuming all of the text |
| SqlRoundTrip.ImageOfParser | minispark/sql/parser.py:309-426 | the printable expressions are exactly those that some text parses to |
| SqlShortest.PrintIsShortest | minispark/sql/parser.py:309-426 | no text that parses to an expression has fewer tokens than the printed one, so no pair of printed parentheses can be left out |
| SqlShortest.ParsedWithin | minispark/sql/parser.py:309-426 | at every level of the ladder, what a parse consumes is at least as long as its result printed at that level |
| SqlRoundTrip.ParseExpression | minispark/sql/parser.py:89-97 | tokenizer and parser together compute the specified parse |
| SqlNumerals.NumeralIs | minispark/sql/parser.py:372-375 | a natural number written in decimal denotes that number |
| SqlNumerals.PointDivides | minispark/sql/parser.py:372-375 | a point before the last k digits divides by ten to the k |
| SqlNumerals.ParseNumeral | minispark/sql/parser.py:372-375 | a text that is a numeral parses to the literal it denotes |
| SqlNumerals.ParseDecimal | minispark/sql/parser.py:372-375 | so the decimal text of n parses to n, and digits with a point to their value over the power of ten |
| SqlNumerals.KeywordInAnyCase | minispark/sql/tokenizer.py:82-83 | a keyword is that keyword however its letters are spelled |
| SqlNumerals.BlanksAreSkipped | minispark/sql/tokenizer.py:62-66 | blanks before a text are passed over |
| SqlNumerals.CommentsAreSkipped | minispark/sql/tokenizer.py:67-71 | so is a comment, to the end of its line |
| SqlNumerals.NotEqualTwoWays | minispark/sql/parser.py:339-348 | `<>` and `!=` mean the same |
| SqlReadings.Precedence | minispark/sql/parser.py:309-364 | of two operators in a row the stronger one takes the operand between them, the first one when they are equally strong, and a comparison after a comparison is an error |
| SqlReadings.Prefixes | minispark/sql/parser.py:324-369 | NOT takes a whole comparison, but only the first operand of AND and OR; minus takes only the first operand of anything |
| SqlReadings.NullTests | minispark/sql/parser.py:329-337 | IS NULL and IS NOT NULL take a whole comparison or sum, but only the last operand of AND and OR |
| SqlReadings.Parentheses | minispark/sql/parser.py:385-388 | parentheses around any expression give that expression |
| SqlReadings.Words | minispark/sql/parser.py:379-384 | what TRUE, FALSE and NULL stand for |
| SqlReadings.Names | minispark/sql/parser.py:389-395 | a name is that column, and of a qualified name the last part is |
| SqlReadings.Calls | minispark/sql/parser.py:404-426 | a call of one argument is the aggregate its name spells in any case, and any other name an error |
| SqlReadings.StarCalls | minispark/sql/parser.py:413-415 | a star is an argument of COUNT only |
| SqlRoundTrip.LexRender | minispark/sql/tokenizer.py:58-102 | rendered tokens, quotes doubled, tokenize to themselves |
| SqlPrinter.ParsePrinted | minispark/sql/parser.py:309-396 | printed at any level of the ladder, an expression parses back at that level: left associativity, non-chaining comparisons, unary minus |
| SqlPrinter.ParseSpine | minispark/sql/parser.py:350-364 | the loop of a left-associative level, having read a printed chain, is left with the chain's tree |
| SqlParser.Parser.ParseOr | minispark/sql/parser.py:312-316 | the loop returns what the ladder specifies at its level and stops where it says |
| SqlParser.Parser.ParseExpr | minispark/sql/parser.py:309-310 | the whole ladder |
| SqlParser.Parser.ParseAnd | minispark/sql/parser.py:318-322 | the AND loop |
| SqlParser.Parser.ParseNot | minispark/sql/parser.py:324-327 | any number of NOTs |
| SqlParser.Parser.ParseNullCheck | minispark/sql/parser.py:329-337 | at most one IS NULL or IS NOT NULL |
| SqlParser.Parser.ParseComparison | minispark/sql/parser.py:339-348 | at most one comparison |
| SqlParser.Parser.ParseAdditive | minispark/sql/parser.py:350-356 | the additive loop |
| SqlParser.Parser.ParseMultiplicative | minispark/sql/parser.py:358-364 | the multiplicative loop |
| SqlParser.Parser.ParseUnary | minispark/sql/parser.py:366-369 | minus as a multiplication by -1 |
| SqlParser.Parser.ParsePrimaryExpr | minispark/sql/parser.py:371-396 | literals, parentheses, names, calls and every error |
| SqlParser.Parser.ParseFunctionCall | minispark/sql/parser.py:404-426 | COUNT(*), one-argument aggregates, and every error |
| SqlParser.Parser.Advance | minispark/sql/parser.py:112-116 | moves past every token but the last |
| SqlTokenizer.Tokenize | minispark/sql/tokenizer.py:58-102 | the index-driven loop computes the token list of the text, or the error |
| SqlTokenizer.ReadStep | minispark/sql/tokenizer.py:62-100 | one turn of the loop is one step of the specification |
| SqlTokenizer.SkipLine | minispark/sql/tokenizer.py:67-71 | a comment ends just past the next newline or at the end |
| SqlTokenizer.ReadString | minispark/sql/tokenizer.py:105-120 | contents with doubled quotes read as one, the position after the closing quote, or unterminated |
| SqlTokenizer.ReadNumber | minispark/sql/tokenizer.py:123-131 | the longest run of digits with at most one dot |
| SqlTokenizer.ReadIdentifier | minispark/sql/tokenizer.py:134-139 | the longest run of name characters |
| SqlTokenizer.LexGood | minispark/sql/tokenizer.py:58-102 | an accepted text gives well-formed tokens, end marker last and nowhere else |
| SqlHaving.SubstituteSucceedsIff | minispark/sql/parser.py:440-481 | the HAVING rewrite succeeds exactly when every aggregate in it is selected, and leaves none behind |
| SqlHaving.SubstituteMeaning | minispark/sql/parser.py:440-481 | the rewritten condition means on the output row what the original means for the group |
| SqlHaving.HavingReadsGroup | minispark/sql/parser.py:459-464 | on a grouped row with distinct names it reads the group's finalized aggregates |
| CsvRanges.ReadAll | minispark/storage/csv.py:237-268 | for any file and requested partition count the partitions, in order, are the data lines once each, none empty unless all are, and all but the last of one size, the least that the partitions asked for can hold them in |
| CsvRanges.CutRanges | minispark/storage/csv.py:245-252 | ranges are consecutive, disjoint, non-empty and cover all rows, at most as many as asked for, and all but the last of one size, the least of which that many cover the rows |
| CsvRanges.LocateOffsets | minispark/storage/csv.py:161-193 | for any list of rows, each recorded offset is the start of that row's line, or the end of the file |
| CsvRanges.ReadRange | minispark/storage/csv.py:214-222 | a range read from its offset is exactly its lines |
| CsvRanges.CountRows | minispark/storage/csv.py:146-158 | the number of lines after the header |
| CsvRanges.TextFile.Readline | minispark/storage/csv.py:177-184 | reads the line at the cursor and moves to the next; empty exactly at the end |
| CsvRanges.SortedSet | minispark/storage/csv.py:169 | the wanted rows ascending, each once |
| CsvRanges.RangesApart | minispark/storage/csv.py:247-252 | an earlier range lies wholly before a later one |
| CsvRanges.LinesAreText | minispark/storage/csv.py:161-168 | the lines together are the text |
| CsvRanges.HeaderThenData | minispark/storage/csv.py:146-158 | the header line and the data lines together are the text |
| CsvRanges.LinesAreLines | minispark/storage/csv.py:161-168 | a line has a newline at its end, unless it is the last, and nowhere else |

## Left out

- Query.Collect: takes evaluation errors as task failures chosen by `Faults` instead of deriving them from the plan, so an execution whose expressions raise is one that fails on its own; `QuietPlans` and `QuietPasses` say which rewrites can make one raise.
- Scheduler.LocalScheduler.RunPlan: where two executions find one stage lost, both count like executions that fail on their own, because the second task keeps its old block list (`minispark/execution/scheduler.py:290-291`).
- Scheduler.Run.RunBatch: a process pool runs a batch in parallel; here its tasks run in order, with faults chosen independently for each execution.
- Scheduler.Run.ExecuteTask: timing, memory and byte metrics of a task are not modelled.
- ShuffleStore.WriteShufflePartition: pickling, directories and byte lengths are left out; a file is a sequence of rows and a checksum stands for the contents it digests, so corruption is always detected.
- ShuffleStore.ReadBlocksSafe: a block is intact, gone or detectably corrupt; an undetected collision of checksums is not modelled.
- ExternalSort.ExecuteSortPartition: the output is consumed once, as a task does; re-reading a partition whose spill directory is gone is not modelled, and a spill file is a sequence.
- HashAggregate.ExecuteHashAggregatePartition: states the groups as a table listed in some order, since spilling changes the order in which they are listed.
- Planner.TranslateMeaning: compares multisets for aggregates and joins, whose row order depends on hashing and partitioning; so it says nothing of a sum over strings whose rows come from one of them in no set order, or were spilled, and do not commute.
- Planner.SortedQuery: a primary key that is null in some rows only, or of mixed kinds, is excluded where the range is split: `bisect_right` and negation raise there.
- Optimizers.Optimizer.Optimize: does not claim that ten passes reach a fixed point; the meaning is kept for every number of passes.
- QuietPasses.SafePassesIff: asks for a quiet plan after every rule; whether the last plan is quiet though an earlier one was not is left open, since a later rule may remove an expression that raises.
- SqlRoundTrip.RoundTrip: covers expressions, qualified column names included, with `1` and `1.0` as one number; the statement around them (SELECT, JOIN, GROUP BY, ORDER BY) is not parsed here.
- SqlTokenizer.Tokenize: character classes are ASCII; Python's isdigit, isalpha and isspace accept more.
- CsvRanges.ReadAll: works on lines ended by a newline; quoting, type inference, carriage returns and newlines inside fields are left out.
- ScanPushdown.WalkExact: assumes what the DataSource interface promises; the Parquet source and its predicate translation are not part of this model.
- Integers, floats and booleans: numbers are exact reals and distinct from booleans; rounding, NaN, and `1 == 1.0 == True` are left out.
- Python's type errors between kinds of values: comparison and arithmetic across kinds have a value here and `Raises` says so; a string times a whole number and arithmetic on booleans, which Python allows, count as raising too.
- Session and configuration objects, explain and show, checkpointing, benchmarks, the naive executor, and statistics other than a column's least and greatest values.
