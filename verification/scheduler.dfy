/**
 The lineage-recovering scheduler (minispark/execution/scheduler.py,
 minispark/execution/worker.py): stages in order, task retries, and one recomputation of
 a stage whose blocks are found lost or corrupt, all over shared mutable state.
 */
module Scheduler {
  import opened Options
  import opened Values
  import opened Expressions
  import opened Sequences
  import opened Shuffle
  import opened Physical
  import opened Stages
  import opened ShuffleStore
  import opened SchedulerState
  import opened SchedulerAccounts
  import opened SchedulerSteps
  import opened SchedulerPlan

  // ---- a run ---------------------------------------------------------------

  /** The state one run_plan call shares between its stages, tasks and recoveries. */
  class Run {
    const rt: Runtime
    const stages: seq<Stage>
    const maxRetries: int
    const faults: Faults
    const manager: ShuffleManager
    var nextTaskId: nat
    var recomputed: set<nat>
    var metrics: seq<StageMetrics>
    var files: Files
    var executions: nat
    ghost var log: Log

    ghost function Now(): Snapshot
      reads this, manager
    {
      Snapshot(files, manager.blocks, nextTaskId, recomputed, metrics, executions, log)
    }

    ghost predicate Ok()
      reads this, manager
    {
      Fine(rt, stages, faults, Now())
    }

    constructor (rt: Runtime, stages: seq<Stage>, maxRetries: int, faults: Faults)
      requires Sound(stages)
      ensures this.rt == rt && this.stages == stages && this.maxRetries == maxRetries && this.faults == faults
      ensures fresh(manager) && Ok()
      ensures Now() == Snapshot(map[], map[], 0, {}, [], 0, Log({}, map[], [], map[], map[]))
    {
      this.rt, this.stages, this.maxRetries, this.faults := rt, stages, maxRetries, faults;
      manager := new ShuffleManager();
      nextTaskId, recomputed, metrics, files, executions := 0, {}, [], map[], 0;
      log := Log({}, map[], [], map[], map[]);
    }

    /** The body of a task whose inputs were all read: compute, and write blocks if the
        stage ends in an exchange. */
    method RunBody(task: Task, inputs: map<nat, seq<Record>>) returns (result: TaskResult)
      requires Ok() && GoodTask(rt, stages, Now(), task.stageId, task)
      requires inputs == InputsFor(rt, stages, task.stageId, ReadLeaves(task.plan), task.partitionId)
      modifies this`files, this`log
      ensures OnlyExecuted(old(Now()), Now(), 0, {task.taskId})
      ensures GoodSuccess(rt, stages, Now(), task.stageId, task.partitionId, task.taskId, result)
    {
      ghost var k := task.stageId;
      var rows := ExecutePartition(rt, Body(task.plan), task.partitionId, inputs);
      log := log.(completed := log.completed + {task.taskId});
      if task.plan.ShuffleWriteExec? {
        assert WritesLegally(stages[k]);
        ghost var before := files;
        var blocks;
        blocks, files := WriteShufflePartition(rt, task.plan.part, task.stageId, task.taskId, rows, files);
        StoredElsewhere(before, blocks, task.taskId);
        WrittenHeld(rt, task.plan.part, task.stageId, task.taskId, rows, before, Now());
        result := Succeeded([], blocks);
      } else {
        result := Succeeded(rows, []);
      }
    }

    /** execute_task: reads the task's inputs, computes, and writes blocks if its stage
        ends in an exchange.  Every exception becomes a failed result. */
    method ExecuteTask(task: Task) returns (result: TaskResult)
      requires Ok() && GoodTask(rt, stages, Now(), task.stageId, task)
      modifies this`files, this`executions, this`log
      ensures Ok() && OnlyExecuted(old(Now()), Now(), 1, {task.taskId})
      ensures Outcome(rt, stages, faults, Now(), task.stageId, task, result)
      ensures result.Failed? ==> result.execution == old(executions)
    {
      hide ExecutePartition, InputsFor, ReadLeaves, GoodTask, GoodSuccess, Consistent, Sound, Loses, Gather, Real;
      ghost var before := Now();
      var n := executions;
      executions := executions + 1;
      GatherTask(rt, stages, faults, before, n, task);
      if faults.ordinary(n) {
        if task.plan.ShuffleWriteExec? { files := Leave(files, task.stageId, task.taskId, faults.debris(n)); }
        result := Failed(None, n);
        FailedExecution(rt, stages, faults, before, Now(), task, result);
      } else {
        match Gather(files, faults.unreadable(n), task.blocks, ReadLeaves(task.plan)) {
          case MissingStage(f) =>
            result := Failed(Some(f), n);
            FailedExecution(rt, stages, faults, before, Now(), task, result);
          case Inputs(inputs) =>
            StillFine(rt, stages, faults, before, Now(), 1, {task.taskId});
            GoodTaskKept(rt, stages, before, Now(), task.stageId, task);
            result := RunBody(task, inputs);
            StillFine(rt, stages, faults, before, Now(), 1, {task.taskId});
        }
      }
    }

    /** _run_batch: every waiting task once, in order. */
    method RunBatch(k: nat, ghost first: nat, ghost tries: nat, batch: seq<Attempt>) returns (results: seq<TaskResult>)
      requires Ok() && Waiting(rt, stages, Now(), k, first, tries, batch)
      modifies this`files, this`executions, this`log
      ensures Ok() && OnlyExecuted(old(Now()), Now(), |batch|, Ids(batch))
      ensures |results| == |batch| && Numbered(old(executions), results)
      ensures Answered(rt, stages, faults, Now(), k, batch, results)
    {
      results := [];
      for i := 0 to |batch|
        invariant Ok() && OnlyExecuted(old(Now()), Now(), i, Ids(batch[..i]))
        invariant |results| == i && Numbered(old(executions), results) && Answered(rt, stages, faults, Now(), k, batch[..i], results)
      {
        ghost var before := Now();
        NextIsGood(rt, stages, old(Now()), before, k, first, tries, batch, i);
        var result := ExecuteTask(batch[i].task);
        AnsweredSnoc(rt, stages, faults, old(Now()), before, Now(), k, first, tries, batch, results, result);
        results := results + [result];
      }
      assert batch[..|batch|] == batch;
    }

    /** What becomes of one result: its stage recomputed and the task rebuilt, a retry,
        or done with it. */
    method Settle(k: nat, ghost first: nat, attempt: Attempt, result: TaskResult)
      returns (ok: bool, again: Option<Attempt>, retried: bool, ghost held: bool)
      requires Ok() && Ready(stages, Now(), k) && AttemptOf(stages, k, first, Tries(maxRetries), attempt)
      requires Outcome(rt, stages, faults, Now(), k, attempt.task, result) && attempt.task.taskId < nextTaskId
      requires attempt.number == |SpentBy(Now(), attempt.task.taskId)|
      requires result.Failed? ==> result.execution !in log.dealt
      modifies this, manager
      ensures Advances(rt, stages, faults, old(nextTaskId), AfterSettling(old(Now()), attempt.task.taskId, result, held), Now())
      ensures if ok then Reported(old(Now()), Now()) else Excused(Tries(maxRetries), Now())
      ensures RunsGrow(old(Now()), Now(), multiset{})
      ensures ok ==> Settled(rt, stages, Now(), k, first, Tries(maxRetries), attempt, result, again)
      ensures Credit(stages, Tries(maxRetries), Now()) >= Credit(stages, Tries(maxRetries), old(Now()))
      ensures ok && again.Some? ==>
                Credit(stages, Tries(maxRetries), Now()) + again.value.number
                >= Credit(stages, Tries(maxRetries), old(Now())) + attempt.number + 1
      ensures ok && again.Some? && |recomputed| == |old(recomputed)| ==> again.value.number == attempt.number + 1
      ensures ok ==> held == (result.Failed? && (again.None? || retried)) && (retried ==> again.Some? && again.value.number > 0 && maxRetries > 0)
      decreases |stages| - |recomputed|, 2
    {
      hide Consistent, Real, Sound, GoodTask, SpentBy, Kept, SpentFrom, OnlyFrom, DealtSince, Caused, Reported, RunsGrow, Allowance;
      ghost var before, id := Now(), attempt.task.taskId;
      ok, again, retried, held := true, None, false, false;
      SameRuns(before, before);
      ReportsNothing(before);
      NothingDone(rt, stages, faults, before);
      if result.Failed? {
        log := Noted(log, result);
        ghost var noted := Now();
        NotedFine(rt, stages, faults, before, noted, k, attempt.task, result);
        if result.missingStage.Some? {
          var recovered;
          ok, recovered := TryRecoverMissingShuffle(k, attempt.task, result.missingStage.value);
          Recovering(rt, stages, faults, before, noted, Now(), result);
          if !ok { return; }
          if recovered.Some? {
            TallyKept(rt, stages, faults, before, noted, Now(), id, result);
            again := Some(Attempt(recovered.value, attempt.number));
            return;
          }
        }
        held := true;
        log := log.(spent := log.spent[result.execution := id]);
        HeldSettles(rt, stages, faults, before, Now(), k, attempt.task, result);
        if attempt.number < maxRetries {
          again := Some(Attempt(attempt.task, attempt.number + 1));
          retried := true;
        }
      }
    }

    /** _try_recover_missing_shuffle: recomputes the stage whose blocks were reported
        missing, once per run, and rebuilds the task on the fresh blocks. */
    method TryRecoverMissingShuffle(k: nat, task: Task, missing: nat) returns (ok: bool, recovered: Option<Task>)
      requires Ok() && Ready(stages, Now(), k) && GoodTask(rt, stages, Now(), k, task)
      requires missing < k && Missed(log.dealt, missing)
      modifies this, manager
      ensures Advances(rt, stages, faults, old(nextTaskId), old(Now()), Now())
      ensures if ok then Reported(old(Now()), Now()) else Excused(Tries(maxRetries), Now())
      ensures RunsGrow(old(Now()), Now(), multiset{})
      ensures Credit(stages, Tries(maxRetries), Now()) >= Credit(stages, Tries(maxRetries), old(Now()))
      ensures ok && recovered.None? ==> Now() == old(Now()) && missing in old(recomputed)
      ensures ok && recovered.Some? ==>
                && GoodTask(rt, stages, Now(), k, recovered.value)
                && recovered.value.taskId == task.taskId && recovered.value.partitionId == task.partitionId
                && |recomputed| > |old(recomputed)|
                && Credit(stages, Tries(maxRetries), Now()) > Credit(stages, Tries(maxRetries), old(Now()))
      decreases |stages| - |recomputed|, 1
    {
      ok, recovered := true, None;
      SameRuns(Now(), Now());
      if missing in recomputed { return; }
      if missing >= |stages| { return; }
      ghost var before := Now();
      recomputed := recomputed + {missing};
      ghost var marked := Now();
      MarkedFine(rt, stages, faults, before, marked, missing);
      ReadyBelow(stages, marked, k, missing);
      var results;
      ghost var first;
      ok, results, first := RunStage(missing, true);
      AdvancesTrans(rt, stages, faults, old(nextTaskId), old(nextTaskId), before, marked, Now());
      ReportedRecompute(before, marked, Now(), missing);
      if !ok { return; }
      ReadyKept(stages, before, Now(), k);
      ResolvedLeaves(rt, stages, Now(), k, task.partitionId);
      SubsetSize(marked.recomputed, recomputed);
      recovered := Some(task.(blocks := ResolveBlocks(manager.blocks, ReadLeaves(task.plan), task.partitionId)));
    }

    /** Settles the i-th result of a batch: back into the queue, or done with. */
    method SettleNext(k: nat, ghost first: nat, ghost before: Snapshot, batch: seq<Attempt>, results: seq<TaskResult>, i: nat,
                      next: seq<Attempt>, done: map<nat, TaskResult>, retried: set<nat>)
      returns (ok: bool, next': seq<Attempt>, done': map<nat, TaskResult>, retried': set<nat>)
      requires i < |batch| && |results| == |batch|
      requires RoundAt(rt, stages, faults, Tries(maxRetries), k, first, before, Now(), batch, results, i, next, done)
      requires Retried(Now(), maxRetries, first, stages[k].numPartitions, done, retried)
      modifies this, manager
      ensures ok ==> Retried(Now(), maxRetries, first, stages[k].numPartitions, done', retried')
      ensures ok ==> RoundAt(rt, stages, faults, Tries(maxRetries), k, first, before, Now(), batch, results, i + 1, next', done')
      ensures !ok ==>
                && Advances(rt, stages, faults, first, before, Now()) && Excused(Tries(maxRetries), Now())
                && RunsGrow(before, Now(), multiset{})
                && Credit(stages, Tries(maxRetries), Now())
                   >= Credit(stages, Tries(maxRetries), before) - Budget(Tries(maxRetries), batch)
      decreases |stages| - |recomputed|, 3
    {
      next', done', retried' := next, done, retried;
      ghost var at, tries := Now(), Tries(maxRetries);
      var again, wasRetried;
      ghost var held;
      hide RoundAt, Retried, Fine, SpentBy, AfterSettling, Credit, Budget, Outcome, Kept, RunsGrow, Reported;
      ToSettle(rt, stages, faults, tries, k, first, before, at, batch, results, i, next, done);
      ok, again, wasRetried, held := Settle(k, first, batch[i], results[i]);
      if !ok {
        RoundFails(rt, stages, faults, tries, k, first, before, at, Now(), batch, results, i, next, done, held);
      } else if again.Some? {
        RoundAgain(rt, stages, faults, tries, k, first, before, at, Now(), batch, results, i, next, done, again.value, held);
        next' := next + [again.value];
        if wasRetried { retried' := retried + {again.value.task.taskId}; }
      } else {
        RoundDone(rt, stages, faults, tries, k, first, before, at, Now(), batch, results, i, next, done, held);
        done' := done[batch[i].task.taskId := results[i]];
      }
      if ok {
        RetriedAfter(rt, stages, faults, tries, maxRetries, k, first, before, at, Now(), batch, results, i, next, done, done',
                     retried, again, held, wasRetried);
      }
    }

    /** One turn of the loop of _run_to_completion: the waiting tasks run as a batch, and
        every result is settled. */
    method RunRound(k: nat, ghost first: nat, ghost start: Snapshot, pending: seq<Attempt>, done: map<nat, TaskResult>, retried: set<nat>)
      returns (ok: bool, pending': seq<Attempt>, done': map<nat, TaskResult>, retried': set<nat>)
      requires RunAt(rt, stages, faults, Tries(maxRetries), k, first, start, Now(), pending, done)
      requires Retried(Now(), maxRetries, first, stages[k].numPartitions, done, retried)
      modifies this, manager
      ensures ok ==> Retried(Now(), maxRetries, first, stages[k].numPartitions, done', retried')
      ensures ok ==> RunAt(rt, stages, faults, Tries(maxRetries), k, first, start, Now(), pending', done')
      ensures ok && pending != [] ==>
                || |recomputed| > |old(recomputed)|
                || (|recomputed| == |old(recomputed)| && Budget(Tries(maxRetries), pending') < Budget(Tries(maxRetries), pending))
      ensures ok ==> |stages| >= |recomputed| && Budget(Tries(maxRetries), pending') >= 0
      ensures !ok ==> RunFailed(rt, stages, faults, Tries(maxRetries), k, first, start, Now())
      decreases |stages| - |recomputed|, 4
    {
      ghost var before, tries := Now(), Tries(maxRetries);
      var results := RunBatch(k, first, tries, pending);
      pending', done', retried' := [], done, retried;
      RoundBegins(rt, stages, faults, tries, k, first, before, Now(), pending, results, done);
      RetriedKept(before, Now(), maxRetries, first, stages[k].numPartitions, done, retried);
      ok := true;
      for i := 0 to |pending|
        invariant RoundAt(rt, stages, faults, tries, k, first, before, Now(), pending, results, i, pending', done')
        invariant Retried(Now(), maxRetries, first, stages[k].numPartitions, done', retried')
      {
        RoundMeasure(rt, stages, faults, tries, k, first, before, Now(), pending, results, i, pending', done');
        ok, pending', done', retried' := SettleNext(k, first, before, pending, results, i, pending', done', retried');
        if !ok {
          RoundAborts(rt, stages, faults, tries, k, first, start, before, Now(), pending, done);
          return;
        }
      }
      RoundEnds(rt, stages, faults, tries, k, first, before, Now(), pending, results, pending', done');
      RoundAfter(rt, stages, faults, tries, k, first, start, before, Now(), pending, done, pending', done');
    }

    /** One task per partition of the stage, on the blocks registered now. */
    method MakeTasks(k: nat) returns (attempts: seq<Attempt>)
      requires Ok() && Ready(stages, Now(), k) && k < |stages|
      modifies this`nextTaskId
      ensures Ok() && Now() == old(Now()).(nextTaskId := old(nextTaskId) + stages[k].numPartitions)
      ensures |attempts| == stages[k].numPartitions
      ensures forall p :: 0 <= p < |attempts| ==>
                && AttemptOf(stages, k, old(nextTaskId), 1, attempts[p]) && attempts[p].number == 0
                && attempts[p].task.taskId == old(nextTaskId) + p
                && GoodTask(rt, stages, Now(), k, attempts[p].task)
    {
      var stage, leaves := stages[k], ReadLeaves(stages[k].plan);
      attempts := [];
      ghost var before := Now();
      for pid := 0 to stage.numPartitions
        invariant Now() == before.(nextTaskId := before.nextTaskId + pid)
        invariant |attempts| == pid
        invariant forall p :: 0 <= p < pid ==>
                    attempts[p] == Attempt(Task(before.nextTaskId + p, k, p, stage.plan,
                                                ResolveBlocks(before.blocks, leaves, p)), 0)
      {
        var task := Task(nextTaskId, stage.stageId, pid, stage.plan, ResolveBlocks(manager.blocks, leaves, pid));
        assert StageOk(stages[k], k);
        nextTaskId := nextTaskId + 1;
        attempts := attempts + [Attempt(task, 0)];
      }
      NumberedFine(rt, stages, faults, before, Now());
      forall p | 0 <= p < |attempts| ensures GoodTask(rt, stages, Now(), k, attempts[p].task) {
        ResolvedLeaves(rt, stages, before, k, p);
        FreshTask(rt, stages, before, Now(), k, attempts[p].task);
      }
    }

    /** The tasks of a new stage run, all waiting. */
    method StartRun(k: nat) returns (pending: seq<Attempt>)
      requires Ok() && Ready(stages, Now(), k) && k < |stages|
      modifies this`nextTaskId, this`log
      ensures RunAt(rt, stages, faults, Tries(maxRetries), k, old(nextTaskId), old(Now()), Now(), pending, map[])
      ensures |pending| == stages[k].numPartitions
      ensures forall p :: 0 <= p < |pending| ==> pending[p].task.taskId == old(nextTaskId) + p
      ensures recomputed == old(recomputed) && Budget(Tries(maxRetries), pending) >= 0
      ensures Retried(Now(), maxRetries, old(nextTaskId), stages[k].numPartitions, map[], {})
    {
      hide Fine, GoodTask, Queue, Credit, Kept, Reported;
      ghost var before, tries := Now(), Tries(maxRetries);
      log := log.(runs := log.runs + [k]);
      ghost var started := Now();
      StartedFine(rt, stages, faults, tries, before, started, k);
      pending := MakeTasks(k);
      NumberedFine(rt, stages, faults, started, Now());
      AdvancesTrans(rt, stages, faults, before.nextTaskId, before.nextTaskId, before, started, Now());
      QueueStarts(rt, stages, faults, maxRetries, tries, before, Now(), k, pending);
      BudgetPositive(tries, pending);
    }

    /** The results in task order; ok if none failed. */
    method Collect(k: nat, ghost first: nat, tasks: seq<Attempt>, done: map<nat, TaskResult>)
      returns (ok: bool, results: seq<TaskResult>)
      requires k < |stages| && |tasks| == stages[k].numPartitions
      requires forall p :: 0 <= p < |tasks| ==> tasks[p].task.taskId == first + p
      requires forall p :: 0 <= p < |tasks| ==> DoneRight(rt, stages, Now(), k, first, Tries(maxRetries), done, p)
      ensures if ok then AllGood(rt, stages, Now(), k, first, results) else Excused(Tries(maxRetries), Now())
      ensures ok ==> forall id :: first <= id < first + |tasks| && id in done ==> done[id].Succeeded?
    {
      forall p | 0 <= p < |tasks| ensures tasks[p].task.taskId in done {
        assert DoneRight(rt, stages, Now(), k, first, Tries(maxRetries), done, p);
      }
      results := seq(|tasks|, p requires 0 <= p < |tasks| && tasks[p].task.taskId in done => done[tasks[p].task.taskId]);
      ok := true;
      for p := 0 to |results|
        invariant ok ==> forall j :: 0 <= j < p ==> results[j].Succeeded?
        invariant !ok ==> Excused(Tries(maxRetries), Now())
      {
        assert DoneRight(rt, stages, Now(), k, first, Tries(maxRetries), done, p);
        if results[p].Failed? { ok := false; }
      }
      if ok {
        forall p | 0 <= p < |results| ensures GoodSuccess(rt, stages, Now(), k, p, first + p, results[p]) {
          assert DoneRight(rt, stages, Now(), k, first, Tries(maxRetries), done, p);
        }
        forall id: nat | first <= id < first + |tasks| && id in done ensures done[id].Succeeded? {
          assert results[id - first] == done[id];
        }
      }
    }

    /** _run_to_completion: every task of the stage until it succeeds or has spent its
        retries. */
    method RunToCompletion(k: nat) returns (ok: bool, results: seq<TaskResult>, retriedTasks: nat, ghost first: nat)
      requires Ok() && Ready(stages, Now(), k) && k < |stages|
      modifies this, manager
      ensures Advances(rt, stages, faults, old(nextTaskId), old(Now()), Now())
      ensures if ok then Reported(old(Now()), Now()) else Excused(Tries(maxRetries), Now())
      ensures RunsGrow(old(Now()), Now(), multiset{k})
      ensures Credit(stages, Tries(maxRetries), Now()) >= Credit(stages, Tries(maxRetries), old(Now()))
      ensures ok ==> AllGood(rt, stages, Now(), k, first, results) && first == old(nextTaskId)
      ensures ok ==> retriedTasks == |FailedTasks(Now(), first, stages[k].numPartitions)| <= stages[k].numPartitions
      ensures ok && retriedTasks > 0 ==> maxRetries > 0
      decreases |stages| - |recomputed|, 5
    {
      hide Fine, Budget, Kept, SpentFrom, Queue, GoodSuccess, Retried, FailedTasks, SpentBy, Reported, RunsGrow;
      ghost var before, tries := Now(), Tries(maxRetries);
      first := nextTaskId;
      ok, results, retriedTasks := true, [], 0;
      var tasks := StartRun(k);
      var pending, done, retried: set<nat> := tasks, map[], {};
      while pending != []
        invariant RunAt(rt, stages, faults, tries, k, first, before, Now(), pending, done)
        invariant Retried(Now(), maxRetries, first, stages[k].numPartitions, done, retried)
        invariant |before.recomputed| <= |recomputed| <= |stages| && Budget(tries, pending) >= 0
        decreases |stages| - |recomputed|, Budget(tries, pending)
      {
        ok, pending, done, retried := RunRound(k, first, before, pending, done, retried);
        if !ok { return; }
        RunMeasure(rt, stages, faults, tries, k, first, before, Now(), pending, done);
      }
      RunEnds(rt, stages, faults, tries, k, first, before, Now(), done);
      ok, results := Collect(k, first, tasks, done);
      RetriedCount(Now(), maxRetries, first, stages[k].numPartitions, done, retried);
      retriedTasks := |retried|;
    }

    /** The end of _run_stage: the metrics entry, and the blocks of a stage that writes. */
    method Record(k: nat, again: bool, results: seq<TaskResult>, retriedTasks: nat, ghost first: nat) returns (entry: StageMetrics)
      requires k < |stages| && stages[k].stageId == k
      modifies this`metrics, this`log, manager
      ensures entry == StageMetrics(k, again, retriedTasks)
      ensures Now() == Recorded(old(Now()), k, first, entry, stages[k].plan.ShuffleWriteExec?, AllBlocks(results))
    {
      entry := StageMetrics(stages[k].stageId, again, retriedTasks);
      metrics := metrics + [entry];
      if stages[k].plan.ShuffleWriteExec? {
        manager.RegisterBlocks(stages[k].stageId, AllBlocks(results));
        log := log.(generation := log.generation[k := first]);
      }
    }

    /** _run_stage: the stage's tasks to completion, its metrics entry, and its blocks
        registered. */
    method RunStage(k: nat, again: bool) returns (ok: bool, results: seq<TaskResult>, ghost first: nat)
      requires Ok() && Ready(stages, Now(), k) && k < |stages|
      modifies this, manager
      ensures Advances(rt, stages, faults, old(nextTaskId), old(Now()), Now())
      ensures if ok then StageReported(old(Now()), Now(), k, again) else Excused(Tries(maxRetries), Now())
      ensures RunsGrow(old(Now()), Now(), multiset{k})
      ensures Credit(stages, Tries(maxRetries), Now()) >= Credit(stages, Tries(maxRetries), old(Now()))
      ensures ok ==> AllGood(rt, stages, Now(), k, first, results) && first == old(nextTaskId)
      ensures ok && Writes(stages, k) ==> k in manager.blocks && k in log.generation && log.generation[k] == first
      ensures ok ==>
                && metrics != []
                && metrics[|metrics| - 1].retriedTasks == |FailedTasks(Now(), first, stages[k].numPartitions)|
      decreases |stages| - |recomputed|, 6
    {
      hide Consistent, Real, Credit, Kept, SpentFrom, GoodSuccess, FailedTasks, Reported, StageReported, RunsGrow, AllGood, Excused;
      ghost var before := Now();
      var retriedTasks;
      ok, results, retriedTasks, first := RunToCompletion(k);
      if !ok { return; }
      ghost var at := Now();
      assert StageOk(stages[k], k);
      var entry := Record(k, again, results, retriedTasks, first);
      StageRecorded(rt, stages, faults, Tries(maxRetries), before, at, Now(), k, first, entry, results);
      SameFailed(at, Now(), first, stages[k].numPartitions);
    }

    /** One turn of run_plan's loop: the next stage, and its rows if it returns any. */
    method RunNext(k: nat, partitions: Option<seq<seq<Record>>>) returns (ok: bool, partitions': Option<seq<seq<Record>>>)
      requires k < |stages| && PlanAt(rt, stages, faults, Tries(maxRetries), k, Now()) && Expected(rt, stages, k, partitions)
      modifies this, manager
      ensures ok ==>
                && PlanAt(rt, stages, faults, Tries(maxRetries), k + 1, Now())
                && Expected(rt, stages, k + 1, partitions')
      ensures !ok ==> Fine(rt, stages, faults, Now()) && Excused(Tries(maxRetries), Now()) && Bounded(stages, maxRetries, Now())
    {
      hide Consistent, Real, Sound, Kept, SpentFrom, FailedTasks, Excused, StageReported, Ready, AllGood;
      ghost var at, tries := Now(), Tries(maxRetries);
      partitions' := partitions;
      var results;
      ghost var first;
      ok, results, first := RunStage(k, false);
      if ok {
        PlanStep(rt, stages, faults, tries, k, at, Now());
        if !stages[k].plan.ShuffleWriteExec? {
          ResultRowsAre(rt, stages, Now(), k, first, results);
          partitions' := Some(ResultRows(results));
        }
      } else {
        PlanFails(rt, stages, faults, tries, k, at, Now());
      }
    }
  }

  // ---- run_plan ------------------------------------------------------------

  class LocalScheduler {
    const maxRetries: int
    var lastMetrics: seq<StageMetrics>

    constructor (maxRetries: int)
      ensures this.maxRetries == maxRetries
    {
      this.maxRetries := maxRetries;
      lastMetrics := [];
    }

    /** run_plan: the stages in order.  Whatever fails, is lost or is corrupted, and
        whichever generations of blocks tasks read: if it returns, it returns exactly the
        fault-free run's partitions.  It always ends, within the executions its stage runs
        allow, and fails only if one task failed as often as it may be tried, each time on
        its own or for a stage that another execution missed too.  So it returns when no
        more executions are harmed so than one task has retries: with no retries to spend,
        when every stage is lost at most once. */
    method RunPlan(rt: Runtime, stages: seq<Stage>, faults: Faults) returns (result: PlanResult, run: Run)
      requires Sound(stages)
      modifies this
      ensures fresh(run) && fresh(run.manager) && run.rt == rt && run.stages == stages && run.faults == faults
      ensures result.Finished? ==> Expected(rt, stages, |stages|, Some(result.partitions))
      ensures result.Aborted? ==> Excused(Tries(maxRetries), run.Now()) || LastPlain(stages, |stages|).None?
      ensures Fine(rt, stages, faults, run.Now()) && Bounded(stages, maxRetries, run.Now())
      ensures lastMetrics == run.metrics
      ensures result.Finished? ==> PlanAt(rt, stages, faults, Tries(maxRetries), |stages|, run.Now())
      ensures Tolerable(faults, maxRetries) && LastPlain(stages, |stages|).Some? ==> result.Finished?
    {
      hide Fine, Bounded, Excused, Tolerable, Sound, PlanAt, Expected, LastPlain;
      run := new Run(rt, stages, maxRetries, faults);
      var partitions: Option<seq<seq<Record>>> := None;
      PlanStarts(rt, stages, faults, Tries(maxRetries));
      for k := 0 to |stages|
        invariant fresh(run) && fresh(run.manager)
        invariant run.rt == rt && run.stages == stages && run.maxRetries == maxRetries && run.faults == faults
        invariant PlanAt(rt, stages, faults, Tries(maxRetries), k, run.Now()) && Expected(rt, stages, k, partitions)
      {
        var ok;
        ok, partitions := run.RunNext(k, partitions);
        if !ok {
          if Tolerable(faults, maxRetries) { TolerableReturns(rt, stages, faults, maxRetries, run.Now()); }
          lastMetrics := run.metrics;
          return Aborted, run;
        }
      }
      lastMetrics := run.metrics;
      PlanBounded(rt, stages, faults, maxRetries, run.Now());
      PlanEnds(rt, stages, faults, Tries(maxRetries), partitions, run.Now());
      result := if partitions.None? then Aborted else Finished(partitions.value);
    }
  }
}
