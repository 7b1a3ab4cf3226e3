/**
 What single steps of the scheduler keep: executing a batch, settling a result, finishing
 a stage run (minispark/execution/scheduler.py).
 */
module SchedulerSteps {
  import opened Arithmetic
  import opened Options
  import opened Values
  import opened Expressions
  import opened Sequences
  import opened Shuffle
  import opened Physical
  import opened Stages
  import opened ShuffleStore
  import opened SchedulerState
  import opened SchedulerAccounts

  // ---- excuses -------------------------------------------------------------

  /** Execution n finds a block of the stage unreadable. */
  ghost predicate Loses(faults: Faults, n: nat, stage: nat) {
    exists q :: q in faults.unreadable(n) && q.stage == stage
  }

  /** Why execution n fails as it does. */
  ghost predicate Caused(faults: Faults, n: nat, missing: Option<nat>) {
    if missing.None? then faults.ordinary(n) else Loses(faults, n, missing.value)
  }

  /** A failure that recovery does not undo: one of its own, or for a stage that another
      execution missed too. */
  ghost predicate Counts(dealt: map<nat, Option<nat>>, n: nat) {
    n in dealt && (dealt[n].None? || exists m :: m in dealt && m != n && dealt[m] == dealt[n])
  }

  /** Why a run may fail: some one task failed as often as it may be tried. */
  ghost predicate Excused(tries: nat, s: Snapshot) {
    exists id :: |SpentBy(s, id)| >= tries
  }

  /** Every failure dealt with is one execution's, and caused by what befell that
      execution; those held against a task are ones that recovery does not undo. */
  ghost predicate Real(faults: Faults, s: Snapshot) {
    && (forall n :: n in s.log.dealt ==> n < s.executions && Caused(faults, n, s.log.dealt[n]))
    && (forall n :: n in s.log.spent ==> Counts(s.log.dealt, n) && s.log.spent[n] < s.nextTaskId)
  }

  /** What every step of a run keeps. */
  ghost predicate Fine(rt: Runtime, stages: seq<Stage>, faults: Faults, s: Snapshot) {
    Sound(stages) && Consistent(rt, stages, s) && Real(faults, s)
  }

  /** From a to b only failures of executions since a were dealt with. */
  ghost predicate DealtSince(a: Snapshot, b: Snapshot) {
    forall n :: n in b.log.dealt && n !in a.log.dealt ==> n >= a.executions
  }

  /** A step that may have run whole stages: nothing is lost, and only tasks numbered
      from `first` on have completed or failed. */
  ghost predicate Advances(rt: Runtime, stages: seq<Stage>, faults: Faults, first: nat, a: Snapshot, b: Snapshot) {
    Fine(rt, stages, faults, b) && Kept(a, b) && OnlyFrom(a, b, first) && SpentFrom(a, b, first, {}) && DealtSince(a, b)
  }

  lemma AdvancesTrans(rt: Runtime, stages: seq<Stage>, faults: Faults, first: nat, later: nat, a: Snapshot, b: Snapshot, c: Snapshot)
    requires Advances(rt, stages, faults, first, a, b) && Advances(rt, stages, faults, later, b, c) && first <= later
    ensures Advances(rt, stages, faults, first, a, c)
  {
    KeptTrans(a, b, c);
  }

  /** From a to b the stage runs in `own` were started, and one of every stage newly
      marked recomputed. */
  ghost predicate RunsGrow(a: Snapshot, b: Snapshot, own: multiset<nat>) {
    multiset(b.log.runs) == multiset(a.log.runs) + multiset(b.recomputed - a.recomputed) + own
  }

  lemma RunsTrans(a: Snapshot, b: Snapshot, c: Snapshot, x: multiset<nat>, y: multiset<nat>)
    requires a.recomputed <= b.recomputed <= c.recomputed && RunsGrow(a, b, x) && RunsGrow(b, c, y)
    ensures RunsGrow(a, c, x + y)
  {
    SetsAdd(a.recomputed, b.recomputed, c.recomputed);
  }

  lemma SameRuns(a: Snapshot, b: Snapshot)
    requires a.log.runs == b.log.runs && a.recomputed == b.recomputed
    ensures RunsGrow(a, b, multiset{})
  {
    assert multiset(b.recomputed - a.recomputed) == multiset{};
  }

  // ---- one execution -------------------------------------------------------

  /** An attempt of the run of stage k whose tasks are numbered from `first`. */
  predicate AttemptOf(stages: seq<Stage>, k: nat, first: nat, tries: nat, a: Attempt) {
    && k < |stages| && a.task.stageId == k && a.task.partitionId < stages[k].numPartitions
    && a.task.taskId == first + a.task.partitionId && a.number < tries
  }

  /** What the result of an execution means. */
  ghost predicate Outcome(rt: Runtime, stages: seq<Stage>, faults: Faults, s: Snapshot, k: nat, task: Task, result: TaskResult) {
    match result
    case Succeeded(_, _) => GoodSuccess(rt, stages, s, k, task.partitionId, task.taskId, result)
    case Failed(missing, n) =>
      && GoodTask(rt, stages, s, k, task)
      && n < s.executions && Caused(faults, n, missing) && (missing.Some? ==> missing.value < k)
  }

  /** A state in which only files, executions and completed tasks have moved on. */
  ghost predicate OnlyExecuted(a: Snapshot, b: Snapshot, executed: nat, ids: set<nat>) {
    && b == a.(files := b.files, executions := a.executions + executed, log := a.log.(completed := b.log.completed))
    && Kept(a, b) && b.log.completed <= a.log.completed + ids
  }

  lemma OneStillRegistered(rt: Runtime, stages: seq<Stage>, a: Snapshot, b: Snapshot, k: nat)
    requires k in a.blocks && Registered(rt, stages, a, k) && Kept(a, b)
    requires k in b.blocks && b.blocks[k] == a.blocks[k]
    requires k in a.log.generation ==> k in b.log.generation && b.log.generation[k] == a.log.generation[k]
    ensures Registered(rt, stages, b, k)
  {
    HeldKept(a, b, a.blocks[k]);
  }

  lemma StillRegistered(rt: Runtime, stages: seq<Stage>, a: Snapshot, b: Snapshot)
    requires Consistent(rt, stages, a) && Kept(a, b) && b.blocks == a.blocks && b.log.generation == a.log.generation
    ensures forall k :: k in b.blocks ==> Registered(rt, stages, b, k)
  {
    forall k | k in b.blocks ensures Registered(rt, stages, b, k) {
      assert Registered(rt, stages, a, k);
      OneStillRegistered(rt, stages, a, b, k);
    }
  }

  lemma StillConsistent(rt: Runtime, stages: seq<Stage>, a: Snapshot, b: Snapshot, executed: nat, ids: set<nat>)
    requires Consistent(rt, stages, a) && OnlyExecuted(a, b, executed, ids)
    requires forall id :: id in ids ==> id < a.nextTaskId
    ensures Consistent(rt, stages, b)
  {
    hide Registered;
    StillRegistered(rt, stages, a, b);
  }

  lemma StillFine(rt: Runtime, stages: seq<Stage>, faults: Faults, a: Snapshot, b: Snapshot, executed: nat, ids: set<nat>)
    requires Fine(rt, stages, faults, a) && OnlyExecuted(a, b, executed, ids)
    requires forall id :: id in ids ==> id < a.nextTaskId
    ensures Fine(rt, stages, faults, b)
  {
    hide Consistent, Caused, Sound;
    StillConsistent(rt, stages, a, b, executed, ids);
  }

  lemma OutcomeKept(rt: Runtime, stages: seq<Stage>, faults: Faults, a: Snapshot, b: Snapshot, k: nat, task: Task, result: TaskResult)
    requires Outcome(rt, stages, faults, a, k, task, result) && Kept(a, b)
    requires result.Failed? ==> task.taskId !in b.log.completed
    ensures Outcome(rt, stages, faults, b, k, task, result)
  {
    if result.Succeeded? {
      GoodSuccessKept(rt, stages, a, b, k, task.partitionId, task.taskId, result);
    } else {
      GoodTaskKept(rt, stages, a, b, k, task);
    }
  }

  /** What reading a good task's inputs comes to in execution n. */
  lemma GatherTask(rt: Runtime, stages: seq<Stage>, faults: Faults, s: Snapshot, n: nat, task: Task)
    requires Sound(stages) && GoodTask(rt, stages, s, task.stageId, task)
    ensures Listed(task.blocks, ReadLeaves(task.plan))
    ensures task.taskId < s.nextTaskId && task.taskId !in s.log.completed
    ensures match Gather(s.files, faults.unreadable(n), task.blocks, ReadLeaves(task.plan))
            case Inputs(inputs) => inputs == InputsFor(rt, stages, task.stageId, ReadLeaves(task.plan), task.partitionId)
            case MissingStage(f) => f < task.stageId && Loses(faults, n, f)
  {
    var k := task.stageId;
    GatherGood(rt, stages, s, faults.unreadable(n), k, task.partitionId, ReadLeaves(task.plan), task.blocks);
    assert StageOk(stages[k], k);
  }

  lemma WrittenHeld(rt: Runtime, p: Partitioning, stage: nat, task: nat, rows: seq<Record>, before: Files, s: Snapshot)
    requires Legal(p) && task in s.log.completed
    requires s.files == Stored(before, WrittenBlocks(rt, p, stage, task, rows))
    ensures Held(s, WrittenBlocks(rt, p, stage, task, rows))
  {
    var ms := WrittenBlocks(rt, p, stage, task, rows);
    TargetsDistinct(rt, p, rows);
    forall m | m in ms ensures m.path in s.files && s.files[m.path] == m.checksum { StoredHolds(before, ms, m); }
  }

  /** What a failing execution may leave behind: anything in its own files. */
  function Leave(files: Files, stage: nat, task: nat, debris: map<nat, seq<Record>>): Files {
    files + map t | t in debris :: Path(stage, task, t) := debris[t]
  }

  /** A failed execution has moved on nothing but files of its own uncompleted task. */
  lemma FailedExecution(rt: Runtime, stages: seq<Stage>, faults: Faults, a: Snapshot, b: Snapshot, task: Task, result: TaskResult)
    requires Fine(rt, stages, faults, a) && GoodTask(rt, stages, a, task.stageId, task)
    requires b == a.(files := b.files, executions := a.executions + 1)
    requires forall q :: q in a.files && q.task != task.taskId ==> q in b.files && b.files[q] == a.files[q]
    requires result.Failed? && result.execution == a.executions && Caused(faults, a.executions, result.missingStage)
    requires result.missingStage.Some? ==> result.missingStage.value < task.stageId
    ensures Fine(rt, stages, faults, b) && OnlyExecuted(a, b, 1, {task.taskId})
    ensures Outcome(rt, stages, faults, b, task.stageId, task, result)
  {
    hide Caused, Sound, Registered, GoodLeaves;
    StillConsistent(rt, stages, a, b, 1, {task.taskId});
    GoodTaskKept(rt, stages, a, b, task.stageId, task);
  }

  // ---- batches -------------------------------------------------------------

  /** Tasks of one stage run waiting to be executed, none of them completed. */
  ghost predicate Waiting(rt: Runtime, stages: seq<Stage>, s: Snapshot, k: nat, first: nat, tries: nat, attempts: seq<Attempt>) {
    && DistinctTasks(attempts)
    && forall i :: 0 <= i < |attempts| ==>
         AttemptOf(stages, k, first, tries, attempts[i]) && GoodTask(rt, stages, s, k, attempts[i].task)
  }

  ghost predicate Answered(rt: Runtime, stages: seq<Stage>, faults: Faults, s: Snapshot, k: nat, batch: seq<Attempt>,
                           results: seq<TaskResult>)
    requires |results| == |batch|
  {
    forall i :: 0 <= i < |batch| ==> Outcome(rt, stages, faults, s, k, batch[i].task, results[i])
  }

  lemma NextIsGood(rt: Runtime, stages: seq<Stage>, a: Snapshot, b: Snapshot, k: nat, first: nat, tries: nat,
                   batch: seq<Attempt>, i: nat)
    requires i < |batch| && Waiting(rt, stages, a, k, first, tries, batch)
    requires OnlyExecuted(a, b, i, Ids(batch[..i]))
    ensures GoodTask(rt, stages, b, k, batch[i].task) && batch[i].task.stageId == k
  {
    NotSeen(batch, i);
    GoodTaskKept(rt, stages, a, b, k, batch[i].task);
  }

  lemma AnsweredSnoc(rt: Runtime, stages: seq<Stage>, faults: Faults, start: Snapshot, a: Snapshot, b: Snapshot, k: nat,
                     first: nat, tries: nat, batch: seq<Attempt>, results: seq<TaskResult>, result: TaskResult)
    requires |results| < |batch| && Waiting(rt, stages, start, k, first, tries, batch)
    requires var i := |results|;
             && OnlyExecuted(start, a, i, Ids(batch[..i])) && OnlyExecuted(a, b, 1, {batch[i].task.taskId})
             && Answered(rt, stages, faults, a, k, batch[..i], results)
             && Outcome(rt, stages, faults, b, k, batch[i].task, result)
    ensures var i := |results|;
            && OnlyExecuted(start, b, i + 1, Ids(batch[..i + 1]))
            && Answered(rt, stages, faults, b, k, batch[..i + 1], results + [result])
  {
    var i := |results|;
    assert batch[..i + 1] == batch[..i] + [batch[i]];
    IdsSnoc(batch[..i], batch[i]);
    KeptTrans(start, a, b);
    forall j | 0 <= j < i ensures Outcome(rt, stages, faults, b, k, batch[j].task, results[j]) {
      assert batch[..i][j] == batch[j];
      OutcomeKept(rt, stages, faults, a, b, k, batch[j].task, results[j]);
    }
  }

  lemma WaitingKept(rt: Runtime, stages: seq<Stage>, a: Snapshot, b: Snapshot, k: nat, first: nat, tries: nat, attempts: seq<Attempt>)
    requires Waiting(rt, stages, a, k, first, tries, attempts) && Kept(a, b) && OnlyFrom(a, b, a.nextTaskId)
    ensures Waiting(rt, stages, b, k, first, tries, attempts)
  {
    forall i | 0 <= i < |attempts| ensures GoodTask(rt, stages, b, k, attempts[i].task) {
      GoodTaskKept(rt, stages, a, b, k, attempts[i].task);
    }
  }

  // ---- one result ----------------------------------------------------------

  /** A failure noted by the scheduler. */
  ghost function Noted(log: Log, result: TaskResult): Log
    requires result.Failed?
  {
    log.(dealt := log.dealt[result.execution := result.missingStage])
  }

  ghost function AfterNoting(s: Snapshot, result: TaskResult): Snapshot {
    if result.Failed? then s.(log := Noted(s.log, result)) else s
  }

  /** A noted failure, held against its task or not. */
  ghost function AfterSettling(s: Snapshot, id: nat, result: TaskResult, held: bool): Snapshot {
    var t := AfterNoting(s, result);
    if held && result.Failed? then t.(log := t.log.(spent := t.log.spent[result.execution := id])) else t
  }

  /** Holding a failure against its task. */
  lemma HeldAgainst(rt: Runtime, stages: seq<Stage>, faults: Faults, a: Snapshot, b: Snapshot, id: nat, n: nat)
    requires Fine(rt, stages, faults, a) && Counts(a.log.dealt, n) && n !in a.log.spent && id < a.nextTaskId
    requires b == a.(log := a.log.(spent := a.log.spent[n := id]))
    ensures Fine(rt, stages, faults, b) && Kept(a, b) && Reported(a, b) && RunsGrow(a, b, multiset{})
    ensures |SpentBy(b, id)| == |SpentBy(a, id)| + 1
  {
    hide Registered, Caused, Sound, Counts, SpentBy;
    StillRegistered(rt, stages, a, b);
    OneMoreSpent(a, b, id, n);
    SameRuns(a, b);
  }

  lemma OneMoreSpent(a: Snapshot, b: Snapshot, id: nat, n: nat)
    requires n !in a.log.spent && b.log.spent == a.log.spent[n := id]
    ensures |SpentBy(b, id)| == |SpentBy(a, id)| + 1
  {
    assert SpentBy(b, id) == SpentBy(a, id) + {n};
  }

  /** Every attempt's number is how many failures are held against its task. */
  ghost predicate Tallied(s: Snapshot, attempts: seq<Attempt>) {
    forall i :: 0 <= i < |attempts| ==> attempts[i].number == |SpentBy(s, attempts[i].task.taskId)|
  }

  lemma TalliedKept(a: Snapshot, b: Snapshot, first: nat, own: set<nat>, attempts: seq<Attempt>)
    requires Tallied(a, attempts) && Kept(a, b) && SpentFrom(a, b, first, own)
    requires forall i :: 0 <= i < |attempts| ==> attempts[i].task.taskId < first && attempts[i].task.taskId !in own
    ensures Tallied(b, attempts)
  {
    forall i | 0 <= i < |attempts| ensures attempts[i].number == |SpentBy(b, attempts[i].task.taskId)| {
      SpentSame(a, b, first, own, attempts[i].task.taskId);
    }
  }

  /** The i-th result is that of the execution i after `base`. */
  ghost predicate Numbered(base: nat, results: seq<TaskResult>) {
    forall i :: 0 <= i < |results| && results[i].Failed? ==> results[i].execution == base + i
  }

  /** The failures from index i on have not been dealt with. */
  ghost predicate Undealt(s: Snapshot, results: seq<TaskResult>, i: nat) {
    forall j :: i <= j < |results| && results[j].Failed? ==> results[j].execution !in s.log.dealt
  }

  lemma CountsKept(before: map<nat, Option<nat>>, after: map<nat, Option<nat>>, n: nat)
    requires Counts(before, n) && forall m :: m in before ==> m in after && after[m] == before[m]
    ensures Counts(after, n)
  {
    if before[n].Some? {
      var m :| m in before && m != n && before[m] == before[n];
      assert m in after && after[m] == after[n];
    }
  }

  lemma OwnFailureCounts(dealt: map<nat, Option<nat>>, n: nat)
    requires n in dealt && dealt[n].None?
    ensures Counts(dealt, n)
  {
  }

  lemma NotedFine(rt: Runtime, stages: seq<Stage>, faults: Faults, a: Snapshot, b: Snapshot, k: nat, task: Task, result: TaskResult)
    requires Fine(rt, stages, faults, a) && Outcome(rt, stages, faults, a, k, task, result) && result.Failed?
    requires result.execution !in a.log.dealt && b == AfterNoting(a, result)
    ensures Fine(rt, stages, faults, b) && Kept(a, b) && Reported(a, b) && RunsGrow(a, b, multiset{})
    ensures GoodTask(rt, stages, b, k, task)
    ensures match result.missingStage
            case None => Counts(b.log.dealt, result.execution)
            case Some(missing) => Missed(b.log.dealt, missing)
  {
    hide Registered, Caused, Sound, Counts;
    StillRegistered(rt, stages, a, b);
    forall j | j in b.recomputed ensures Missed(b.log.dealt, j) {
      var n :| n in a.log.dealt && a.log.dealt[n] == Some(j);
      assert n in b.log.dealt && b.log.dealt[n] == Some(j);
    }
    GoodTaskKept(rt, stages, a, b, k, task);
    forall n | n in b.log.spent ensures Counts(b.log.dealt, n) { CountsKept(a.log.dealt, b.log.dealt, n); }
    assert result.execution in b.log.dealt && b.log.dealt[result.execution] == result.missingStage;
    if result.missingStage.None? { OwnFailureCounts(b.log.dealt, result.execution); }
    SameRuns(a, b);
  }

  /** A step on from where a failure was settled is a step on from before. */
  lemma AcrossNoting(rt: Runtime, stages: seq<Stage>, faults: Faults, first: nat, a: Snapshot, b: Snapshot, c: Snapshot,
                     id: nat, result: TaskResult, held: bool)
    requires Advances(rt, stages, faults, first, a, b) && first <= b.nextTaskId && first <= id
    requires result.Failed? ==> a.executions <= result.execution && result.execution !in b.log.dealt
    requires result.Failed? ==> result.execution !in b.log.spent
    requires Advances(rt, stages, faults, b.nextTaskId, AfterSettling(b, id, result, held), c)
    ensures Advances(rt, stages, faults, first, a, c)
    ensures Kept(b, c) && OnlyFrom(b, c, b.nextTaskId)
    ensures SpentFrom(b, c, b.nextTaskId, if held then {id} else {})
  {
    hide Fine;
    var settled := AfterSettling(b, id, result, held);
    assert Kept(b, settled) && settled.nextTaskId == b.nextTaskId;
    assert SpentFrom(b, settled, b.nextTaskId, if held then {id} else {});
    KeptTrans(b, settled, c);
    KeptTrans(a, b, c);
  }

  /** A stage reported again after its one recomputation. */
  lemma NotedTwice(rt: Runtime, stages: seq<Stage>, a: Snapshot, b: Snapshot, result: TaskResult)
    requires Consistent(rt, stages, a) && result.Failed? && result.execution !in a.log.dealt
    requires result.missingStage.Some? && result.missingStage.value in a.recomputed
    requires b == AfterNoting(a, result)
    ensures Counts(b.log.dealt, result.execution)
  {
    var m :| m in a.log.dealt && a.log.dealt[m] == result.missingStage;
    var n := result.execution;
    assert m in b.log.dealt && n in b.log.dealt && m != n && b.log.dealt[m] == b.log.dealt[n];
  }

  /** Holding a failure that recovery does not undo against its task. */
  lemma HeldSettles(rt: Runtime, stages: seq<Stage>, faults: Faults, a: Snapshot, b: Snapshot, k: nat, task: Task, result: TaskResult)
    requires Fine(rt, stages, faults, a) && Outcome(rt, stages, faults, a, k, task, result) && result.Failed?
    requires result.execution !in a.log.dealt && task.taskId < a.nextTaskId
    requires result.missingStage.Some? ==> result.missingStage.value in a.recomputed
    requires b == AfterSettling(a, task.taskId, result, true)
    ensures Advances(rt, stages, faults, a.nextTaskId, b, b) && Reported(a, b) && RunsGrow(a, b, multiset{})
    ensures GoodTask(rt, stages, b, k, task) && |SpentBy(b, task.taskId)| == |SpentBy(a, task.taskId)| + 1
  {
    hide Consistent, Outcome, GoodTask, SpentBy, Counts, Caused, Sound;
    var noted := AfterNoting(a, result);
    NotedFine(rt, stages, faults, a, noted, k, task, result);
    if result.missingStage.Some? { NotedTwice(rt, stages, a, noted, result); }
    assert result.execution !in a.log.spent by { SpentWereDealt(rt, stages, faults, a, result.execution); }
    HeldAgainst(rt, stages, faults, noted, b, task.taskId, result.execution);
    NotCompleted(rt, stages, noted, k, task);
    GoodTaskKept(rt, stages, noted, b, k, task);
    SameRuns(a, b);
    assert SpentBy(noted, task.taskId) == SpentBy(a, task.taskId) by { SpentSame(a, noted, task.taskId + 1, {}, task.taskId); }
  }

  lemma SpentWereDealt(rt: Runtime, stages: seq<Stage>, faults: Faults, s: Snapshot, n: nat)
    requires Fine(rt, stages, faults, s) && n !in s.log.dealt
    ensures n !in s.log.spent
  {
  }

  lemma NotCompleted(rt: Runtime, stages: seq<Stage>, s: Snapshot, k: nat, task: Task)
    requires GoodTask(rt, stages, s, k, task)
    ensures task.taskId !in s.log.completed
  {
  }

  lemma NothingDone(rt: Runtime, stages: seq<Stage>, faults: Faults, s: Snapshot)
    requires Fine(rt, stages, faults, s)
    ensures Advances(rt, stages, faults, s.nextTaskId, s, s)
  {
  }

  lemma ReportsNothing(s: Snapshot)
    ensures Reported(s, s)
  {
    assert multiset(s.recomputed - s.recomputed) == multiset{};
  }

  /** A recovery after a failure was noted, seen from before it was. */
  lemma Recovering(rt: Runtime, stages: seq<Stage>, faults: Faults, a: Snapshot, noted: Snapshot, c: Snapshot, result: TaskResult)
    requires noted == AfterNoting(a, result) && Kept(noted, c) && RunsGrow(noted, c, multiset{})
    ensures RunsGrow(a, c, multiset{}) && (Reported(noted, c) ==> Reported(a, c))
  {
    SameRuns(a, noted);
    ReportsNothing(a);
    RunsTrans(a, noted, c, multiset{}, multiset{});
  }

  lemma TallyKept(rt: Runtime, stages: seq<Stage>, faults: Faults, a: Snapshot, noted: Snapshot, c: Snapshot, id: nat,
                  result: TaskResult)
    requires noted == AfterNoting(a, result) && Advances(rt, stages, faults, noted.nextTaskId, noted, c) && id < a.nextTaskId
    ensures SpentBy(c, id) == SpentBy(a, id)
  {
    SpentSame(noted, c, noted.nextTaskId, {}, id);
  }

  /** What settling a result leaves to do: another attempt at the same task, as far on as its
      failures say, or nothing, a failed task only if it has failed as often as it may. */
  ghost predicate Settled(rt: Runtime, stages: seq<Stage>, s: Snapshot, k: nat, first: nat, tries: nat,
                          attempt: Attempt, result: TaskResult, again: Option<Attempt>)
  {
    match again
    case None => result.Failed? ==> |SpentBy(s, attempt.task.taskId)| >= tries
    case Some(next) =>
      && result.Failed?
      && AttemptOf(stages, k, first, tries, next) && GoodTask(rt, stages, s, k, next.task)
      && next.task.taskId == attempt.task.taskId && next.task.partitionId == attempt.task.partitionId
      && next.number == |SpentBy(s, next.task.taskId)|
  }

  lemma MarkedFine(rt: Runtime, stages: seq<Stage>, faults: Faults, a: Snapshot, b: Snapshot, missing: nat)
    requires Fine(rt, stages, faults, a)
    requires missing < |stages| && Missed(a.log.dealt, missing) && missing !in a.recomputed
    requires b == a.(recomputed := a.recomputed + {missing})
    ensures Advances(rt, stages, faults, a.nextTaskId, a, b)
    ensures |b.recomputed| == |a.recomputed| + 1 && |b.recomputed| <= |stages|
  {
    hide Registered, Caused, Sound;
    StillRegistered(rt, stages, a, b);
    BelowSize(b.recomputed, |stages|);
  }

  lemma ReadyBelow(stages: seq<Stage>, s: Snapshot, k: nat, j: nat)
    requires Ready(stages, s, k) && j <= k
    ensures Ready(stages, s, j)
  {
  }

  lemma SubsetSize(a: set<nat>, b: set<nat>)
    requires a <= b
    ensures |a| <= |b|
  {
    if a != {} {
      var x :| x in a;
      SubsetSize(a - {x}, b - {x});
    }
  }

  /** From a to b one run of stage k was reported, and every recomputation on the way. */
  ghost predicate StageReported(a: Snapshot, b: Snapshot, k: nat, again: bool) {
    && Entries(b.metrics, false) == Entries(a.metrics, false) + (if again then [] else [k])
    && multiset(Entries(b.metrics, true))
       == multiset(Entries(a.metrics, true)) + multiset(b.recomputed - a.recomputed) + (if again then multiset{k} else multiset{})
  }

  lemma ReportedRecompute(a: Snapshot, marked: Snapshot, b: Snapshot, missing: nat)
    requires missing !in a.recomputed && marked == a.(recomputed := a.recomputed + {missing})
    requires marked.recomputed <= b.recomputed && RunsGrow(marked, b, multiset{missing})
    ensures RunsGrow(a, b, multiset{})
    ensures StageReported(marked, b, missing, true) ==> Reported(a, b)
  {
    assert b.recomputed - a.recomputed == (b.recomputed - marked.recomputed) + {missing};
  }

  // ---- a stage's tasks -----------------------------------------------------

  /** The tasks of a stage run that are done with: right, or failed as often as they may. */
  ghost predicate DoneWith(rt: Runtime, stages: seq<Stage>, s: Snapshot, k: nat, first: nat, tries: nat, done: map<nat, TaskResult>)
    requires k < |stages|
  {
    forall id :: id in done ==>
      && first <= id < first + stages[k].numPartitions
      && if done[id].Succeeded? then GoodSuccess(rt, stages, s, k, id - first, id, done[id])
         else |SpentBy(s, id)| >= tries
  }

  ghost predicate Covered(first: nat, n: nat, done: set<nat>, waiting: set<nat>) {
    forall id :: first <= id < first + n ==> id in done || id in waiting
  }

  lemma DoneKept(rt: Runtime, stages: seq<Stage>, a: Snapshot, b: Snapshot, k: nat, first: nat, tries: nat,
                 done: map<nat, TaskResult>)
    requires k < |stages| && DoneWith(rt, stages, a, k, first, tries, done) && Kept(a, b)
    ensures DoneWith(rt, stages, b, k, first, tries, done)
  {
    hide GoodSuccess;
    forall id | id in done
      ensures if done[id].Succeeded? then GoodSuccess(rt, stages, b, k, id - first, id, done[id]) else |SpentBy(b, id)| >= tries
    {
      if done[id].Succeeded? {
        GoodSuccessKept(rt, stages, a, b, k, id - first, id, done[id]);
      } else {
        SubsetSize(SpentBy(a, id), SpentBy(b, id));
      }
    }
  }

  /** Results of a batch from index i on, not yet settled; what was settled waits again
      or is done with. */
  ghost predicate Settling(rt: Runtime, stages: seq<Stage>, faults: Faults, s: Snapshot, k: nat, first: nat, tries: nat,
                           batch: seq<Attempt>, results: seq<TaskResult>, i: nat, next: seq<Attempt>, done: map<nat, TaskResult>)
  {
    && k < |stages| && |results| == |batch| && i <= |batch| && DistinctTasks(batch)
    && (forall j :: i <= j < |batch| ==>
          AttemptOf(stages, k, first, tries, batch[j]) && Outcome(rt, stages, faults, s, k, batch[j].task, results[j]))
    && Waiting(rt, stages, s, k, first, tries, next) && Ids(next) <= Ids(batch[..i])
    && DoneWith(rt, stages, s, k, first, tries, done)
    && Covered(first, stages[k].numPartitions, done.Keys, Ids(next) + Ids(batch[i..]))
  }

  lemma SettlingKept(rt: Runtime, stages: seq<Stage>, faults: Faults, a: Snapshot, b: Snapshot, k: nat, first: nat, tries: nat,
                     batch: seq<Attempt>, results: seq<TaskResult>, i: nat, next: seq<Attempt>, done: map<nat, TaskResult>)
    requires Settling(rt, stages, faults, a, k, first, tries, batch, results, i, next, done)
    requires Kept(a, b) && OnlyFrom(a, b, a.nextTaskId)
    ensures Settling(rt, stages, faults, b, k, first, tries, batch, results, i, next, done)
  {
    forall j | i <= j < |batch| ensures Outcome(rt, stages, faults, b, k, batch[j].task, results[j]) {
      OutcomeKept(rt, stages, faults, a, b, k, batch[j].task, results[j]);
    }
    WaitingKept(rt, stages, a, b, k, first, tries, next);
    DoneKept(rt, stages, a, b, k, first, tries, done);
  }

  lemma TakeOne(batch: seq<Attempt>, i: nat)
    requires i < |batch|
    ensures Ids(batch[i..]) == {batch[i].task.taskId} + Ids(batch[i + 1..])
    ensures Ids(batch[..i + 1]) == Ids(batch[..i]) + {batch[i].task.taskId}
  {
    IdsHead(batch[i..]);
    assert batch[i..][1..] == batch[i + 1..];
    assert batch[..i + 1] == batch[..i] + [batch[i]];
    IdsSnoc(batch[..i], batch[i]);
  }

  /** A settled result goes back to the queue. */
  lemma SettlingAgain(rt: Runtime, stages: seq<Stage>, faults: Faults, s: Snapshot, k: nat, first: nat, tries: nat,
                      batch: seq<Attempt>, results: seq<TaskResult>, i: nat, next: seq<Attempt>, done: map<nat, TaskResult>,
                      again: Attempt)
    requires i < |batch| && Settling(rt, stages, faults, s, k, first, tries, batch, results, i, next, done)
    requires Settled(rt, stages, s, k, first, tries, batch[i], results[i], Some(again))
    ensures Settling(rt, stages, faults, s, k, first, tries, batch, results, i + 1, next + [again], done)
  {
    TakeOne(batch, i);
    NotSeen(batch, i);
    IdsSnoc(next, again);
    DistinctSnoc(next, again);
  }

  /** A settled result is done with. */
  lemma SettlingDone(rt: Runtime, stages: seq<Stage>, faults: Faults, s: Snapshot, k: nat, first: nat, tries: nat,
                     batch: seq<Attempt>, results: seq<TaskResult>, i: nat, next: seq<Attempt>, done: map<nat, TaskResult>)
    requires i < |batch| && Settling(rt, stages, faults, s, k, first, tries, batch, results, i, next, done)
    requires Settled(rt, stages, s, k, first, tries, batch[i], results[i], None)
    ensures Settling(rt, stages, faults, s, k, first, tries, batch, results, i + 1, next, done[batch[i].task.taskId := results[i]])
  {
    TakeOne(batch, i);
  }

  /** The loop state of a stage run: what waits and what is done with cover its tasks. */
  ghost predicate Queue(rt: Runtime, stages: seq<Stage>, s: Snapshot, k: nat, first: nat, tries: nat,
                        pending: seq<Attempt>, done: map<nat, TaskResult>)
  {
    && k < |stages|
    && Waiting(rt, stages, s, k, first, tries, pending)
    && DoneWith(rt, stages, s, k, first, tries, done)
    && Covered(first, stages[k].numPartitions, done.Keys, Ids(pending))
  }

  lemma BatchIds(attempts: seq<Attempt>, stages: seq<Stage>, k: nat, first: nat, tries: nat)
    requires forall i :: 0 <= i < |attempts| ==> AttemptOf(stages, k, first, tries, attempts[i])
    ensures forall id :: id in Ids(attempts) ==> first <= id && k < |stages| && id < first + stages[k].numPartitions
  {
  }

  /** After a batch has run, its results are there to be settled. */
  lemma RoundStarts(rt: Runtime, stages: seq<Stage>, faults: Faults, a: Snapshot, b: Snapshot, k: nat, first: nat, tries: nat,
                    batch: seq<Attempt>, results: seq<TaskResult>, done: map<nat, TaskResult>)
    requires Queue(rt, stages, a, k, first, tries, batch, done) && Fine(rt, stages, faults, b)
    requires OnlyExecuted(a, b, |batch|, Ids(batch)) && |results| == |batch|
    requires Answered(rt, stages, faults, b, k, batch, results)
    ensures Settling(rt, stages, faults, b, k, first, tries, batch, results, 0, [], done)
    ensures Advances(rt, stages, faults, first, a, b) && Reported(a, b)
    ensures Credit(stages, tries, b) == Credit(stages, tries, a) - |batch|
  {
    DoneKept(rt, stages, a, b, k, first, tries, done);
    BatchIds(batch, stages, k, first, tries);
    assert batch[0..] == batch;
    assert Ids([]) == {};
    assert multiset(b.recomputed - a.recomputed) == multiset{};
  }

  /** The state of a round that began at a, with the first i results settled: its queue,
      and what has been spent and paid for. */
  ghost predicate RoundAt(rt: Runtime, stages: seq<Stage>, faults: Faults, tries: nat, k: nat, first: nat, a: Snapshot, s: Snapshot,
                          batch: seq<Attempt>, results: seq<TaskResult>, i: nat, next: seq<Attempt>, done: map<nat, TaskResult>)
  {
    && Advances(rt, stages, faults, first, a, s) && Reported(a, s) && Ready(stages, s, k)
    && Settling(rt, stages, faults, s, k, first, tries, batch, results, i, next, done)
    && first + stages[k].numPartitions <= s.nextTaskId
    && Tallied(s, next) && Tallied(s, batch[i..])
    && |a.recomputed| <= |s.recomputed| && RunsGrow(a, s, multiset{})
    && Numbered(a.executions, results) && Undealt(s, results, i)
    && Spent(stages, tries, a, s, batch, i, next)
  }

  ghost predicate Spent(stages: seq<Stage>, tries: nat, a: Snapshot, s: Snapshot, batch: seq<Attempt>, i: nat, next: seq<Attempt>)
    requires i <= |batch|
  {
    && Credit(stages, tries, s) - Budget(tries, next) - Budget(tries, batch[i..]) - i
       >= Credit(stages, tries, a) - Budget(tries, batch) - |batch|
    && (|s.recomputed| == |a.recomputed| ==> Budget(tries, next) + Budget(tries, batch[i..]) + i <= Budget(tries, batch))
  }

  lemma RoundBegins(rt: Runtime, stages: seq<Stage>, faults: Faults, tries: nat, k: nat, first: nat, a: Snapshot, s: Snapshot,
                    batch: seq<Attempt>, results: seq<TaskResult>, done: map<nat, TaskResult>)
    requires Queue(rt, stages, a, k, first, tries, batch, done) && Fine(rt, stages, faults, s)
    requires OnlyExecuted(a, s, |batch|, Ids(batch)) && |results| == |batch|
    requires Answered(rt, stages, faults, s, k, batch, results)
    requires Ready(stages, a, k) && first + stages[k].numPartitions <= a.nextTaskId
    requires Real(faults, a) && Numbered(a.executions, results) && Tallied(a, batch)
    ensures RoundAt(rt, stages, faults, tries, k, first, a, s, batch, results, 0, [], done)
  {
    RoundStarts(rt, stages, faults, a, s, k, first, tries, batch, results, done);
    ReadyKept(stages, a, s, k);
    SameRuns(a, s);
    assert batch[0..] == batch;
  }

  /** The tasks of what is left to settle are older than any yet to come, and are not the
      one being settled. */
  lemma OthersTallied(rt: Runtime, stages: seq<Stage>, faults: Faults, b: Snapshot, c: Snapshot, k: nat, first: nat, tries: nat,
                      batch: seq<Attempt>, results: seq<TaskResult>, i: nat, next: seq<Attempt>, done: map<nat, TaskResult>,
                      own: set<nat>)
    requires Settling(rt, stages, faults, b, k, first, tries, batch, results, i, next, done) && i < |batch|
    requires first + stages[k].numPartitions <= b.nextTaskId
    requires own <= {batch[i].task.taskId} && Kept(b, c) && SpentFrom(b, c, b.nextTaskId, own)
    requires Tallied(b, next) && Tallied(b, batch[i..])
    ensures Tallied(c, next) && Tallied(c, batch[i + 1..])
  {
    hide GoodTask, Outcome, DoneWith, Covered, Kept, SpentFrom;
    NotSeen(batch, i);
    forall j | 0 <= j < |next| ensures next[j].task.taskId < b.nextTaskId && next[j].task.taskId !in own {
      assert next[j].task.taskId in Ids(next);
    }
    var rest := batch[i + 1..];
    forall j | 0 <= j < |rest| ensures rest[j].task.taskId < b.nextTaskId && rest[j].task.taskId !in own
                                       && rest[j].number == |SpentBy(b, rest[j].task.taskId)| {
      assert rest[j] == batch[i + 1 + j] == batch[i..][j + 1];
    }
    TalliedKept(b, c, b.nextTaskId, own, next);
    TalliedKept(b, c, b.nextTaskId, own, rest);
  }

  /** What is left to settle keeps while one result is being settled. */
  lemma SettledAfter(rt: Runtime, stages: seq<Stage>, faults: Faults, tries: nat, k: nat, first: nat, a: Snapshot, b: Snapshot,
                     c: Snapshot, batch: seq<Attempt>, results: seq<TaskResult>, i: nat, next: seq<Attempt>,
                     done: map<nat, TaskResult>, held: bool)
    requires RoundAt(rt, stages, faults, tries, k, first, a, b, batch, results, i, next, done) && i < |batch|
    requires Advances(rt, stages, faults, b.nextTaskId, AfterSettling(b, batch[i].task.taskId, results[i], held), c)
    requires Reported(b, c) && RunsGrow(b, c, multiset{})
    ensures Advances(rt, stages, faults, first, a, c) && Reported(a, c) && Ready(stages, c, k)
    ensures first + stages[k].numPartitions <= c.nextTaskId && RunsGrow(a, c, multiset{})
    ensures Settling(rt, stages, faults, c, k, first, tries, batch, results, i, next, done)
    ensures Tallied(c, next) && Tallied(c, batch[i + 1..])
    ensures |b.recomputed| <= |c.recomputed| && Undealt(c, results, i + 1)
  {
    hide Fine, Settling, Tallied, Outcome, GoodTask, Spent;
    var id := batch[i].task.taskId;
    SettlingFacts(rt, stages, faults, tries, k, first, a, b, batch, results, i, next, done);
    AcrossNoting(rt, stages, faults, first, a, b, c, id, results[i], held);
    ReportedTrans(a, b, c);
    RunsTrans(a, b, c, multiset{}, multiset{});
    SettlingKept(rt, stages, faults, b, c, k, first, tries, batch, results, i, next, done);
    OthersTallied(rt, stages, faults, b, c, k, first, tries, batch, results, i, next, done, if held then {id} else {});
    ReadyKept(stages, b, c, k);
    SubsetSize(b.recomputed, c.recomputed);
    StillUndealt(b, c, id, results, i, held, a.executions);
  }

  lemma SettlingFacts(rt: Runtime, stages: seq<Stage>, faults: Faults, tries: nat, k: nat, first: nat, a: Snapshot, b: Snapshot,
                      batch: seq<Attempt>, results: seq<TaskResult>, i: nat, next: seq<Attempt>, done: map<nat, TaskResult>)
    requires RoundAt(rt, stages, faults, tries, k, first, a, b, batch, results, i, next, done) && i < |batch|
    ensures k < |stages| && |results| == |batch|
    ensures first <= batch[i].task.taskId < first + stages[k].numPartitions <= b.nextTaskId
    ensures results[i].Failed? ==> results[i].execution < b.executions
    ensures results[i].Failed? ==> results[i].execution !in b.log.dealt && results[i].execution !in b.log.spent
    ensures results[i].Failed? ==> a.executions <= results[i].execution
    ensures forall j :: 0 <= j < |results| && results[j].Failed? ==> results[j].execution < b.executions || j < i
  {
    hide Consistent, Caused, GoodTask, DoneWith, Covered, Spent, Tallied, Waiting;
  }

  /** Settling one failure leaves the others of its batch to be dealt with. */
  lemma StillUndealt(b: Snapshot, c: Snapshot, id: nat, results: seq<TaskResult>, i: nat, held: bool, base: nat)
    requires i < |results| && Numbered(base, results) && Undealt(b, results, i)
    requires DealtSince(AfterSettling(b, id, results[i], held), c)
    requires forall j :: 0 <= j < |results| && results[j].Failed? ==> results[j].execution < b.executions || j < i
    ensures Undealt(c, results, i + 1)
  {
  }

  lemma SpentAgain(stages: seq<Stage>, tries: nat, a: Snapshot, b: Snapshot, c: Snapshot, batch: seq<Attempt>, i: nat,
                   next: seq<Attempt>, again: Attempt)
    requires i < |batch| && Spent(stages, tries, a, b, batch, i, next)
    requires |a.recomputed| <= |b.recomputed| <= |c.recomputed|
    requires Credit(stages, tries, c) + again.number >= Credit(stages, tries, b) + batch[i].number + 1
    requires |c.recomputed| == |b.recomputed| ==> again.number == batch[i].number + 1
    ensures Spent(stages, tries, a, c, batch, i + 1, next + [again])
  {
    assert batch[i..][1..] == batch[i + 1..];
    BudgetSnoc(tries, next, again);
  }

  lemma SpentDone(stages: seq<Stage>, tries: nat, a: Snapshot, b: Snapshot, c: Snapshot, batch: seq<Attempt>, i: nat, next: seq<Attempt>)
    requires i < |batch| && Spent(stages, tries, a, b, batch, i, next) && batch[i].number < tries
    requires |a.recomputed| <= |b.recomputed| <= |c.recomputed|
    requires Credit(stages, tries, c) >= Credit(stages, tries, b)
    ensures Spent(stages, tries, a, c, batch, i + 1, next)
  {
    assert batch[i..][1..] == batch[i + 1..];
  }

  lemma TalliedSnoc(s: Snapshot, attempts: seq<Attempt>, a: Attempt)
    requires Tallied(s, attempts) && a.number == |SpentBy(s, a.task.taskId)|
    ensures Tallied(s, attempts + [a])
  {
  }

  lemma RoundAgain(rt: Runtime, stages: seq<Stage>, faults: Faults, tries: nat, k: nat, first: nat, a: Snapshot, b: Snapshot,
                   c: Snapshot, batch: seq<Attempt>, results: seq<TaskResult>, i: nat, next: seq<Attempt>,
                   done: map<nat, TaskResult>, again: Attempt, held: bool)
    requires RoundAt(rt, stages, faults, tries, k, first, a, b, batch, results, i, next, done) && i < |batch|
    requires Advances(rt, stages, faults, b.nextTaskId, AfterSettling(b, batch[i].task.taskId, results[i], held), c)
    requires Reported(b, c) && RunsGrow(b, c, multiset{})
    requires Settled(rt, stages, c, k, first, tries, batch[i], results[i], Some(again))
    requires Credit(stages, tries, c) + again.number >= Credit(stages, tries, b) + batch[i].number + 1
    requires |c.recomputed| == |b.recomputed| ==> again.number == batch[i].number + 1
    ensures RoundAt(rt, stages, faults, tries, k, first, a, c, batch, results, i + 1, next + [again], done)
  {
    hide Fine, Settling, Spent, Credit, GoodTask, Kept, SpentFrom, SpentBy, AfterSettling;
    SettledAfter(rt, stages, faults, tries, k, first, a, b, c, batch, results, i, next, done, held);
    SettlingAgain(rt, stages, faults, c, k, first, tries, batch, results, i, next, done, again);
    TalliedSnoc(c, next, again);
    SpentAgain(stages, tries, a, b, c, batch, i, next, again);
  }

  lemma RoundNumbers(rt: Runtime, stages: seq<Stage>, faults: Faults, tries: nat, k: nat, first: nat, a: Snapshot, s: Snapshot,
                     batch: seq<Attempt>, results: seq<TaskResult>, i: nat, next: seq<Attempt>, done: map<nat, TaskResult>)
    requires RoundAt(rt, stages, faults, tries, k, first, a, s, batch, results, i, next, done)
    ensures forall j :: i <= j < |batch| ==> batch[j].number < tries
    ensures forall j :: 0 <= j < |next| ==> next[j].number < tries
    ensures i <= |batch|
  {
    hide Fine, GoodTask, Outcome, DoneWith, Covered, Spent, Tallied;
  }

  lemma RoundDone(rt: Runtime, stages: seq<Stage>, faults: Faults, tries: nat, k: nat, first: nat, a: Snapshot, b: Snapshot,
                  c: Snapshot, batch: seq<Attempt>, results: seq<TaskResult>, i: nat, next: seq<Attempt>,
                  done: map<nat, TaskResult>, held: bool)
    requires RoundAt(rt, stages, faults, tries, k, first, a, b, batch, results, i, next, done) && i < |batch|
    requires Advances(rt, stages, faults, b.nextTaskId, AfterSettling(b, batch[i].task.taskId, results[i], held), c)
    requires Reported(b, c) && RunsGrow(b, c, multiset{})
    requires Settled(rt, stages, c, k, first, tries, batch[i], results[i], None)
    requires Credit(stages, tries, c) >= Credit(stages, tries, b)
    ensures RoundAt(rt, stages, faults, tries, k, first, a, c, batch, results, i + 1, next,
                    done[batch[i].task.taskId := results[i]])
  {
    hide Fine, Settling, Spent, Credit, GoodTask, Kept, SpentFrom, SpentBy, AfterSettling;
    RoundNumbers(rt, stages, faults, tries, k, first, a, b, batch, results, i, next, done);
    SettledAfter(rt, stages, faults, tries, k, first, a, b, c, batch, results, i, next, done, held);
    SettlingDone(rt, stages, faults, c, k, first, tries, batch, results, i, next, done);
    SpentDone(stages, tries, a, b, c, batch, i, next);
  }

  /** A round that has to stop early has not spent more than was there. */
  lemma RoundFails(rt: Runtime, stages: seq<Stage>, faults: Faults, tries: nat, k: nat, first: nat, a: Snapshot, b: Snapshot,
                   c: Snapshot, batch: seq<Attempt>, results: seq<TaskResult>, i: nat, next: seq<Attempt>,
                   done: map<nat, TaskResult>, held: bool)
    requires RoundAt(rt, stages, faults, tries, k, first, a, b, batch, results, i, next, done) && i < |batch|
    requires Advances(rt, stages, faults, b.nextTaskId, AfterSettling(b, batch[i].task.taskId, results[i], held), c)
    requires Credit(stages, tries, c) >= Credit(stages, tries, b)
    requires RunsGrow(b, c, multiset{})
    ensures Advances(rt, stages, faults, first, a, c) && RunsGrow(a, c, multiset{})
    ensures Credit(stages, tries, c) >= Credit(stages, tries, a) - Budget(tries, batch)
  {
    hide Settling, Fine, Credit, Tallied, SpentFrom, AfterSettling;
    SettlingFacts(rt, stages, faults, tries, k, first, a, b, batch, results, i, next, done);
    RoundNumbers(rt, stages, faults, tries, k, first, a, b, batch, results, i, next, done);
    forall j | 0 <= j < |batch[i..]| ensures batch[i..][j].number < tries { assert batch[i..][j] == batch[i + j]; }
    AcrossNoting(rt, stages, faults, first, a, b, c, batch[i].task.taskId, results[i], held);
    RunsTrans(a, b, c, multiset{}, multiset{});
    BudgetPositive(tries, next);
    BudgetPositive(tries, batch[i..]);
  }

  lemma RoundEnds(rt: Runtime, stages: seq<Stage>, faults: Faults, tries: nat, k: nat, first: nat, a: Snapshot, s: Snapshot,
                  batch: seq<Attempt>, results: seq<TaskResult>, next: seq<Attempt>, done: map<nat, TaskResult>)
    requires RoundAt(rt, stages, faults, tries, k, first, a, s, batch, results, |batch|, next, done)
    ensures Queue(rt, stages, s, k, first, tries, next, done) && Tallied(s, next) && RunsGrow(a, s, multiset{})
    ensures Credit(stages, tries, s) - Budget(tries, next) >= Credit(stages, tries, a) - Budget(tries, batch)
    ensures batch != [] && |s.recomputed| == |a.recomputed| ==> Budget(tries, next) < Budget(tries, batch)
  {
    assert batch[|batch|..] == [];
    assert Ids([]) == {};
  }

  // ---- retried tasks -------------------------------------------------------

  /** The tasks of a stage run against which a failure is held. */
  ghost function FailedTasks(s: Snapshot, first: nat, n: nat): set<nat> {
    set id | first <= id < first + n && SpentBy(s, id) != {}
  }

  lemma SameFailed(a: Snapshot, b: Snapshot, first: nat, n: nat)
    requires b.log.spent == a.log.spent
    ensures FailedTasks(b, first, n) == FailedTasks(a, first, n)
  {
    assert forall id :: SpentBy(a, id) == SpentBy(b, id);
  }

  /** The tasks given a retry so far: of those that wait or have succeeded, the ones against
      which a failure is held. */
  ghost predicate Retried(s: Snapshot, maxRetries: int, first: nat, n: nat, done: map<nat, TaskResult>, retried: set<nat>) {
    && (forall id :: id in retried ==> first <= id < first + n && SpentBy(s, id) != {})
    && (forall id :: first <= id < first + n && id !in retried && (id in done ==> done[id].Succeeded?) ==> SpentBy(s, id) == {})
    && (retried != {} ==> maxRetries > 0)
  }

  /** With every task succeeded, they are all the tasks with a failure. */
  lemma RetriedCount(s: Snapshot, maxRetries: int, first: nat, n: nat, done: map<nat, TaskResult>, retried: set<nat>)
    requires Retried(s, maxRetries, first, n, done, retried)
    ensures (forall id :: id in done && first <= id < first + n ==> done[id].Succeeded?) ==> retried == FailedTasks(s, first, n)
    ensures |retried| <= n && (|retried| > 0 ==> maxRetries > 0)
  {
    WithinRange(retried, first, n);
  }

  lemma {:induction false} WithinRange(ids: set<nat>, first: nat, n: nat)
    requires forall id :: id in ids ==> first <= id < first + n
    ensures |ids| <= n
  {
    if n == 0 {
      assert ids == {};
    } else {
      WithinRange(ids - {first + n - 1}, first, n - 1);
    }
  }

  /** Executing a batch holds nothing against anyone. */
  lemma RetriedKept(a: Snapshot, b: Snapshot, maxRetries: int, first: nat, n: nat, done: map<nat, TaskResult>, retried: set<nat>)
    requires Retried(a, maxRetries, first, n, done, retried) && b.log.spent == a.log.spent
    ensures Retried(b, maxRetries, first, n, done, retried)
  {
    assert forall id :: SpentBy(a, id) == SpentBy(b, id);
  }

  /** Settling one more result: a task that waits again has a failure held against it now
      if it is given a retry, and not otherwise. */
  lemma RetriedNext(b: Snapshot, c: Snapshot, maxRetries: int, first: nat, n: nat, id: nat, result: TaskResult, held: bool,
                    done: map<nat, TaskResult>, done': map<nat, TaskResult>, retried: set<nat>, wasRetried: bool)
    requires Retried(b, maxRetries, first, n, done, retried) && first <= id < first + n
    requires id in done ==> done[id].Succeeded?
    requires Kept(b, c) && SpentFrom(b, c, first + n, if held then {id} else {})
    requires wasRetried ==> held && maxRetries > 0 && done' == done && SpentBy(c, id) != {}
    requires !wasRetried ==> done' == done || done' == done[id := result]
    requires held && !wasRetried ==> done' == done[id := result] && result.Failed?
    ensures Retried(c, maxRetries, first, n, done', if wasRetried then retried + {id} else retried)
  {
    forall other | first <= other < first + n && (other != id || !held) ensures SpentBy(b, other) == SpentBy(c, other) {
      SpentSame(b, c, first + n, if held then {id} else {}, other);
    }
    hide SpentBy;
  }

  /** What is known of a result that is to be settled. */
  lemma ToSettle(rt: Runtime, stages: seq<Stage>, faults: Faults, tries: nat, k: nat, first: nat, a: Snapshot, b: Snapshot,
                 batch: seq<Attempt>, results: seq<TaskResult>, i: nat, next: seq<Attempt>, done: map<nat, TaskResult>)
    requires RoundAt(rt, stages, faults, tries, k, first, a, b, batch, results, i, next, done) && i < |batch|
    ensures |results| == |batch| && Fine(rt, stages, faults, b) && Ready(stages, b, k)
    ensures AttemptOf(stages, k, first, tries, batch[i]) && Outcome(rt, stages, faults, b, k, batch[i].task, results[i])
    ensures first <= batch[i].task.taskId < first + stages[k].numPartitions <= b.nextTaskId
    ensures batch[i].number == |SpentBy(b, batch[i].task.taskId)| < tries
    ensures results[i].Failed? ==> results[i].execution !in b.log.dealt && results[i].execution !in b.log.spent
    ensures batch[i].task.taskId in done ==> done[batch[i].task.taskId].Succeeded?
  {
    hide Fine, GoodTask, Outcome, Covered, Spent, SpentBy, GoodSuccess;
    SettlingFacts(rt, stages, faults, tries, k, first, a, b, batch, results, i, next, done);
    assert batch[i..][0] == batch[i];
  }

  lemma RetriedAfter(rt: Runtime, stages: seq<Stage>, faults: Faults, tries: nat, maxRetries: int, k: nat, first: nat, a: Snapshot,
                     b: Snapshot, c: Snapshot, batch: seq<Attempt>, results: seq<TaskResult>, i: nat, next: seq<Attempt>,
                     done: map<nat, TaskResult>, done': map<nat, TaskResult>, retried: set<nat>, again: Option<Attempt>,
                     held: bool, wasRetried: bool)
    requires RoundAt(rt, stages, faults, tries, k, first, a, b, batch, results, i, next, done) && i < |batch|
    requires Advances(rt, stages, faults, b.nextTaskId, AfterSettling(b, batch[i].task.taskId, results[i], held), c)
    requires Retried(b, maxRetries, first, stages[k].numPartitions, done, retried)
    requires Settled(rt, stages, c, k, first, tries, batch[i], results[i], again)
    requires held == (results[i].Failed? && (again.None? || wasRetried)) && (wasRetried ==> again.Some? && maxRetries > 0)
    requires wasRetried ==> again.value.number > 0
    requires done' == if again.Some? then done else done[batch[i].task.taskId := results[i]]
    ensures Retried(c, maxRetries, first, stages[k].numPartitions, done',
                    if wasRetried then retried + {again.value.task.taskId} else retried)
  {
    hide Fine, GoodTask, Outcome, DoneWith, Covered, Spent, Retried;
    var id := batch[i].task.taskId;
    ToSettle(rt, stages, faults, tries, k, first, a, b, batch, results, i, next, done);
    SettlingFacts(rt, stages, faults, tries, k, first, a, b, batch, results, i, next, done);
    AcrossNoting(rt, stages, faults, first, a, b, c, id, results[i], held);
    RetriedNext(b, c, maxRetries, first, stages[k].numPartitions, id, results[i], held, done, done', retried, wasRetried);
  }

  // ---- starting a stage run ------------------------------------------------

  lemma NumberedFine(rt: Runtime, stages: seq<Stage>, faults: Faults, a: Snapshot, b: Snapshot)
    requires Fine(rt, stages, faults, a) && b == a.(nextTaskId := b.nextTaskId) && a.nextTaskId <= b.nextTaskId
    ensures Advances(rt, stages, faults, a.nextTaskId, a, b)
  {
    hide Registered, Caused, Sound;
    StillRegistered(rt, stages, a, b);
  }

  lemma FreshTask(rt: Runtime, stages: seq<Stage>, a: Snapshot, b: Snapshot, k: nat, task: Task)
    requires Consistent(rt, stages, a) && b == a.(nextTaskId := b.nextTaskId) && k < |stages|
    requires task.stageId == k && task.plan == stages[k].plan && a.nextTaskId <= task.taskId < b.nextTaskId
    requires GoodLeaves(rt, stages, a, k, task.partitionId, ReadLeaves(stages[k].plan), task.blocks)
    ensures GoodTask(rt, stages, b, k, task)
  {
    var leaves := ReadLeaves(stages[k].plan);
    forall i | 0 <= i < |leaves|
      ensures GoodLeaf(rt, stages, b, k, task.partitionId, leaves[i], task.blocks[leaves[i].fromStage])
    {
      assert GoodLeaf(rt, stages, a, k, task.partitionId, leaves[i], task.blocks[leaves[i].fromStage]);
    }
  }

  lemma StartedFine(rt: Runtime, stages: seq<Stage>, faults: Faults, tries: nat, a: Snapshot, b: Snapshot, k: nat)
    requires Fine(rt, stages, faults, a) && k < |stages|
    requires b == a.(log := a.log.(runs := a.log.runs + [k]))
    ensures Advances(rt, stages, faults, a.nextTaskId, a, b)
    ensures Credit(stages, tries, b) == Credit(stages, tries, a) + Times(stages[k].numPartitions, tries)
    ensures RunsGrow(a, b, multiset{k})
  {
    assert Advances(rt, stages, faults, a.nextTaskId, a, b) by {
      hide Registered, Caused, Sound, Missed;
      StillRegistered(rt, stages, a, b);
    }
    hide Fine, Kept;
    AllowanceSnoc(stages, tries, a.log.runs, k);
    assert multiset(b.recomputed - a.recomputed) == multiset{};
  }

  lemma NewTasksUnspent(rt: Runtime, stages: seq<Stage>, faults: Faults, a: Snapshot, b: Snapshot, id: nat)
    requires Fine(rt, stages, faults, a) && b.log.spent == a.log.spent && id >= a.nextTaskId
    ensures SpentBy(b, id) == {}
  {
  }

  lemma QueueStarts(rt: Runtime, stages: seq<Stage>, faults: Faults, maxRetries: int, tries: nat, a: Snapshot, b: Snapshot, k: nat,
                    pending: seq<Attempt>)
    requires Fine(rt, stages, faults, a) && k < |stages| && tries >= 1 && |pending| == stages[k].numPartitions
    requires Advances(rt, stages, faults, a.nextTaskId, a, b) && Ready(stages, a, k)
    requires b == a.(nextTaskId := a.nextTaskId + |pending|, log := a.log.(runs := a.log.runs + [k]))
    requires forall p :: 0 <= p < |pending| ==>
               && AttemptOf(stages, k, a.nextTaskId, 1, pending[p]) && pending[p].number == 0
               && pending[p].task.taskId == a.nextTaskId + p && GoodTask(rt, stages, b, k, pending[p].task)
    ensures Queue(rt, stages, b, k, a.nextTaskId, tries, pending, map[]) && Ready(stages, b, k)
    ensures Reported(a, b) && Credit(stages, tries, b) - Budget(tries, pending) == Credit(stages, tries, a)
    ensures RunsGrow(a, b, multiset{k})
    ensures |b.recomputed| <= |stages| && Tallied(b, pending)
    ensures Retried(b, maxRetries, a.nextTaskId, stages[k].numPartitions, map[], {})
  {
    hide Fine, GoodTask, GoodLeaf, Ready, Allowance, Budget;
    BudgetFresh(tries, pending);
    AllowanceSnoc(stages, tries, a.log.runs, k);
    ReadyKept(stages, a, b, k);
    assert |b.recomputed| <= |stages| by { RecomputedBelow(rt, stages, faults, a); }
    NothingRecomputed(a, b, k);
    AllWait(stages, k, a.nextTaskId, tries, pending);
    assert Tallied(b, pending) by {
      forall p | 0 <= p < |pending| ensures SpentBy(b, pending[p].task.taskId) == {} {
        NewTasksUnspent(rt, stages, faults, a, b, pending[p].task.taskId);
      }
    }
    forall id | id >= a.nextTaskId ensures SpentBy(b, id) == {} { NewTasksUnspent(rt, stages, faults, a, b, id); }
  }

  lemma RecomputedBelow(rt: Runtime, stages: seq<Stage>, faults: Faults, a: Snapshot)
    requires Fine(rt, stages, faults, a)
    ensures |a.recomputed| <= |stages|
  {
    BelowSize(a.recomputed, |stages|);
  }

  lemma NothingRecomputed(a: Snapshot, b: Snapshot, k: nat)
    requires b.recomputed == a.recomputed && b.log.runs == a.log.runs + [k]
    ensures RunsGrow(a, b, multiset{k})
  {
    assert b.recomputed - a.recomputed == {};
    assert multiset(b.log.runs) == multiset(a.log.runs) + multiset{k};
  }

  lemma AllWait(stages: seq<Stage>, k: nat, first: nat, tries: nat, pending: seq<Attempt>)
    requires k < |stages| && tries >= 1 && |pending| == stages[k].numPartitions
    requires forall p :: 0 <= p < |pending| ==>
               AttemptOf(stages, k, first, 1, pending[p]) && pending[p].task.taskId == first + p
    ensures Covered(first, stages[k].numPartitions, {}, Ids(pending))
  {
    forall id | first <= id < first + |pending| ensures id in Ids(pending) {
      assert pending[id - first].task.taskId == id;
    }
  }

  /** The state of a stage run that began at a: its queue, and what is paid for. */
  ghost predicate RunAt(rt: Runtime, stages: seq<Stage>, faults: Faults, tries: nat, k: nat, first: nat, a: Snapshot, s: Snapshot,
                        pending: seq<Attempt>, done: map<nat, TaskResult>)
  {
    && Advances(rt, stages, faults, first, a, s) && Reported(a, s) && Ready(stages, s, k)
    && Queue(rt, stages, s, k, first, tries, pending, done) && first + stages[k].numPartitions <= s.nextTaskId
    && Tallied(s, pending)
    && Credit(stages, tries, s) - Budget(tries, pending) >= Credit(stages, tries, a)
    && |a.recomputed| <= |s.recomputed| <= |stages| && RunsGrow(a, s, multiset{k})
  }

  /** A stage run that has to stop: for a reason, and with everything paid for. */
  ghost predicate RunFailed(rt: Runtime, stages: seq<Stage>, faults: Faults, tries: nat, k: nat, first: nat, a: Snapshot, s: Snapshot) {
    && Advances(rt, stages, faults, first, a, s) && Excused(tries, s) && RunsGrow(a, s, multiset{k})
    && Credit(stages, tries, s) >= Credit(stages, tries, a)
  }

  lemma RunMeasure(rt: Runtime, stages: seq<Stage>, faults: Faults, tries: nat, k: nat, first: nat, a: Snapshot, s: Snapshot,
                   pending: seq<Attempt>, done: map<nat, TaskResult>)
    requires RunAt(rt, stages, faults, tries, k, first, a, s, pending, done)
    ensures |a.recomputed| <= |s.recomputed| <= |stages| && Budget(tries, pending) >= 0
  {
    BudgetPositive(tries, pending);
  }

  lemma RoundMeasure(rt: Runtime, stages: seq<Stage>, faults: Faults, tries: nat, k: nat, first: nat, a: Snapshot, s: Snapshot,
                     batch: seq<Attempt>, results: seq<TaskResult>, i: nat, next: seq<Attempt>, done: map<nat, TaskResult>)
    requires RoundAt(rt, stages, faults, tries, k, first, a, s, batch, results, i, next, done)
    ensures |results| == |batch| && |a.recomputed| <= |s.recomputed|
  {
  }

  lemma RoundAborts(rt: Runtime, stages: seq<Stage>, faults: Faults, tries: nat, k: nat, first: nat, a: Snapshot, b: Snapshot,
                    c: Snapshot, batch: seq<Attempt>, done: map<nat, TaskResult>)
    requires RunAt(rt, stages, faults, tries, k, first, a, b, batch, done)
    requires Advances(rt, stages, faults, first, b, c) && Excused(tries, c) && RunsGrow(b, c, multiset{})
    requires Credit(stages, tries, c) >= Credit(stages, tries, b) - Budget(tries, batch)
    ensures RunFailed(rt, stages, faults, tries, k, first, a, c)
  {
    AdvancesTrans(rt, stages, faults, first, first, a, b, c);
    RunsTrans(a, b, c, multiset{k}, multiset{});
  }

  ghost predicate DoneRight(rt: Runtime, stages: seq<Stage>, s: Snapshot, k: nat, first: nat, tries: nat,
                            done: map<nat, TaskResult>, p: nat)
  {
    first + p in done &&
    if done[first + p].Succeeded? then GoodSuccess(rt, stages, s, k, p, first + p, done[first + p])
    else |SpentBy(s, first + p)| >= tries
  }

  /** With nothing waiting, every task is done with. */
  lemma RunEnds(rt: Runtime, stages: seq<Stage>, faults: Faults, tries: nat, k: nat, first: nat, a: Snapshot, s: Snapshot,
                done: map<nat, TaskResult>)
    requires RunAt(rt, stages, faults, tries, k, first, a, s, [], done)
    ensures forall p :: 0 <= p < stages[k].numPartitions ==> DoneRight(rt, stages, s, k, first, tries, done, p)
    ensures Credit(stages, tries, s) >= Credit(stages, tries, a)
  {
    assert Ids([]) == {};
    forall p | 0 <= p < stages[k].numPartitions ensures DoneRight(rt, stages, s, k, first, tries, done, p) {
      assert first + p in done.Keys;
    }
  }

  lemma RoundAfter(rt: Runtime, stages: seq<Stage>, faults: Faults, tries: nat, k: nat, first: nat, a: Snapshot, b: Snapshot,
                   c: Snapshot, pending: seq<Attempt>, done: map<nat, TaskResult>, pending': seq<Attempt>,
                   done': map<nat, TaskResult>)
    requires RunAt(rt, stages, faults, tries, k, first, a, b, pending, done)
    requires Advances(rt, stages, faults, first, b, c) && Reported(b, c) && RunsGrow(b, c, multiset{})
    requires Queue(rt, stages, c, k, first, tries, pending', done') && Tallied(c, pending')
    requires Credit(stages, tries, c) - Budget(tries, pending') >= Credit(stages, tries, b) - Budget(tries, pending)
    ensures RunAt(rt, stages, faults, tries, k, first, a, c, pending', done')
    ensures |b.recomputed| <= |c.recomputed|
    ensures Budget(tries, pending') >= 0
  {
    AdvancesTrans(rt, stages, faults, first, first, a, b, c);
    ReportedTrans(a, b, c);
    RunsTrans(a, b, c, multiset{k}, multiset{});
    BudgetPositive(tries, pending');
    ReadyKept(stages, b, c, k);
    SubsetSize(b.recomputed, c.recomputed);
    SubsetSize(a.recomputed, c.recomputed);
    BelowSize(c.recomputed, |stages|);
  }

  // ---- a finished stage run ------------------------------------------------

  ghost predicate AllGood(rt: Runtime, stages: seq<Stage>, s: Snapshot, k: nat, first: nat, results: seq<TaskResult>) {
    k < |stages| && |results| == stages[k].numPartitions &&
    forall p :: 0 <= p < |results| ==> GoodSuccess(rt, stages, s, k, p, first + p, results[p])
  }

  /** Every task's blocks, in task order. */
  function AllBlocks(results: seq<TaskResult>): seq<BlockMeta> {
    if results == [] then []
    else
      var last := results[|results| - 1];
      AllBlocks(results[..|results| - 1]) + if last.Succeeded? then last.blocks else []
  }

  lemma {:induction false} AllBlocksAre(rt: Runtime, p: Partitioning, k: nat, first: nat, results: seq<TaskResult>, outs: seq<seq<Record>>)
    requires Legal(p) && |results| == |outs|
    requires forall i :: 0 <= i < |outs| ==>
               results[i].Succeeded? && results[i].blocks == WrittenBlocks(rt, p, k, first + i, outs[i])
    ensures AllBlocks(results) == OutputBlocks(rt, p, k, first, outs)
  {
    hide WrittenBlocks;
    if outs != [] {
      var n := |outs| - 1;
      forall i | 0 <= i < n ensures results[..n][i].Succeeded?
                                    && results[..n][i].blocks == WrittenBlocks(rt, p, k, first + i, outs[..n][i])
      {
        assert results[..n][i] == results[i] && outs[..n][i] == outs[i];
      }
      AllBlocksAre(rt, p, k, first, results[..n], outs[..n]);
    }
  }

  lemma {:induction false} AllHeld(s: Snapshot, results: seq<TaskResult>)
    requires forall i :: 0 <= i < |results| ==> results[i].Succeeded? && Held(s, results[i].blocks)
    ensures Held(s, AllBlocks(results))
  {
    if results != [] { AllHeld(s, results[..|results| - 1]); }
  }

  /** The state after a stage run's blocks are registered and its entry reported. */
  ghost function Recorded(s: Snapshot, k: nat, first: nat, entry: StageMetrics, writes: bool, blocks: seq<BlockMeta>): Snapshot {
    var t := s.(metrics := s.metrics + [entry]);
    if writes then t.(blocks := s.blocks[k := blocks], log := s.log.(generation := s.log.generation[k := first])) else t
  }

  lemma AllGoodKept(rt: Runtime, stages: seq<Stage>, a: Snapshot, b: Snapshot, k: nat, first: nat, results: seq<TaskResult>)
    requires AllGood(rt, stages, a, k, first, results) && Kept(a, b)
    ensures AllGood(rt, stages, b, k, first, results)
  {
    forall p | 0 <= p < |results| ensures GoodSuccess(rt, stages, b, k, p, first + p, results[p]) {
      GoodSuccessKept(rt, stages, a, b, k, p, first + p, results[p]);
    }
  }

  /** The blocks of a finished stage run, registered. */
  lemma RunRegistered(rt: Runtime, stages: seq<Stage>, s: Snapshot, k: nat, first: nat, results: seq<TaskResult>)
    requires Sound(stages) && AllGood(rt, stages, s, k, first, results) && stages[k].plan.ShuffleWriteExec?
    requires k in s.blocks && s.blocks[k] == AllBlocks(results) && k in s.log.generation && s.log.generation[k] == first
    ensures Registered(rt, stages, s, k)
  {
    assert WritesLegally(stages[k]);
    forall p | 0 <= p < |results| ensures GoodSuccess(rt, stages, s, k, p, first + p, results[p]) { }
    AllBlocksAre(rt, stages[k].plan.part, k, first, results, StageOutput(rt, stages, k));
    AllHeld(s, results);
  }

  lemma RecordedFine(rt: Runtime, stages: seq<Stage>, faults: Faults, a: Snapshot, b: Snapshot, k: nat, first: nat,
                     entry: StageMetrics, results: seq<TaskResult>)
    requires Fine(rt, stages, faults, a) && AllGood(rt, stages, a, k, first, results)
    requires b == Recorded(a, k, first, entry, stages[k].plan.ShuffleWriteExec?, AllBlocks(results))
    ensures Advances(rt, stages, faults, a.nextTaskId, a, b)
    ensures Writes(stages, k) ==> k in b.blocks && k in b.log.generation && b.log.generation[k] == first
    ensures AllGood(rt, stages, b, k, first, results)
  {
    hide GoodSuccess, Sound, Caused, AllBlocks, Missed, Registered;
    AllGoodKept(rt, stages, a, b, k, first, results);
    if stages[k].plan.ShuffleWriteExec? {
      RunRegistered(rt, stages, b, k, first, results);
    } else {
      StillRegistered(rt, stages, a, b);
    }
    forall j | j in a.blocks && b.blocks[j] == a.blocks[j] && (stages[k].plan.ShuffleWriteExec? ==> j != k)
      ensures Registered(rt, stages, b, j)
    {
      OneStillRegistered(rt, stages, a, b, j);
    }
  }

  lemma RecordedReported(a: Snapshot, b: Snapshot, c: Snapshot, k: nat, first: nat, entry: StageMetrics, writes: bool,
                         blocks: seq<BlockMeta>)
    requires Reported(a, b) && entry.stageId == k && c == Recorded(b, k, first, entry, writes, blocks)
    ensures StageReported(a, c, k, entry.recomputed)
  {
    EntriesSnoc(b.metrics, entry, false);
    EntriesSnoc(b.metrics, entry, true);
  }

  lemma StageRecorded(rt: Runtime, stages: seq<Stage>, faults: Faults, tries: nat, a: Snapshot, b: Snapshot, c: Snapshot, k: nat,
                      first: nat, entry: StageMetrics, results: seq<TaskResult>)
    requires Advances(rt, stages, faults, a.nextTaskId, a, b) && Reported(a, b) && RunsGrow(a, b, multiset{k})
    requires Credit(stages, tries, b) >= Credit(stages, tries, a) && AllGood(rt, stages, b, k, first, results)
    requires entry.stageId == k
    requires c == Recorded(b, k, first, entry, stages[k].plan.ShuffleWriteExec?, AllBlocks(results))
    ensures Advances(rt, stages, faults, a.nextTaskId, a, c) && RunsGrow(a, c, multiset{k})
    ensures StageReported(a, c, k, entry.recomputed) && Credit(stages, tries, c) >= Credit(stages, tries, a)
    ensures AllGood(rt, stages, c, k, first, results)
    ensures Writes(stages, k) ==> k in c.blocks && k in c.log.generation && c.log.generation[k] == first
  {
    hide Consistent, GoodSuccess, Real;
    RecordedFine(rt, stages, faults, b, c, k, first, entry, results);
    SameRuns(b, c);
    RunsTrans(a, b, c, multiset{k}, multiset{});
    RecordedReported(a, b, c, k, first, entry, stages[k].plan.ShuffleWriteExec?, AllBlocks(results));
    AdvancesTrans(rt, stages, faults, a.nextTaskId, b.nextTaskId, a, b, c);
  }
}
