/**
 What a whole run of the scheduler returns, reports and spends
 (minispark/execution/scheduler.py, `run_plan`).
 */
module SchedulerPlan {
  import opened Options
  import opened Values
  import opened Expressions
  import opened Sequences
  import opened Shuffle
  import opened Physical
  import opened Stages
  import opened ShuffleStore
  import opened SchedulerState
  import opened SchedulerAccounts
  import opened SchedulerSteps

  datatype PlanResult = Finished(partitions: seq<seq<Record>>) | Aborted

  /** The last stage below k that returns rows instead of writing blocks. */
  function LastPlain(stages: seq<Stage>, k: nat): (j: Option<nat>)
    requires k <= |stages|
    ensures j.Some? ==> j.value < k && !stages[j.value].plan.ShuffleWriteExec?
  {
    if k == 0 then None
    else if !stages[k - 1].plan.ShuffleWriteExec? then Some(k - 1)
    else LastPlain(stages, k - 1)
  }

  ghost function Below(k: nat): (ids: seq<nat>)
    ensures |ids| == k && forall i :: 0 <= i < k ==> ids[i] == i
  {
    seq(k, i => i)
  }

  /** What the fault-free run returns. */
  ghost predicate Expected(rt: Runtime, stages: seq<Stage>, k: nat, partitions: Option<seq<seq<Record>>>)
    requires k <= |stages|
  {
    match LastPlain(stages, k)
    case None => partitions.None?
    case Some(j) => partitions == Some(StageOutput(rt, stages, j))
  }

  /** Metrics hold one normal entry for each of the first k stages, in order, and one
      recomputation entry exactly for each recomputed stage; the stage runs started are
      those. */
  ghost predicate Counted(k: nat, s: Snapshot) {
    && Entries(s.metrics, false) == Below(k)
    && multiset(Entries(s.metrics, true)) == multiset(s.recomputed)
    && multiset(s.log.runs) == multiset(Below(k)) + multiset(s.recomputed)
  }

  /** With the first k stages run, every execution is accounted for by the stage runs. */
  ghost predicate PlanAt(rt: Runtime, stages: seq<Stage>, faults: Faults, tries: nat, k: nat, s: Snapshot) {
    Fine(rt, stages, faults, s) && Ready(stages, s, k) && Counted(k, s) && Credit(stages, tries, s) >= 0
  }

  lemma GrownSet(a: set<nat>, b: set<nat>)
    requires a <= b
    ensures multiset(b) == multiset(a) + multiset(b - a)
  {
    assert b == a + (b - a);
  }

  lemma CountedStep(k: nat, a: Snapshot, b: Snapshot)
    requires Counted(k, a) && StageReported(a, b, k, false) && RunsGrow(a, b, multiset{k}) && a.recomputed <= b.recomputed
    ensures Counted(k + 1, b)
  {
    assert Below(k + 1) == Below(k) + [k];
    GrownSet(a.recomputed, b.recomputed);
  }

  lemma ReadyStep(stages: seq<Stage>, k: nat, a: Snapshot, b: Snapshot)
    requires Ready(stages, a, k) && a.blocks.Keys <= b.blocks.Keys && (Writes(stages, k) ==> k in b.blocks)
    ensures Ready(stages, b, k + 1)
  {
    forall j | 0 <= j < k + 1 && Writes(stages, j) ensures j in b.blocks {
      if j < k { assert j in a.blocks.Keys; }
    }
  }

  lemma PlanStep(rt: Runtime, stages: seq<Stage>, faults: Faults, tries: nat, k: nat, a: Snapshot, b: Snapshot)
    requires PlanAt(rt, stages, faults, tries, k, a)
    requires Advances(rt, stages, faults, a.nextTaskId, a, b) && StageReported(a, b, k, false) && RunsGrow(a, b, multiset{k})
    requires Credit(stages, tries, b) >= Credit(stages, tries, a) && (Writes(stages, k) ==> k in b.blocks)
    ensures PlanAt(rt, stages, faults, tries, k + 1, b)
  {
    CountedStep(k, a, b);
    ReadyStep(stages, k, a, b);
  }

  lemma PlanFails(rt: Runtime, stages: seq<Stage>, faults: Faults, tries: nat, k: nat, a: Snapshot, b: Snapshot)
    requires PlanAt(rt, stages, faults, tries, k, a)
    requires Advances(rt, stages, faults, a.nextTaskId, a, b) && RunsGrow(a, b, multiset{k})
    requires Credit(stages, tries, b) >= Credit(stages, tries, a)
    ensures multiset(b.log.runs) == multiset(Below(k + 1)) + multiset(b.recomputed)
    ensures Credit(stages, tries, b) >= 0
  {
    hide Fine, Entries, Allowance;
    assert Below(k + 1) == Below(k) + [k];
    GrownSet(a.recomputed, b.recomputed);
  }

  /** How many task executions a run may make: the retries of every task of every stage
      run, and one more per recomputed stage. */
  ghost predicate Bounded(stages: seq<Stage>, maxRetries: int, s: Snapshot) {
    && (exists j :: 0 <= j <= |stages| && multiset(s.log.runs) == multiset(Below(j)) + multiset(s.recomputed))
    && s.executions <= Allowance(stages, Tries(maxRetries), s.log.runs) + |s.recomputed|
  }

  lemma PlanBounded(rt: Runtime, stages: seq<Stage>, faults: Faults, maxRetries: int, s: Snapshot)
    requires PlanAt(rt, stages, faults, Tries(maxRetries), |stages|, s)
    ensures Bounded(stages, maxRetries, s)
  {
    assert multiset(s.log.runs) == multiset(Below(|stages|)) + multiset(s.recomputed);
  }

  lemma PlanStarts(rt: Runtime, stages: seq<Stage>, faults: Faults, tries: nat)
    requires Sound(stages)
    ensures PlanAt(rt, stages, faults, tries, 0, Snapshot(map[], map[], 0, {}, [], 0, Log({}, map[], [], map[], map[])))
    ensures Expected(rt, stages, 0, None)
  {
    assert Below(0) == [];
  }

  lemma PlanEnds(rt: Runtime, stages: seq<Stage>, faults: Faults, tries: nat, partitions: Option<seq<seq<Record>>>, s: Snapshot)
    requires PlanAt(rt, stages, faults, tries, |stages|, s) && Expected(rt, stages, |stages|, partitions)
    ensures Fine(rt, stages, faults, s) && (partitions.None? <==> LastPlain(stages, |stages|).None?)
  {
  }

  /** The rows of every result, in task order. */
  function ResultRows(results: seq<TaskResult>): (out: seq<seq<Record>>)
    ensures |out| == |results|
    ensures forall p :: 0 <= p < |results| && results[p].Succeeded? ==> out[p] == results[p].rows
  {
    seq(|results|, p requires 0 <= p < |results| => if results[p].Succeeded? then results[p].rows else [])
  }

  lemma ResultRowsAre(rt: Runtime, stages: seq<Stage>, s: Snapshot, k: nat, first: nat, results: seq<TaskResult>)
    requires AllGood(rt, stages, s, k, first, results) && !stages[k].plan.ShuffleWriteExec?
    ensures ResultRows(results) == StageOutput(rt, stages, k)
  {
    var out, expected := ResultRows(results), StageOutput(rt, stages, k);
    forall p | 0 <= p < |results| ensures out[p] == expected[p] {
      assert GoodSuccess(rt, stages, s, k, p, first + p, results[p]);
    }
  }

  /** No execution fails on its own, and for no stage do two executions find a block
      unreadable. */
  ghost predicate LostOnceEach(faults: Faults) {
    && (forall n :: !faults.ordinary(n))
    && forall m, n, stage :: Loses(faults, m, stage) && Loses(faults, n, stage) ==> m == n
  }

  /** Execution n fails in a way that recovery does not undo: on its own, or finding
      unreadable what another execution finds unreadable too. */
  ghost predicate Harmed(faults: Faults, n: nat) {
    faults.ordinary(n) || exists m, stage :: m != n && Loses(faults, m, stage) && Loses(faults, n, stage)
  }

  /** No more executions are harmed than one task has retries. */
  ghost predicate Tolerable(faults: Faults, maxRetries: int) {
    forall ns: set<nat> :: (forall n :: n in ns ==> Harmed(faults, n)) ==> |ns| < Tries(maxRetries)
  }

  /** A failure held against a task was of a harmed execution. */
  lemma SpentIsHarmed(rt: Runtime, stages: seq<Stage>, faults: Faults, s: Snapshot, n: nat)
    requires Fine(rt, stages, faults, s) && n in s.log.spent
    ensures Harmed(faults, n)
  {
    hide Consistent;
    assert Counts(s.log.dealt, n) && Caused(faults, n, s.log.dealt[n]);
    if s.log.dealt[n].Some? {
      var m :| m in s.log.dealt && m != n && s.log.dealt[m] == s.log.dealt[n];
      assert Caused(faults, m, s.log.dealt[m]);
      assert Loses(faults, m, s.log.dealt[n].value) && Loses(faults, n, s.log.dealt[n].value);
    }
  }

  /** Then nothing excuses a failure: every task that is harmed has a retry left. */
  lemma TolerableReturns(rt: Runtime, stages: seq<Stage>, faults: Faults, maxRetries: int, s: Snapshot)
    requires Fine(rt, stages, faults, s) && Tolerable(faults, maxRetries)
    ensures !Excused(Tries(maxRetries), s)
  {
    hide Fine, Harmed;
    forall id ensures |SpentBy(s, id)| < Tries(maxRetries) {
      forall n | n in SpentBy(s, id) ensures Harmed(faults, n) { SpentIsHarmed(rt, stages, faults, s, n); }
    }
  }

  /** So it is if no stage is lost twice and at most as many executions fail on their own as
      one task has retries. */
  lemma RetriesSuffice(faults: Faults, maxRetries: int)
    requires forall m, n, stage :: Loses(faults, m, stage) && Loses(faults, n, stage) ==> m == n
    requires forall ns: set<nat> :: (forall n :: n in ns ==> faults.ordinary(n)) ==>
               |ns| <= if maxRetries > 0 then maxRetries else 0
    ensures Tolerable(faults, maxRetries)
  {
    forall ns: set<nat> | forall n :: n in ns ==> Harmed(faults, n) ensures |ns| < Tries(maxRetries) {
      assert forall n :: n in ns ==> faults.ordinary(n);
    }
  }

  /** However few retries there are, losing each stage once is tolerable. */
  lemma LostOnceTolerable(faults: Faults, maxRetries: int)
    requires LostOnceEach(faults)
    ensures Tolerable(faults, maxRetries)
  {
    forall ns: set<nat> | forall n :: n in ns ==> faults.ordinary(n)
      ensures |ns| <= if maxRetries > 0 then maxRetries else 0
    {
      assert ns == {};
    }
    RetriesSuffice(faults, maxRetries);
  }

  /** A run without faults is one of these. */
  lemma FaultlessLosesNothing(faults: Faults)
    requires forall n :: !faults.ordinary(n) && faults.unreadable(n) == {}
    ensures LostOnceEach(faults)
  {
    forall n, stage ensures !Loses(faults, n, stage) { assert faults.unreadable(n) == {}; }
  }
}
