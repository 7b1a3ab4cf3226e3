/**
 What a run of the scheduler may spend, and what it reports: execution budgets, metrics
 entries, and the queue of waiting tasks (minispark/execution/scheduler.py).
 */
module SchedulerAccounts {
  import opened Arithmetic
  import opened Options
  import opened Values
  import opened Expressions
  import opened Physical
  import opened Stages
  import opened ShuffleStore
  import opened SchedulerState

  // ---- retry budgets -------------------------------------------------------

  /** How often one task may be executed on its own account. */
  function Tries(maxRetries: int): nat {
    if maxRetries > 0 then maxRetries + 1 else 1
  }

  /** What the waiting attempts may still spend. */
  function Budget(tries: nat, attempts: seq<Attempt>): int {
    if attempts == [] then 0 else tries - attempts[0].number + Budget(tries, attempts[1..])
  }

  lemma {:induction false} BudgetSnoc(tries: nat, attempts: seq<Attempt>, a: Attempt)
    ensures Budget(tries, attempts + [a]) == Budget(tries, attempts) + tries - a.number
  {
    if attempts != [] {
      assert (attempts + [a])[1..] == attempts[1..] + [a];
      BudgetSnoc(tries, attempts[1..], a);
    } else {
      assert attempts + [a] == [a];
    }
  }

  lemma {:induction false} BudgetFresh(tries: nat, attempts: seq<Attempt>)
    requires forall i :: 0 <= i < |attempts| ==> attempts[i].number == 0
    ensures Budget(tries, attempts) == Times(|attempts|, tries)
  {
    if attempts != [] {
      BudgetFresh(tries, attempts[1..]);
      assert Times(|attempts|, tries) == tries + Times(|attempts| - 1, tries);
    }
  }

  lemma {:induction false} BudgetPositive(tries: nat, attempts: seq<Attempt>)
    requires forall i :: 0 <= i < |attempts| ==> attempts[i].number < tries
    ensures Budget(tries, attempts) >= |attempts|
  {
    if attempts != [] { BudgetPositive(tries, attempts[1..]); }
  }

  /** The executions that the tasks of the started stage runs account for. */
  function Allowance(stages: seq<Stage>, tries: nat, runs: seq<nat>): nat {
    if runs == [] then 0
    else
      var n, k := |runs| - 1, runs[|runs| - 1];
      Allowance(stages, tries, runs[..n]) + if k < |stages| then Times(stages[k].numPartitions, tries) else 0
  }

  lemma AllowanceSnoc(stages: seq<Stage>, tries: nat, runs: seq<nat>, k: nat)
    requires k < |stages|
    ensures Allowance(stages, tries, runs + [k]) == Allowance(stages, tries, runs) + Times(stages[k].numPartitions, tries)
  {
    assert (runs + [k])[..|runs|] == runs;
  }

  /** What a state has left: its runs' allowance, and one execution for every recomputed
      stage, less the executions made. */
  function Credit(stages: seq<Stage>, tries: nat, s: Snapshot): int {
    Allowance(stages, tries, s.log.runs) + |s.recomputed| - s.executions
  }

  lemma {:induction false} BelowSize(ids: set<nat>, n: nat)
    requires forall id :: id in ids ==> id < n
    ensures |ids| <= n
  {
    if n == 0 {
      assert ids == {};
    } else {
      BelowSize(ids - {n - 1}, n - 1);
      assert ids <= (ids - {n - 1}) + {n - 1};
    }
  }

  // ---- the queue -----------------------------------------------------------

  function Ids(attempts: seq<Attempt>): set<nat> {
    set i | 0 <= i < |attempts| :: attempts[i].task.taskId
  }

  ghost predicate DistinctTasks(attempts: seq<Attempt>) {
    forall i, j :: 0 <= i < j < |attempts| ==> attempts[i].task.taskId != attempts[j].task.taskId
  }

  lemma IdsSnoc(attempts: seq<Attempt>, a: Attempt)
    ensures Ids(attempts + [a]) == Ids(attempts) + {a.task.taskId}
  {
    var all := attempts + [a];
    forall id | id in Ids(attempts) + {a.task.taskId} ensures id in Ids(all) {
      if id in Ids(attempts) {
        var i :| 0 <= i < |attempts| && attempts[i].task.taskId == id;
        assert all[i].task.taskId == id;
      } else {
        assert all[|attempts|].task.taskId == id;
      }
    }
  }

  lemma IdsHead(attempts: seq<Attempt>)
    requires attempts != []
    ensures Ids(attempts) == {attempts[0].task.taskId} + Ids(attempts[1..])
  {
    forall id | id in Ids(attempts) ensures id == attempts[0].task.taskId || id in Ids(attempts[1..]) {
      var i :| 0 <= i < |attempts| && attempts[i].task.taskId == id;
      if i > 0 { assert attempts[1..][i - 1].task.taskId == id; }
    }
    forall id | id in Ids(attempts[1..]) ensures id in Ids(attempts) {
      var i :| 0 <= i < |attempts[1..]| && attempts[1..][i].task.taskId == id;
      assert attempts[i + 1].task.taskId == id;
    }
    assert attempts[0].task.taskId in Ids(attempts);
  }

  lemma NotSeen(attempts: seq<Attempt>, i: nat)
    requires DistinctTasks(attempts) && i < |attempts|
    ensures attempts[i].task.taskId !in Ids(attempts[..i])
  {
  }

  lemma DistinctSnoc(attempts: seq<Attempt>, a: Attempt)
    requires DistinctTasks(attempts) && a.task.taskId !in Ids(attempts)
    ensures DistinctTasks(attempts + [a])
  {
  }

  // ---- metrics -------------------------------------------------------------

  /** The stage ids of the entries of normal runs (again = false) or of recomputations. */
  function Entries(metrics: seq<StageMetrics>, again: bool): seq<nat> {
    if metrics == [] then []
    else
      var n := |metrics| - 1;
      Entries(metrics[..n], again) + if metrics[n].recomputed == again then [metrics[n].stageId] else []
  }

  lemma EntriesSnoc(metrics: seq<StageMetrics>, m: StageMetrics, again: bool)
    ensures Entries(metrics + [m], again) == Entries(metrics, again) + if m.recomputed == again then [m.stageId] else []
  {
    assert (metrics + [m])[..|metrics|] == metrics;
  }

  /** From a to b every stage newly marked recomputed got its recomputation entry, and no
      other entry was added. */
  ghost predicate Reported(a: Snapshot, b: Snapshot) {
    && Entries(b.metrics, false) == Entries(a.metrics, false)
    && multiset(Entries(b.metrics, true)) == multiset(Entries(a.metrics, true)) + multiset(b.recomputed - a.recomputed)
  }

  lemma SetsAdd(x: set<nat>, y: set<nat>, z: set<nat>)
    requires x <= y <= z
    ensures multiset(z - x) == multiset(y - x) + multiset(z - y)
  {
    assert z - x == (y - x) + (z - y);
  }

  lemma ReportedTrans(a: Snapshot, b: Snapshot, c: Snapshot)
    requires a.recomputed <= b.recomputed <= c.recomputed && Reported(a, b) && Reported(b, c)
    ensures Reported(a, c)
  {
    SetsAdd(a.recomputed, b.recomputed, c.recomputed);
  }
}
