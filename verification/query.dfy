/**
 A query from end to end: optimize, push hints into scans, plan, cut into stages and run
 under faults (minispark/api/dataframe.py, `_collect_dataset`).
 */
module Query {
  import opened Options
  import opened Values
  import opened Expressions
  import opened ExpressionRules
  import opened Sequences
  import opened Sorting
  import opened GroupTables
  import opened Joins
  import opened RowOperators
  import opened Logical
  import opened PlanRules
  import opened Pruning
  import opened Optimizers
  import opened ExecutablePlans
  import opened ScanPushdown
  import opened Physical
  import opened Planner
  import opened Stages
  import opened SchedulerState
  import opened SchedulerAccounts
  import opened SchedulerSteps
  import opened SchedulerPlan
  import opened Scheduler
  import opened AggregateMeaning
  import opened RelationalMeaning
  import opened StringOrder

  datatype Config = Config(optimizer: OptimizerConfig, maxIterations: int, spillThreshold: int, maxRetries: int)

  // ---- what the rewrites keep besides the rows -----------------------------

  /** The scan leaves of a plan. */
  ghost function Scans(p: LogicalPlan): set<LogicalPlan> {
    match p
    case Scan(_, _, _, _) => {p}
    case Filter(c, _) => Scans(c)
    case Project(c, _) => Scans(c)
    case Aggregation(c, _, _) => Scans(c)
    case Join(l, r, _, _) => Scans(l) + Scans(r)
    case Sort(c, _) => Scans(c)
  }

  lemma {:induction false} HonestScans(read: Reader, p: LogicalPlan)
    ensures HonestSources(read, p) <==> forall s :: s in Scans(p) ==> HonestSources(read, s)
  {
    match p
    case Scan(_, _, _, _) =>
    case Filter(c, _) => HonestScans(read, c);
    case Project(c, _) => HonestScans(read, c);
    case Aggregation(c, _, _) => HonestScans(read, c);
    case Join(l, r, _, _) => HonestScans(read, l); HonestScans(read, r);
    case Sort(c, _) => HonestScans(read, c);
  }

  lemma MapKeepsScans(p: LogicalPlan, f: Expr -> Expr)
    ensures Scans(MapExpressions(p, f)) == Scans(p)
  {
  }

  lemma PushdownKeepsScans(rt: Runtime, p: LogicalPlan)
    ensures Scans(Pushdown(rt, p)) == Scans(p)
  {
  }

  lemma PruneKeepsScans(rt: Runtime, p: LogicalPlan, needed: Option<set<string>>)
    ensures Scans(Prune(rt, p, needed)) == Scans(p)
  {
  }

  lemma EliminateKeepsScans(rt: Runtime, p: LogicalPlan)
    ensures Scans(Eliminate(rt, p)) == Scans(p)
  {
  }

  /** What a rewrite leaves of the plan's shape: the scans, and a sort at the root. */
  ghost predicate SameShape(p: LogicalPlan, q: LogicalPlan) {
    && Scans(q) == Scans(p)
    && (p.Sort? ==> q.Sort? && q.keys == p.keys)
  }

  lemma ApplyKeepsShape(rt: Runtime, bools: set<string>, rule: Rule, p: LogicalPlan)
    requires Optimizable(rt, bools, p)
    ensures SameShape(p, Apply(rt, rule, p))
  {
    match rule
    case ConstantFolding =>
      MapKeepsScans(p, Fold);
      if p.Sort? { FoldIsGood(bools); MapSort(rt, bools, p, Fold); }
    case FilterSimplification =>
      MapKeepsScans(p, Simplify);
      if p.Sort? { SimplifyIsGood(bools); MapSort(rt, bools, p, Simplify); }
    case PredicatePushdown =>
      PushdownKeepsScans(rt, p);
    case ProjectionPruning =>
      PruneKeepsScans(rt, p, None);
    case RedundantProjectionElimination =>
      EliminateKeepsScans(rt, p);
  }

  lemma {:induction false} PassKeepsShape(rt: Runtime, bools: set<string>, rules: seq<Rule>, p: LogicalPlan)
    requires Optimizable(rt, bools, p)
    ensures SameShape(p, Pass(rt, rules, p))
  {
    if rules != [] {
      var before := Pass(rt, rules[..|rules| - 1], p);
      PassKeepsShape(rt, bools, rules[..|rules| - 1], p);
      PassRefines(rt, bools, rules[..|rules| - 1], p);
      ApplyKeepsShape(rt, bools, rules[|rules| - 1], before);
    }
  }

  lemma {:induction false} PassesKeepShape(rt: Runtime, bools: set<string>, rules: seq<Rule>, n: nat, p: LogicalPlan)
    requires Optimizable(rt, bools, p)
    ensures SameShape(p, Passes(rt, rules, n, p))
  {
    hide Optimizable, Rows, Names, AllNames, Pass, Scans, Straight;
    if n > 0 {
      PassKeepsShape(rt, bools, rules, p);
      PassRefines(rt, bools, rules, p);
      PassesKeepShape(rt, bools, rules, n - 1, Pass(rt, rules, p));
    }
  }

  // ---- the order of a sorted result ----------------------------------------

  /** No row comes before an earlier one. */
  ghost predicate Ordered(ks: seq<SortKey>, rows: seq<Record>) {
    forall i, j :: 0 <= i < j < |rows| ==> !Before(ks, rows[j], rows[i])
  }

  lemma StableSortOrdered(ks: seq<SortKey>, rows: seq<Record>)
    ensures Ordered(ks, StableSort(ks, rows))
  {
    StableSortMeaning(ks, rows);
    var out := StableSort(ks, rows);
    var s: seq<Tagged> :| Records(s) == out && multiset(s) == multiset(Tag(rows, 0)) && Sorted(ks, s);
    forall i, j | 0 <= i < j < |out| ensures !Before(ks, out[j], out[i]) {
      assert CompositeBefore(ks, s[i], s[j]);
      assert out[i] == s[i].rec && out[j] == s[j].rec;
      BeforeLaws(ks, s[i].rec, s[j].rec);
      BeforeLaws(ks, s[j].rec, s[i].rec);
    }
  }

  // ---- stages are sound ----------------------------------------------------

  lemma StagesAreSound(rt: Runtime, plan: PhysicalPlan)
    requires PlannerForm(plan)
    ensures var stages := BuildStages(plan);
            && Sound(stages) && LastPlain(stages, |stages|) == Some(|stages| - 1)
            && StageOutput(rt, stages, |stages| - 1) == Partitions(rt, plan)
  {
    BuildStagesMeaning(rt, plan);
  }

  // ---- the theorem ---------------------------------------------------------

  /** What the user gets, in terms of what was asked. */
  ghost predicate Answers(rt: Runtime, plan: LogicalPlan, partitions: seq<seq<Record>>) {
    && multiset(Flatten(partitions)) == multiset(Rows(rt, plan))
    && (plan.Sort? ==> Ordered(plan.keys, Flatten(partitions)))
    && (Straight(plan) ==> Flatten(partitions) == Rows(rt, plan))
  }

  lemma PlannedAnswers(rt: Runtime, plan: LogicalPlan, planned: LogicalPlan, spillThreshold: int)
    requires rt.shufflePartitions >= 1 && EmitsGroups(rt) && Executable(rt, planned)
    requires Rows(rt, planned) == Rows(rt, plan)
    requires Straight(plan) ==> Straight(planned)
    requires plan.Sort? ==> planned.Sort? && planned.keys == plan.keys
    ensures PlannerForm(Translate(rt, planned, spillThreshold))
    ensures Answers(rt, plan, Partitions(rt, Translate(rt, planned, spillThreshold)))
  {
    TranslateMeaning(rt, planned, spillThreshold);
    if Straight(plan) { StraightExact(rt, planned, spillThreshold); }
    if plan.Sort? {
      SortedQuery(rt, planned.child, planned.keys, spillThreshold);
      StableSortOrdered(planned.keys, PlanRows(rt, Translate(rt, planned.child, spillThreshold)));
    }
  }

  lemma RewrittenIsExecutable(rt: Runtime, bools: set<string>, read: Reader, plan: LogicalPlan, rules: seq<Rule>, passes: nat)
    requires Optimizable(rt, bools, plan) && Executable(rt, plan) && HonestSources(read, plan)
    ensures var q := PushdownScanReads(read, Passes(rt, rules, passes, plan));
            && Executable(rt, q) && Rows(rt, q) == Rows(rt, plan)
            && (Straight(plan) ==> Straight(q))
            && (plan.Sort? ==> q.Sort? && q.keys == plan.keys)
  {
    var optimized := Passes(rt, rules, passes, plan);
    PassesRefine(rt, bools, rules, passes, plan);
    PassesCarry(rt, bools, rules, passes, plan);
    PassesKeepShape(rt, bools, rules, passes, plan);
    HonestScans(read, plan);
    HonestScans(read, optimized);
    WalkExact(rt, read, optimized);
    WalkCarries(rt, read, optimized, None, None);
  }

  /** The physical plan of a rewritten query. */
  function PlanQuery(rt: Runtime, read: Reader, optimized: LogicalPlan, spillThreshold: int): PhysicalPlan {
    Translate(rt, PushdownScanReads(read, optimized), spillThreshold)
  }

  /** The stages built for a query are sound, and their fault-free run answers it. */
  lemma StagesAnswer(rt: Runtime, bools: set<string>, read: Reader, plan: LogicalPlan, rules: seq<Rule>, passes: nat,
                     spillThreshold: int)
    requires Optimizable(rt, bools, plan) && Executable(rt, plan) && HonestSources(read, plan)
    requires rt.shufflePartitions >= 1 && EmitsGroups(rt)
    ensures var physical := PlanQuery(rt, read, Passes(rt, rules, passes, plan), spillThreshold);
            && PlannerForm(physical)
            && var stages := BuildStages(physical);
               && Sound(stages) && LastPlain(stages, |stages|) == Some(|stages| - 1)
               && Answers(rt, plan, StageOutput(rt, stages, |stages| - 1))
  {
    hide Answers, Optimizable, Executable, HonestSources, EmitsGroups, Translate, PlannerForm, Sound, Rows, Straight;
    hide BuildStages, Partitions, StageOutput, LastPlain, PushdownScanReads, Passes;
    RewrittenIsExecutable(rt, bools, read, plan, rules, passes);
    var pushed := PushdownScanReads(read, Passes(rt, rules, passes, plan));
    PlannedAnswers(rt, plan, pushed, spillThreshold);
    StagesAreSound(rt, Translate(rt, pushed, spillThreshold));
  }

  /** What order_by returns: going by the first key in which two rows differ, numbers rise and
      strings go through the dictionary, or fall and go back, and nulls come last. */
  lemma SortedAnswer(rt: Runtime, plan: LogicalPlan, partitions: seq<seq<Record>>, i: nat, j: nat)
    requires Answers(rt, plan, partitions) && plan.Sort? && PlainKeys(plan.keys, Flatten(partitions))
    requires i < j < |Flatten(partitions)|
    ensures MayPrecede(plan.keys, Flatten(partitions)[i], Flatten(partitions)[j])
  {
    hide Rows, PlainKeys, MayPrecede, Before;
    NotBeforeIs(plan.keys, Flatten(partitions), Flatten(partitions)[i], Flatten(partitions)[j]);
  }

  /** What group_by returns: every row is that of one key of the input, and says of the rows
      with that key what each aggregate asks. */
  lemma GroupedAnswer(rt: Runtime, plan: LogicalPlan, partitions: seq<seq<Record>>, out: Record) returns (k: Key)
    requires Answers(rt, plan, partitions) && plan.Aggregation? && Analyzed(rt, plan) && out in Flatten(partitions)
    ensures GroupRowMeans(rt, plan.groupBy, plan.aggregates, Rows(rt, plan.child), k, out)
  {
    hide GroupRowMeans, Straight, GroupRows, NoDuplicates;
    var rows := Rows(rt, plan.child);
    var keys := GroupRowsMean(rt, plan.groupBy, plan.aggregates, rows);
    SameMembers(Flatten(partitions), Rows(rt, plan), out);
    var j: nat :| j < |Rows(rt, plan)| && Rows(rt, plan)[j] == out;
    k := keys[j];
  }

  /** What join returns, in some order: one row for each pair of a left and a right row that
      agree on the join columns, with the columns of both. */
  lemma JoinedAnswer(rt: Runtime, bools: set<string>, plan: LogicalPlan, partitions: seq<seq<Record>>)
    returns (joined: seq<Record>, pairs: seq<Pair>)
    requires Answers(rt, plan, partitions) && plan.Join? && Optimizable(rt, bools, plan)
    ensures multiset(Flatten(partitions)) == multiset(joined)
    ensures JoinedBy(JoinOn(plan.on), Rows(rt, plan.left), Rows(rt, plan.right), joined, pairs)
    ensures var left, right := Rows(rt, plan.left), Rows(rt, plan.right);
            forall p :: p in pairs <==> p.left < |left| && p.right < |right| && AgreeOn(plan.on, left[p.left], right[p.right])
  {
    hide JoinedBy, JoinRows, Optimizable, Straight, AgreeOn, Matches, HaveAll;
    var left, right := Rows(rt, plan.left), Rows(rt, plan.right);
    joined := Rows(rt, plan);
    pairs := JoinMeans(JoinOn(plan.on), left, right);
    JoinFacts(rt, bools, plan);
    SidesHaveKeys(rt, bools, plan.left, plan.on);
    SidesHaveKeys(rt, bools, plan.right, plan.on);
    forall p ensures p in pairs <==> p.left < |left| && p.right < |right| && AgreeOn(plan.on, left[p.left], right[p.right]) {
      MatchesIs(plan.on, left, right, p);
      PairsMatch(JoinOn(plan.on), left, right, joined, pairs, p);
    }
  }

  lemma SidesHaveKeys(rt: Runtime, bools: set<string>, side: LogicalPlan, on: seq<string>)
    requires Optimizable(rt, bools, side) && NameSet(on) <= Columns(rt, side)
    ensures HaveAll(on, Rows(rt, side))
  {
    hide Optimizable, Rows, Columns;
    forall r, c | r in Rows(rt, side) && c in on ensures c in r { RowsOk(rt, bools, side, r); }
  }

  lemma PairsMatch(j: JoinSpec, left: seq<Record>, right: seq<Record>, out: seq<Record>, pairs: seq<Pair>, p: Pair)
    requires JoinedBy(j, left, right, out, pairs)
    ensures p in pairs <==> Matches(j, left, right, p)
  {
  }

  /** A query as it runs: whatever fails, is lost or is corrupted, the run keeps its
      invariant, ends within its executions, and fails only for an excuse. */
  method RunQuery(rt: Runtime, ghost bools: set<string>, plan: LogicalPlan, config: Config, explain: LogicalPlan -> string,
                 read: Reader, faults: Faults)
    returns (result: PlanResult, run: Run)
    requires Optimizable(rt, bools, plan) && Executable(rt, plan) && HonestSources(read, plan)
    requires rt.shufflePartitions >= 1 && EmitsGroups(rt)
    ensures result.Finished? ==> Answers(rt, plan, result.partitions)
    ensures result.Aborted? ==> Excused(Tries(config.maxRetries), run.Now())
    ensures Fine(rt, run.stages, faults, run.Now()) && Bounded(run.stages, config.maxRetries, run.Now())
    ensures result.Finished? ==> Counted(|run.stages|, run.Now())
    ensures Tolerable(faults, config.maxRetries) ==> result.Finished?
  {
    hide Answers, Optimizable, Executable, HonestSources, EmitsGroups, Sound, PlanQuery, Bounded, Excused, Fine, PlannerForm;
    hide Refines, Passes, StageOutput, Counted;
    var optimizer := new Optimizer(DefaultRules(config.optimizer), config.maxIterations);
    ghost var passes;
    var optimized;
    optimized, passes := optimizer.Optimize(rt, plan, explain);
    StagesAnswer(rt, bools, read, plan, optimizer.rules, passes, config.spillThreshold);
    var stages := BuildStagesInPlace(PlanQuery(rt, read, optimized, config.spillThreshold));
    var scheduler := new LocalScheduler(config.maxRetries);
    result, run := scheduler.RunPlan(rt, stages, faults);
  }

  /** One normal entry for each of n stages, in order, and at most one recomputation entry
      for any. */
  ghost predicate Metered(metrics: seq<StageMetrics>, n: nat) {
    && Entries(metrics, false) == Below(n)
    && forall k :: multiset(Entries(metrics, true))[k] <= 1
  }

  /** collect(): whatever fails, is lost or is corrupted while the query runs, if it returns
      then it returns the plan's rows, in sorted order if the plan asks for one, and in
      exactly the plan's order if it has no Join and no Aggregation.  It does return when no
      more executions fail on their own, or find a stage lost that another finds lost too,
      than one task has retries. */
  method Collect(rt: Runtime, ghost bools: set<string>, plan: LogicalPlan, config: Config, explain: LogicalPlan -> string,
                 read: Reader, faults: Faults)
    returns (result: PlanResult, metrics: seq<StageMetrics>)
    requires Optimizable(rt, bools, plan) && Executable(rt, plan) && HonestSources(read, plan)
    requires rt.shufflePartitions >= 1 && EmitsGroups(rt)
    ensures result.Finished? ==> Answers(rt, plan, result.partitions)
    ensures result.Finished? ==> exists n :: Metered(metrics, n)
    ensures Tolerable(faults, config.maxRetries) ==> result.Finished?
  {
    hide Answers, Optimizable, Executable, HonestSources, EmitsGroups, Fine, Excused;
    var run;
    result, run := RunQuery(rt, bools, plan, config, explain, read, faults);
    metrics := run.metrics;
    if result.Finished? {
      assert Metered(metrics, |run.stages|);
    }
  }
}
