/**
 Logical plans and their reference meaning: the sequence of rows a plan denotes
 (minispark/logical/nodes.py, minispark/logical/analyzer.py).
 */
module Logical {
  import opened Options
  import opened Values
  import opened Expressions
  import opened ExpressionRules
  import opened Sequences
  import opened Sorting
  import opened AggregateFunctions
  import opened GroupTables
  import opened Joins
  import opened RowOperators

  datatype DataType = IntType | FloatType | StringType | BoolType | NullType

  /** A scan's `source`, when it has one, names what can re-read it with hints.  The
      join type is always inner, so it is not recorded. */
  datatype LogicalPlan =
    | Scan(partitions: seq<seq<Record>>, names: seq<string>, types: map<string, DataType>, source: Option<nat>)
    | Filter(child: LogicalPlan, condition: Expr)
    | Project(child: LogicalPlan, columns: seq<Expr>)
    | Aggregation(child: LogicalPlan, groupBy: seq<Expr>, aggregates: seq<Expr>)
    | Join(left: LogicalPlan, right: LogicalPlan, on: seq<string>, broadcast: bool)
    | Sort(child: LogicalPlan, keys: seq<SortKey>)

  function NameSet(names: seq<string>): (s: set<string>)
    ensures forall c :: c in s <==> c in names
  {
    set c | c in names
  }

  /** The names not among `on`, in order. */
  function Without(names: seq<string>, on: seq<string>): (rest: seq<string>)
    ensures forall c :: c in rest <==> c in names && c !in on
  {
    if names == [] then []
    else (if names[0] in on then [] else [names[0]]) + Without(names[1..], on)
  }

  /** schema.field_names(). */
  function Names(rt: Runtime, p: LogicalPlan): seq<string> {
    match p
    case Scan(_, names, _, _) => names
    case Filter(c, _) => Names(rt, c)
    case Project(_, cols) => OutputNames(rt, cols)
    case Aggregation(_, g, a) => OutputNames(rt, g) + OutputNames(rt, a)
    case Join(l, r, on, _) => Names(rt, l) + Without(Names(rt, r), on)
    case Sort(c, _) => Names(rt, c)
  }

  function Columns(rt: Runtime, p: LogicalPlan): set<string> {
    NameSet(Names(rt, p))
  }

  /** Every column name that occurs in the plan or anywhere below it. */
  function AllNames(rt: Runtime, p: LogicalPlan): set<string> {
    match p
    case Scan(_, names, _, _) => NameSet(names)
    case Filter(c, _) => AllNames(rt, c)
    case Project(c, cols) => NameSet(OutputNames(rt, cols)) + AllNames(rt, c)
    case Aggregation(c, g, a) => NameSet(OutputNames(rt, g) + OutputNames(rt, a)) + AllNames(rt, c)
    case Join(l, r, _, _) => AllNames(rt, l) + AllNames(rt, r)
    case Sort(c, _) => AllNames(rt, c)
  }

  function ColumnsOf(names: seq<string>): (es: seq<Expr>)
    ensures |es| == |names|
    ensures forall i :: 0 <= i < |names| ==> es[i] == Column(names[i])
  {
    seq(|names|, i requires 0 <= i < |names| => Column(names[i]))
  }

  /** The equi-join on same-named columns. */
  function JoinOn(on: seq<string>): JoinSpec {
    JoinSpec(ColumnsOf(on), ColumnsOf(on), on)
  }

  /** The rows a plan denotes, in reference order. */
  function Rows(rt: Runtime, p: LogicalPlan): seq<Record> {
    match p
    case Scan(ps, _, _, _) => Flatten(ps)
    case Filter(c, cond) => FilterRows(cond, Rows(rt, c))
    case Project(c, cols) => ProjectRows(cols, OutputNames(rt, cols), Rows(rt, c))
    case Aggregation(c, g, a) => GroupRows(rt, g, a, Rows(rt, c))
    case Join(l, r, on, _) => JoinRows(JoinOn(on), Rows(rt, l), Rows(rt, r))
    case Sort(c, ks) => StableSort(ks, Rows(rt, c))
  }

  // ---- analysis ------------------------------------------------------------

  /** What analyze() accepts, with scan records holding exactly the schema's keys. */
  ghost predicate Analyzed(rt: Runtime, p: LogicalPlan) {
    match p
    case Scan(ps, names, _, _) =>
      NoDuplicates(names) && forall r :: r in Flatten(ps) ==> r.Keys == NameSet(names)
    case Filter(c, cond) => Analyzed(rt, c) && ReferencedColumns(cond) <= Columns(rt, c)
    case Project(c, cols) =>
      Analyzed(rt, c) && ReferencedByAll(cols) <= Columns(rt, c) && NoDuplicates(OutputNames(rt, cols))
    case Aggregation(c, g, a) =>
      && Analyzed(rt, c) && ReferencedByAll(g) + ReferencedByAll(a) <= Columns(rt, c)
      && (forall i :: 0 <= i < |g| ==> g[i].Column?)
      && AreAggregates(Functions(Partial(g, a)))
      && NoDuplicates(OutputNames(rt, g) + OutputNames(rt, a))
    case Join(l, r, on, _) =>
      && Analyzed(rt, l) && Analyzed(rt, r) && on != []
      && NameSet(on) <= Columns(rt, l) && NameSet(on) <= Columns(rt, r)
      && Columns(rt, l) * Columns(rt, r) <= NameSet(on)
    case Sort(c, ks) =>
      Analyzed(rt, c) && ks != [] && KeyColumns(ks) <= Columns(rt, c) && forall i :: 0 <= i < |ks| ==> ks[i].expr.Column?
  }

  // ---- types, as far as planning looks at them -----------------------------

  predicate IsNumeric(t: DataType) {
    t.IntType? || t.FloatType?
  }

  function NumericNames(names: seq<string>, types: map<string, DataType>): set<string> {
    set c | c in names && c in types && IsNumeric(types[c])
  }

  /** A column reference keeps its type, under an alias or not; a computed column is
      typed as a string. */
  predicate NumericColumn(e: Expr, numeric: set<string>) {
    UnwrapAlias(e).Column? && UnwrapAlias(e).name in numeric
  }

  predicate NumericAggregate(e: Expr, numeric: set<string>) {
    match UnwrapAlias(e)
    case CountStar => true
    case Aggregate(Count, _) => true
    case Aggregate(Avg, _) => true
    case Aggregate(_, c) => c.Column? && c.name in numeric
    case _ => false
  }

  function NumericOutputs(rt: Runtime, es: seq<Expr>, numeric: set<string>): set<string> {
    if es == [] then {}
    else (if NumericColumn(es[0], numeric) then {OutputName(rt, es[0])} else {}) + NumericOutputs(rt, es[1..], numeric)
  }

  function NumericAggregates(rt: Runtime, es: seq<Expr>, numeric: set<string>): set<string> {
    if es == [] then {}
    else (if NumericAggregate(es[0], numeric) then {OutputName(rt, es[0])} else {}) + NumericAggregates(rt, es[1..], numeric)
  }

  lemma {:induction false} NumericOutputsGrow(rt: Runtime, es: seq<Expr>, some: set<string>, all: set<string>)
    requires some <= all
    ensures NumericOutputs(rt, es, some) <= NumericOutputs(rt, es, all)
    ensures NumericAggregates(rt, es, some) <= NumericAggregates(rt, es, all)
  {
    if es != [] { NumericOutputsGrow(rt, es[1..], some, all); }
  }

  lemma {:induction false} NumericOutputsAvoid(rt: Runtime, es: seq<Expr>, numeric: set<string>, bools: set<string>)
    requires bools !! numeric
    requires forall i :: 0 <= i < |es| && OutputName(rt, es[i]) in bools ==> Boolean(bools, es[i])
    ensures bools !! NumericOutputs(rt, es, numeric)
  {
    if es != [] {
      NumericOutputsAvoid(rt, es[1..], numeric, bools);
      assert OutputName(rt, es[0]) in bools ==> Boolean(bools, es[0]) && Boolean(bools, UnwrapAlias(es[0]));
    }
  }

  lemma {:induction false} NumericAggregatesAvoid(rt: Runtime, es: seq<Expr>, numeric: set<string>, bools: set<string>)
    requires forall i :: 0 <= i < |es| ==> OutputName(rt, es[i]) !in bools
    ensures bools !! NumericAggregates(rt, es, numeric)
  {
    if es != [] { NumericAggregatesAvoid(rt, es[1..], numeric, bools); }
  }

  /** The columns the schema types as int or float. */
  function NumericColumns(rt: Runtime, p: LogicalPlan): set<string> {
    match p
    case Scan(_, names, types, _) => NumericNames(names, types)
    case Filter(c, _) => NumericColumns(rt, c)
    case Project(c, cols) => NumericOutputs(rt, cols, NumericColumns(rt, c))
    case Aggregation(c, g, a) =>
      NumericOutputs(rt, g, NumericColumns(rt, c)) + NumericAggregates(rt, a, NumericColumns(rt, c))
    case Join(l, r, on, _) => NumericColumns(rt, l) + (NumericColumns(rt, r) - NameSet(on))
    case Sort(c, _) => NumericColumns(rt, c)
  }

  // ---- what distributed execution relies on --------------------------------

  /** Only scans, filters and projections: what can be run while planning. */
  predicate RowByRow(p: LogicalPlan) {
    match p
    case Scan(_, _, _, _) => true
    case Filter(c, _) => RowByRow(c)
    case Project(c, _) => RowByRow(c)
    case _ => false
  }

  /** Does sorting c split its primary key's range over several partitions? */
  predicate SplitsRange(rt: Runtime, c: LogicalPlan, ks: seq<SortKey>) {
    && rt.shufflePartitions > 1 && RowByRow(c)
    && ks != [] && ks[0].expr.Column? && ks[0].expr.name in NumericColumns(rt, c)
  }

  /** Where the range may be split, the primary key is a number in every row, or null in
      every row: cutting a range and finding a key's place in it have no null case.
      Otherwise nulls are allowed. */
  ghost predicate KeysSplit(rt: Runtime, c: LogicalPlan, ks: seq<SortKey>) {
    SplitsRange(rt, c, ks) ==>
      || (forall r :: r in Rows(rt, c) ==> Eval(ks[0].expr, r).Num?)
      || (forall r :: r in Rows(rt, c) ==> Eval(ks[0].expr, r).Null?)
  }

  /** No Join and no Aggregation: such a plan's rows are computed in the plan's own order. */
  predicate Straight(p: LogicalPlan) {
    match p
    case Scan(_, _, _, _) => true
    case Filter(c, _) => Straight(c)
    case Project(c, _) => Straight(c)
    case Sort(c, _) => Straight(c)
    case _ => false
  }

  /** What a grouping of c computes is settled: its rows may be merged in any order (all but
      sums over strings may), or they are merged in the plan's order. */
  ghost predicate Settled(rt: Runtime, c: LogicalPlan, g: seq<Expr>, a: seq<Expr>) {
    Commuting(Partial(g, a), Rows(rt, c)) || (Unspilled(rt) && Straight(c))
  }

  /** Groupings are settled, no group column has the name of an internal state column, and
      sort keys can be split where they have to be. */
  ghost predicate Executable(rt: Runtime, p: LogicalPlan) {
    match p
    case Scan(_, _, _, _) => true
    case Filter(c, _) => Executable(rt, c)
    case Project(c, _) => Executable(rt, c)
    case Aggregation(c, g, a) => Executable(rt, c) && Groupable(g, a) && Settled(rt, c, g, a)
    case Join(l, r, _, _) => Executable(rt, l) && Executable(rt, r)
    case Sort(c, ks) => Executable(rt, c) && ks != [] && KeysSplit(rt, c, ks)
  }

  // ---- the optimizer's hypotheses ------------------------------------------

  /** Computed Project columns carry an alias, and no alias reuses a column name that
      occurs anywhere below its Project. */
  ghost predicate FreshAliases(rt: Runtime, p: LogicalPlan) {
    match p
    case Scan(_, _, _, _) => true
    case Filter(c, _) => FreshAliases(rt, c)
    case Project(c, cols) =>
      && FreshAliases(rt, c)
      && forall i :: 0 <= i < |cols| ==> cols[i].Column? || (cols[i].Alias? && cols[i].name !in AllNames(rt, c))
    case Aggregation(c, _, _) => FreshAliases(rt, c)
    case Join(l, r, _, _) => FreshAliases(rt, l) && FreshAliases(rt, r)
    case Sort(c, _) => FreshAliases(rt, c)
  }

  /** The columns named in `bools` hold booleans wherever they occur and are never typed
      as numbers, and every And, Or and Not is in a boolean position of a filter or has
      boolean operands. */
  ghost predicate BooleansOk(rt: Runtime, bools: set<string>, p: LogicalPlan) {
    match p
    case Scan(ps, names, types, _) =>
      && (forall r :: r in Flatten(ps) ==> HoldsBooleans(bools, NameSet(names), r))
      && bools !! NumericNames(names, types)
    case Filter(c, cond) => BooleansOk(rt, bools, c) && Condition(bools, cond)
    case Project(c, cols) =>
      && BooleansOk(rt, bools, c)
      && forall i :: 0 <= i < |cols| ==>
           BooleanOperands(bools, cols[i]) && (OutputName(rt, cols[i]) in bools ==> Boolean(bools, cols[i]))
    case Aggregation(c, _, a) =>
      BooleansOk(rt, bools, c) && forall i :: 0 <= i < |a| ==> OutputName(rt, a[i]) !in bools
    case Join(l, r, _, _) => BooleansOk(rt, bools, l) && BooleansOk(rt, bools, r)
    case Sort(c, _) => BooleansOk(rt, bools, c)
  }

  /** Everything the optimizer's rules rely on. */
  ghost predicate Optimizable(rt: Runtime, bools: set<string>, p: LogicalPlan) {
    Analyzed(rt, p) && FreshAliases(rt, p) && BooleansOk(rt, bools, p)
  }

  /** A column that holds booleans is not typed as a number. */
  lemma {:induction false} BooleansNotNumeric(rt: Runtime, bools: set<string>, p: LogicalPlan)
    requires Optimizable(rt, bools, p)
    ensures bools !! NumericColumns(rt, p)
  {
    match p
    case Filter(c, _) => BooleansNotNumeric(rt, bools, c);
    case Project(c, cols) =>
      BooleansNotNumeric(rt, bools, c);
      NumericOutputsAvoid(rt, cols, NumericColumns(rt, c), bools);
    case Aggregation(c, g, a) =>
      BooleansNotNumeric(rt, bools, c);
      NumericOutputsAvoid(rt, g, NumericColumns(rt, c), bools);
      NumericAggregatesAvoid(rt, a, NumericColumns(rt, c), bools);
    case Join(l, r, _, _) => BooleansNotNumeric(rt, bools, l); BooleansNotNumeric(rt, bools, r);
    case Sort(c, _) => BooleansNotNumeric(rt, bools, c);
    case _ =>
  }

  lemma JoinColumns(rt: Runtime, p: LogicalPlan)
    requires p.Join?
    ensures Columns(rt, p) == Columns(rt, p.left) + (Columns(rt, p.right) - NameSet(p.on))
  {
    var a, b := Names(rt, p.left), Without(Names(rt, p.right), p.on);
    assert forall c :: c in a + b <==> c in a || c in b;
  }

  // ---- what rows look like -------------------------------------------------

  lemma {:induction false} NamesAreIn(rt: Runtime, p: LogicalPlan)
    ensures Columns(rt, p) <= AllNames(rt, p)
  {
    match p
    case Filter(c, _) => NamesAreIn(rt, c);
    case Join(l, r, _, _) => JoinColumns(rt, p); NamesAreIn(rt, l); NamesAreIn(rt, r);
    case Sort(c, _) => NamesAreIn(rt, c);
    case _ =>
  }

  /** Every key of a group table is some row's key. */
  lemma {:induction false} KeyComesFromRow(h: HashAgg, rows: seq<Record>, k: Key)
    requires k in TableOf(h, rows)
    ensures exists r :: r in rows && KeyOf(h, r) == k
  {
    var front, x := rows[..|rows| - 1], rows[|rows| - 1];
    assert rows == front + [x];
    TableSnoc(h, front, x);
    if k in TableOf(h, front) {
      KeyComesFromRow(h, front, k);
      var r :| r in front && KeyOf(h, r) == k;
      assert r in rows;
    } else {
      assert x in rows && KeyOf(h, x) == k;
    }
  }

  /** The shape of a row of a plan: exactly the plan's columns, booleans where
      promised. */
  ghost predicate RowOk(rt: Runtime, bools: set<string>, p: LogicalPlan, r: Record) {
    r.Keys == Columns(rt, p) && HoldsBooleans(bools, Columns(rt, p), r)
  }

  /** A row built from booleans where they are promised. */
  lemma RowFromOk(bools: set<string>, names: seq<string>, vs: seq<Value>)
    requires |names| == |vs| && NoDuplicates(names)
    requires forall i :: 0 <= i < |names| && names[i] in bools ==> vs[i].Bool?
    ensures RowFrom(names, vs).Keys == NameSet(names)
    ensures HoldsBooleans(bools, NameSet(names), RowFrom(names, vs))
  {
    forall c | c in bools && c in names ensures RowFrom(names, vs)[c].Bool? {
      var i :| 0 <= i < |names| && names[i] == c;
      RowFromAt(names, vs, i);
    }
  }

  lemma ProjectRowOk(rt: Runtime, bools: set<string>, p: LogicalPlan, x: Record)
    requires p.Project? && Optimizable(rt, bools, p) && RowOk(rt, bools, p.child, x)
    ensures RowOk(rt, bools, p, ProjectRow(p.columns, OutputNames(rt, p.columns), x))
  {
    var names, vs := OutputNames(rt, p.columns), EvalAll(p.columns, x);
    forall i | 0 <= i < |names| && names[i] in bools ensures vs[i].Bool? {
      assert ReferencedColumns(p.columns[i]) <= ReferencedByAll(p.columns);
      BooleanEval(bools, p.columns[i], x);
    }
    RowFromOk(bools, names, vs);
  }

  /** A group row's boolean column is a group column: aggregates are no booleans. */
  lemma GroupColumn(rt: Runtime, bools: set<string>, p: LogicalPlan, x: Record, i: nat)
    requires p.Aggregation? && Optimizable(rt, bools, p) && i < |p.groupBy| + |p.aggregates|
    requires (OutputNames(rt, p.groupBy) + OutputNames(rt, p.aggregates))[i] in bools
    requires RowOk(rt, bools, p.child, x)
    ensures i < |p.groupBy| && Eval(p.groupBy[i], x).Bool?
  {
    assert forall j :: 0 <= j < |p.aggregates| ==> OutputName(rt, p.aggregates[j]) !in bools;
    assert p.groupBy[i].Column?;
    assert ReferencedColumns(p.groupBy[i]) <= ReferencedByAll(p.groupBy);
  }

  lemma GroupRowOk(rt: Runtime, bools: set<string>, p: LogicalPlan, x: Record, s: State)
    requires p.Aggregation? && Optimizable(rt, bools, p) && RowOk(rt, bools, p.child, x) && |s| == |p.aggregates|
    ensures RowOk(rt, bools, p, OutputRow(rt, Final(p.groupBy, p.aggregates), EvalAll(p.groupBy, x), s))
  {
    var f, k := Final(p.groupBy, p.aggregates), EvalAll(p.groupBy, x);
    var names, vs := OutputNames(rt, p.groupBy) + OutputNames(rt, p.aggregates), k + FinalizeAll(Functions(f), s);
    assert names == OutputColumns(rt, f);
    forall i | 0 <= i < |names| && names[i] in bools ensures vs[i].Bool? {
      GroupColumn(rt, bools, p, x, i);
      assert vs[i] == k[i];
    }
    RowFromOk(bools, names, vs);
  }

  lemma {:induction false} JoinMembers(j: JoinSpec, left: seq<Record>, right: seq<Record>, y: Record)
    requires y in JoinRows(j, left, right)
    ensures exists l, r :: l in left && r in right && Meet(j, l, r) && y == Merged(j, l, r)
  {
    var front, x := right[..|right| - 1], right[|right| - 1];
    assert right == front + [x];
    if y in JoinRows(j, left, front) {
      JoinMembers(j, left, front, y);
      var l, r :| l in left && r in front && Meet(j, l, r) && y == Merged(j, l, r);
      assert r in right;
    } else {
      var k := EvalAll(j.rightKeys, x);
      var i :| 0 <= i < |Pairs(j, left, x)| && Pairs(j, left, x)[i] == y;
      var l := LeftMatches(j, k, left)[i];
      MatchesAre(j, k, left, l);
      assert l in left && x in right && Meet(j, l, x) && y == Merged(j, l, x);
    }
  }

  lemma JoinRowOk(rt: Runtime, bools: set<string>, p: LogicalPlan, l: Record, r: Record)
    requires p.Join? && RowOk(rt, bools, p.left, l) && RowOk(rt, bools, p.right, r)
    ensures RowOk(rt, bools, p, Merged(JoinOn(p.on), l, r))
  {
    JoinColumns(rt, p);
    assert Merged(JoinOn(p.on), l, r).Keys == l.Keys + (r.Keys - NameSet(p.on));
  }

  lemma AggregationRowsOk(rt: Runtime, bools: set<string>, p: LogicalPlan, r: Record)
    requires p.Aggregation? && Optimizable(rt, bools, p) && r in Rows(rt, p)
    requires forall x :: x in Rows(rt, p.child) ==> RowOk(rt, bools, p.child, x)
    ensures RowOk(rt, bools, p, r)
  {
    var h, rows := Partial(p.groupBy, p.aggregates), Rows(rt, p.child);
    var order := KeysInOrder(h, rows);
    var i :| 0 <= i < |order| && Rows(rt, p)[i] == r;
    assert order[i] in order;
    KeyComesFromRow(h, rows, order[i]);
    var x :| x in rows && KeyOf(h, x) == order[i];
    GroupRowOk(rt, bools, p, x, TableOf(h, rows)[order[i]]);
  }

  lemma JoinRowsOk(rt: Runtime, bools: set<string>, p: LogicalPlan, r: Record)
    requires p.Join? && r in Rows(rt, p)
    requires forall x :: x in Rows(rt, p.left) ==> RowOk(rt, bools, p.left, x)
    requires forall x :: x in Rows(rt, p.right) ==> RowOk(rt, bools, p.right, x)
    ensures RowOk(rt, bools, p, r)
  {
    hide RowOk, Merged, Meet, JoinRows, JoinOn;
    var j, left, right := JoinOn(p.on), Rows(rt, p.left), Rows(rt, p.right);
    JoinMembers(j, left, right, r);
    var x, y :| x in left && y in right && Meet(j, x, y) && r == Merged(j, x, y);
    JoinRowOk(rt, bools, p, x, y);
  }

  lemma {:induction false} RowsOk(rt: Runtime, bools: set<string>, p: LogicalPlan, r: Record)
    requires Optimizable(rt, bools, p) && r in Rows(rt, p)
    ensures RowOk(rt, bools, p, r)
  {
    match p
    case Scan(_, _, _, _) =>
    case Filter(c, cond) =>
      FilterMembers(cond, Rows(rt, c), r);
      RowsOk(rt, bools, c, r);
    case Project(c, cols) =>
      var i :| 0 <= i < |Rows(rt, p)| && Rows(rt, p)[i] == r;
      RowsOk(rt, bools, c, Rows(rt, c)[i]);
      ProjectRowOk(rt, bools, p, Rows(rt, c)[i]);
    case Aggregation(c, g, a) =>
      forall x | x in Rows(rt, c) ensures RowOk(rt, bools, c, x) { RowsOk(rt, bools, c, x); }
      AggregationRowsOk(rt, bools, p, r);
    case Join(a, b, on, _) =>
      forall x | x in Rows(rt, a) ensures RowOk(rt, bools, a, x) { RowsOk(rt, bools, a, x); }
      forall x | x in Rows(rt, b) ensures RowOk(rt, bools, b, x) { RowsOk(rt, bools, b, x); }
      JoinRowsOk(rt, bools, p, r);
    case Sort(c, ks) =>
      StableSortPermutes(ks, Rows(rt, c));
      SameMembers(Rows(rt, p), Rows(rt, c), r);
      RowsOk(rt, bools, c, r);
  }
}
