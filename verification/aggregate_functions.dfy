/**
 The four steps of each aggregate: initialize, update, merge, finalize
 (minispark/expressions/aggregate.py).
 */
module AggregateFunctions {
  import opened Values
  import opened Expressions

  type State = seq<Value>

  /** Python's a + b, as a step of an aggregate: what raises leaves Raised behind. */
  function AddOrRaise(a: Value, b: Value): Value {
    if OpRaises(Add, a, b) then Raised else ApplyOp(Add, a, b)
  }

  function Initialize(agg: Expr): Value {
    match agg
    case CountStar => Num(0.0)
    case Aggregate(Count, _) => Num(0.0)
    case Aggregate(Avg, _) => SumCount(0.0, 0)
    case _ => Null
  }

  /** Folds one raw row into the state. */
  function Update(agg: Expr, s: Value, r: Record): Value {
    match agg
    case CountStar => AddOrRaise(s, Num(1.0))
    case Aggregate(kind, child) =>
      var v := Eval(child, r);
      if v.Null? then s
      else (match kind
            case Count => AddOrRaise(s, Num(1.0))
            case Sum => if s.Null? then v else AddOrRaise(s, v)
            case Avg => if s.SumCount? && v.Num? then SumCount(s.total + v.n, s.count + 1) else Raised
            case Min => if s.Null? || ValueLt(v, s) then v else s
            case Max => if s.Null? || ValueLt(s, v) then v else s)
    case _ => Null
  }

  function Merge(agg: Expr, a: Value, b: Value): Value {
    match agg
    case CountStar => AddOrRaise(a, b)
    case Aggregate(Count, _) => AddOrRaise(a, b)
    case Aggregate(Avg, _) =>
      if a.SumCount? && b.SumCount? then SumCount(a.total + b.total, a.count + b.count) else Raised
    case Aggregate(kind, _) =>
      if a.Null? then b
      else if b.Null? then a
      else if kind == Sum then AddOrRaise(a, b)
      else if kind == Min then Lesser(a, b)
      else Greater(a, b)
    case _ => Null
  }

  function Finalize(agg: Expr, s: Value): Value {
    if agg.Aggregate? && agg.kind == Avg then
      if !s.SumCount? then Raised
      else if s.count != 0 then Num(s.total / (s.count as real))
      else Null
    else s
  }

  /** The states that updates lead to: counts are numbers and averages are (total, count),
      unless a step raised. */
  predicate ValidState(agg: Expr, s: Value) {
    match agg
    case CountStar => s.Num?
    case Aggregate(Count, _) => s.Num?
    case Aggregate(Avg, _) => s.SumCount? || s.Raised?
    case _ => true
  }

  /** One row's worth of state. */
  function One(agg: Expr, r: Record): Value {
    Update(agg, Initialize(agg), r)
  }

  /** Merging commutes, except that a sum of strings concatenates. */
  lemma MergeCommutes(agg: Expr, a: Value, b: Value)
    requires ValidState(agg, a) && ValidState(agg, b)
    requires agg.Aggregate? && agg.kind == Sum ==> !a.Str? || !b.Str?
    ensures Merge(agg, a, b) == Merge(agg, b, a)
  {
    ValueLtTotal(a, b);
  }

  lemma AddAssociates(a: Value, b: Value, c: Value)
    ensures AddOrRaise(AddOrRaise(a, b), c) == AddOrRaise(a, AddOrRaise(b, c))
    ensures !AddOrRaise(a, b).Null? && !AddOrRaise(b, c).Null?
  {
    if a.Str? && b.Str? && c.Str? { assert a.s + b.s + c.s == a.s + (b.s + c.s); }
  }

  lemma LesserNotNull(a: Value, b: Value)
    requires !a.Null? && !b.Null?
    ensures !Lesser(a, b).Null? && !Greater(a, b).Null?
  {
  }

  /** Merging associates, whatever the states. */
  lemma MergeAssociates(agg: Expr, a: Value, b: Value, c: Value)
    ensures Merge(agg, Merge(agg, a, b), c) == Merge(agg, a, Merge(agg, b, c))
  {
    hide AddOrRaise, Lesser, Greater;
    AddAssociates(a, b, c);
    if agg.Aggregate? && !a.Null? && !b.Null? && !c.Null? {
      LesserNotNull(a, b);
      LesserNotNull(b, c);
      LesserAssociates(a, b, c);
      GreaterAssociates(a, b, c);
    }
  }

  /** Updating is merging in one row's worth of state. */
  lemma UpdateIsMerge(agg: Expr, s: Value, r: Record)
    requires IsAggregateFunction(agg) && ValidState(agg, s)
    ensures Update(agg, s, r) == Merge(agg, s, One(agg, r))
    ensures Merge(agg, Initialize(agg), s) == s
    ensures ValidState(agg, Update(agg, s, r))
  {
    if agg.Aggregate? { ValueLtTotal(s, Eval(agg.child, r)); }
  }

  // ---- one state per aggregate of a group ----------------------------------

  function InitializeAll(aggs: seq<Expr>): (s: State)
    ensures |s| == |aggs|
  {
    seq(|aggs|, i requires 0 <= i < |aggs| => Initialize(aggs[i]))
  }

  function UpdateAll(aggs: seq<Expr>, s: State, r: Record): (t: State)
    requires |s| == |aggs|
    ensures |t| == |aggs|
  {
    seq(|aggs|, i requires 0 <= i < |aggs| => Update(aggs[i], s[i], r))
  }

  function MergeAll(aggs: seq<Expr>, a: State, b: State): (t: State)
    requires |a| == |aggs| && |b| == |aggs|
    ensures |t| == |aggs|
  {
    seq(|aggs|, i requires 0 <= i < |aggs| => Merge(aggs[i], a[i], b[i]))
  }

  function FinalizeAll(aggs: seq<Expr>, s: State): (t: State)
    requires |s| == |aggs|
    ensures |t| == |aggs|
  {
    seq(|aggs|, i requires 0 <= i < |aggs| => Finalize(aggs[i], s[i]))
  }

  ghost predicate ValidStates(aggs: seq<Expr>, s: State) {
    |s| == |aggs| && forall i :: 0 <= i < |aggs| ==> ValidState(aggs[i], s[i])
  }

  lemma MergeAllAssociates(aggs: seq<Expr>, a: State, b: State, c: State)
    requires |a| == |b| == |c| == |aggs|
    ensures MergeAll(aggs, MergeAll(aggs, a, b), c) == MergeAll(aggs, a, MergeAll(aggs, b, c))
  {
    hide Merge;
    forall i | 0 <= i < |aggs|
      ensures Merge(aggs[i], Merge(aggs[i], a[i], b[i]), c[i]) == Merge(aggs[i], a[i], Merge(aggs[i], b[i], c[i]))
    {
      MergeAssociates(aggs[i], a[i], b[i], c[i]);
    }
  }

  lemma UpdateAllIsMergeAll(aggs: seq<Expr>, s: State, r: Record)
    requires ValidStates(aggs, s) && forall i :: 0 <= i < |aggs| ==> IsAggregateFunction(aggs[i])
    ensures UpdateAll(aggs, s, r) == MergeAll(aggs, s, UpdateAll(aggs, InitializeAll(aggs), r))
    ensures MergeAll(aggs, InitializeAll(aggs), s) == s
    ensures ValidStates(aggs, UpdateAll(aggs, s, r))
  {
    hide Update, Merge, Initialize, ValidState;
    forall i | 0 <= i < |aggs|
      ensures Update(aggs[i], s[i], r) == Merge(aggs[i], s[i], Update(aggs[i], Initialize(aggs[i]), r))
      ensures Merge(aggs[i], Initialize(aggs[i]), s[i]) == s[i]
      ensures ValidState(aggs[i], Update(aggs[i], s[i], r))
    {
      UpdateIsMerge(aggs[i], s[i], r);
    }
  }

  lemma InitializeAllValid(aggs: seq<Expr>)
    ensures ValidStates(aggs, InitializeAll(aggs))
  {
  }
}
