/**
 Constant folding and boolean simplification of expressions
 (minispark/optimizer/rules.py, `_fold`, `_simplify_bool`).
 */
module ExpressionRules {
  import opened Options
  import opened Values
  import opened Expressions

  // ---- constant folding ----------------------------------------------------

  function Fold(e: Expr): Expr {
    match e
    case Binary(op, l, r) =>
      var left, right := Fold(l), Fold(r);
      if left.Literal? && right.Literal? then Literal(ApplyOp(op, left.value, right.value))
      else Binary(op, left, right)
    case Alias(c, n) => Alias(Fold(c), n)
    case Not(c) =>
      var child := Fold(c);
      if child.Literal? then Literal(Bool(!Truthy(child.value))) else Not(child)
    case IsNull(c) =>
      var child := Fold(c);
      if child.Literal? then Literal(Bool(child.value.Null?)) else IsNull(child)
    case IsNotNull(c) =>
      var child := Fold(c);
      if child.Literal? then Literal(Bool(!child.value.Null?)) else IsNotNull(child)
    case _ => e
  }

  /** Does folding itself raise, by applying an operator to two literals? */
  predicate FoldRaises(e: Expr) {
    match e
    case Binary(op, l, r) =>
      FoldRaises(l) || FoldRaises(r) ||
      (Fold(l).Literal? && Fold(r).Literal? && OpRaises(op, Fold(l).value, Fold(r).value))
    case Alias(c, _) => FoldRaises(c)
    case Not(c) => FoldRaises(c)
    case IsNull(c) => FoldRaises(c)
    case IsNotNull(c) => FoldRaises(c)
    case _ => false
  }

  /** Folding keeps the value of every expression on every row. */
  lemma {:induction false} FoldPreserves(e: Expr, r: Record)
    ensures Eval(Fold(e), r) == Eval(e, r)
  {
    match e
    case Binary(_, a, b) => FoldPreserves(a, r); FoldPreserves(b, r);
    case Alias(c, _) => FoldPreserves(c, r);
    case Not(c) => FoldPreserves(c, r);
    case IsNull(c) => FoldPreserves(c, r);
    case IsNotNull(c) => FoldPreserves(c, r);
    case _ =>
  }

  /** An expression that evaluates on some row without raising can be folded without
      raising, and the folded expression does not raise on that row either. */
  lemma {:induction false} FoldIsSafe(e: Expr, r: Record)
    requires !Raises(e, r)
    ensures !FoldRaises(e) && !Raises(Fold(e), r)
  {
    match e
    case Binary(op, a, b) =>
      FoldIsSafe(a, r); FoldIsSafe(b, r);
      FoldPreserves(a, r); FoldPreserves(b, r);
    case Alias(c, _) => FoldIsSafe(c, r);
    case Not(c) => FoldIsSafe(c, r);
    case IsNull(c) => FoldIsSafe(c, r);
    case IsNotNull(c) => FoldIsSafe(c, r);
    case _ =>
  }

  lemma {:induction false} FoldIdempotent(e: Expr)
    ensures Fold(Fold(e)) == Fold(e)
  {
    match e
    case Binary(_, a, b) => FoldIdempotent(a); FoldIdempotent(b);
    case Alias(c, _) => FoldIdempotent(c);
    case Not(c) => FoldIdempotent(c);
    case IsNull(c) => FoldIdempotent(c);
    case IsNotNull(c) => FoldIdempotent(c);
    case _ =>
  }

  lemma {:induction false} FoldColumns(e: Expr)
    ensures ReferencedColumns(Fold(e)) <= ReferencedColumns(e)
  {
    match e
    case Binary(_, a, b) => FoldColumns(a); FoldColumns(b);
    case Alias(c, _) => FoldColumns(c);
    case Not(c) => FoldColumns(c);
    case IsNull(c) => FoldColumns(c);
    case IsNotNull(c) => FoldColumns(c);
    case _ =>
  }

  // ---- boolean simplification ----------------------------------------------

  function Simplify(e: Expr): Expr {
    match e
    case Binary(op, l, r) =>
      var left, right := Simplify(l), Simplify(r);
      if op.And? then
        if left.Literal? then (if Truthy(left.value) then right else Literal(Bool(false)))
        else if right.Literal? then (if Truthy(right.value) then left else Literal(Bool(false)))
        else Binary(And, left, right)
      else if op.Or? then
        if left.Literal? then (if Truthy(left.value) then Literal(Bool(true)) else right)
        else if right.Literal? then (if Truthy(right.value) then Literal(Bool(true)) else left)
        else Binary(Or, left, right)
      else Binary(op, left, right)
    case Not(c) =>
      var child := Simplify(c);
      if child.Not? then child.child else Not(child)
    case Alias(c, n) => Alias(Simplify(c), n)
    case _ => e
  }

  /** Is e sure to be a boolean, when the columns in `bools` hold booleans? */
  predicate Boolean(bools: set<string>, e: Expr) {
    match e
    case Column(n) => n in bools
    case Literal(v) => v.Bool?
    case Binary(op, _, _) => IsComparison(op) || op.And? || op.Or?
    case Not(_) => true
    case IsNull(_) => true
    case IsNotNull(_) => true
    case Alias(c, _) => Boolean(bools, c)
    case _ => false
  }

  /** Every And, Or and Not that simplification reaches has boolean operands. */
  predicate BooleanOperands(bools: set<string>, e: Expr) {
    match e
    case Binary(op, l, r) =>
      && ((op.And? || op.Or?) ==> Boolean(bools, l) && Boolean(bools, r))
      && BooleanOperands(bools, l) && BooleanOperands(bools, r)
    case Not(c) => Boolean(bools, c) && BooleanOperands(bools, c)
    case Alias(c, _) => BooleanOperands(bools, c)
    case _ => true
  }

  /** A condition: And, Or and Not occur in boolean positions, or have boolean
      operands. */
  predicate Condition(bools: set<string>, e: Expr) {
    match e
    case Binary(op, l, r) =>
      if op.And? || op.Or? then Condition(bools, l) && Condition(bools, r)
      else BooleanOperands(bools, l) && BooleanOperands(bools, r)
    case Not(c) => Condition(bools, c)
    case Alias(c, _) => Condition(bools, c)
    case _ => true
  }

  /** The columns in `bools` that e mentions do hold booleans in r. */
  ghost predicate HoldsBooleans(bools: set<string>, cols: set<string>, r: Record) {
    forall c :: c in bools && c in cols ==> c in r && r[c].Bool?
  }

  lemma {:induction false} BooleanEval(bools: set<string>, e: Expr, r: Record)
    requires Boolean(bools, e) && HoldsBooleans(bools, ReferencedColumns(e), r)
    ensures Eval(e, r).Bool?
  {
    if e.Alias? { BooleanEval(bools, e.child, r); }
  }

  lemma {:induction false} SimplifyColumns(e: Expr)
    ensures ReferencedColumns(Simplify(e)) <= ReferencedColumns(e)
  {
    match e
    case Binary(_, a, b) => SimplifyColumns(a); SimplifyColumns(b);
    case Alias(c, _) => SimplifyColumns(c);
    case Not(c) => SimplifyColumns(c);
    case _ =>
  }

  lemma {:induction false} SimplifyKeepsBoolean(bools: set<string>, e: Expr)
    requires BooleanOperands(bools, e)
    ensures BooleanOperands(bools, Simplify(e))
    ensures Boolean(bools, e) ==> Boolean(bools, Simplify(e))
  {
    match e
    case Binary(_, a, b) => SimplifyKeepsBoolean(bools, a); SimplifyKeepsBoolean(bools, b);
    case Alias(c, _) => SimplifyKeepsBoolean(bools, c);
    case Not(c) => SimplifyKeepsBoolean(bools, c);
    case _ =>
  }

  /** With boolean operands, simplification keeps the value. */
  lemma {:induction false} SimplifyPreserves(bools: set<string>, e: Expr, r: Record)
    requires BooleanOperands(bools, e) && HoldsBooleans(bools, ReferencedColumns(e), r)
    ensures Eval(Simplify(e), r) == Eval(e, r)
  {
    match e
    case Binary(op, a, b) =>
      SimplifyPreserves(bools, a, r);
      SimplifyPreserves(bools, b, r);
      if op.And? || op.Or? {
        BooleanEval(bools, a, r);
        BooleanEval(bools, b, r);
      }
    case Alias(c, _) => SimplifyPreserves(bools, c, r);
    case Not(c) =>
      SimplifyPreserves(bools, c, r);
      SimplifyKeepsBoolean(bools, c);
      SimplifyColumns(c);
      var child := Simplify(c);
      if child.Not? { BooleanEval(bools, child.child, r); }
    case _ =>
  }

  /** In a condition, simplification keeps the truth, whatever the operands are. */
  lemma {:induction false} SimplifyKeepsTruth(bools: set<string>, e: Expr, r: Record)
    requires Condition(bools, e) && HoldsBooleans(bools, ReferencedColumns(e), r)
    ensures Truthy(Eval(Simplify(e), r)) == Truthy(Eval(e, r))
  {
    match e
    case Binary(op, a, b) =>
      if op.And? || op.Or? {
        SimplifyKeepsTruth(bools, a, r);
        SimplifyKeepsTruth(bools, b, r);
      } else {
        SimplifyPreserves(bools, a, r);
        SimplifyPreserves(bools, b, r);
      }
    case Alias(c, _) => SimplifyKeepsTruth(bools, c, r);
    case Not(c) => SimplifyKeepsTruth(bools, c, r);
    case _ =>
  }

  lemma {:induction false} SimplifyKeepsCondition(bools: set<string>, e: Expr)
    requires Condition(bools, e)
    ensures Condition(bools, Simplify(e))
  {
    match e
    case Binary(op, a, b) =>
      if op.And? || op.Or? {
        SimplifyKeepsCondition(bools, a); SimplifyKeepsCondition(bools, b);
      } else {
        SimplifyKeepsBoolean(bools, a); SimplifyKeepsBoolean(bools, b);
      }
    case Alias(c, _) => SimplifyKeepsCondition(bools, c);
    case Not(c) => SimplifyKeepsCondition(bools, c);
    case _ =>
  }

  lemma {:induction false} FoldKeepsBoolean(bools: set<string>, e: Expr)
    ensures Boolean(bools, e) ==> Boolean(bools, Fold(e))
    ensures BooleanOperands(bools, e) ==> BooleanOperands(bools, Fold(e))
    ensures Condition(bools, e) ==> Condition(bools, Fold(e))
  {
    match e
    case Binary(_, a, b) => FoldKeepsBoolean(bools, a); FoldKeepsBoolean(bools, b);
    case Alias(c, _) => FoldKeepsBoolean(bools, c);
    case Not(c) => FoldKeepsBoolean(bools, c);
    case _ =>
  }

  /** A simplified expression: no literal beside And or Or, no double negation. */
  predicate Simplified(e: Expr) {
    match e
    case Binary(op, l, r) =>
      Simplified(l) && Simplified(r) && ((op.And? || op.Or?) ==> !l.Literal? && !r.Literal?)
    case Not(c) => Simplified(c) && !c.Not?
    case Alias(c, _) => Simplified(c)
    case _ => true
  }

  lemma {:induction false} SimplifyReaches(e: Expr)
    ensures Simplified(Simplify(e))
    ensures Simplified(e) ==> Simplify(e) == e
  {
    match e
    case Binary(_, a, b) => SimplifyReaches(a); SimplifyReaches(b);
    case Alias(c, _) => SimplifyReaches(c);
    case Not(c) => SimplifyReaches(c);
    case _ =>
  }

  /** One pass reaches the simplified form, and a second changes nothing. */
  lemma SimplifyIdempotent(e: Expr)
    ensures Simplified(Simplify(e)) && Simplify(Simplify(e)) == Simplify(e)
  {
    SimplifyReaches(e);
    SimplifyReaches(Simplify(e));
  }

  /** Simplification never makes an expression raise. */
  lemma {:induction false} SimplifyIsSafe(bools: set<string>, e: Expr, r: Record)
    requires BooleanOperands(bools, e) && HoldsBooleans(bools, ReferencedColumns(e), r)
    requires !Raises(e, r)
    ensures !Raises(Simplify(e), r)
  {
    match e
    case Binary(_, a, b) =>
      SimplifyIsSafe(bools, a, r); SimplifyIsSafe(bools, b, r);
      SimplifyPreserves(bools, a, r); SimplifyPreserves(bools, b, r);
    case Alias(c, _) => SimplifyIsSafe(bools, c, r);
    case Not(c) => SimplifyIsSafe(bools, c, r);
    case _ =>
  }

  /** The operand that simplification puts in the place of a connective of simplified
      operands: beside a literal that decides nothing, or under two negations. */
  function Forwarded(e: Expr): Option<Expr> {
    match e
    case Binary(And, l, r) =>
      if l.Literal? then (if Truthy(l.value) then Some(r) else None)
      else if r.Literal? && Truthy(r.value) then Some(l) else None
    case Binary(Or, l, r) =>
      if l.Literal? then (if Truthy(l.value) then None else Some(r))
      else if r.Literal? && !Truthy(r.value) then Some(l) else None
    case Not(Not(c)) => Some(c)
    case _ => None
  }

  /** Why the operands must be booleans: an operand put in a connective's place keeps the
      value exactly when it is a boolean on the row; every other simplification of a
      connective keeps the value always. */
  lemma ConnectiveKeepsValueIff(e: Expr, r: Record)
    requires e.Not? || (e.Binary? && (e.op.And? || e.op.Or?))
    requires if e.Not? then Simplified(if e.child.Not? then e.child.child else e.child) else Simplified(e.left) && Simplified(e.right)
    ensures Eval(Simplify(e), r) == Eval(e, r)
            <==> match Forwarded(e) case Some(x) => Eval(x, r).Bool? case None => true
  {
    if e.Not? {
      var x := if e.child.Not? then e.child.child else e.child;
      SimplifyReaches(x);
    } else {
      SimplifyReaches(e.left);
      SimplifyReaches(e.right);
    }
  }

  /** On a row where n is 5, `n AND True`, `n OR False` and `NOT NOT n` are True, and 5 once
      simplified. */
  lemma SimplifyDropsCoercion(r: Record, e: Expr)
    requires "n" in r && r["n"] == Num(5.0)
    requires || e == Binary(And, Column("n"), Literal(Bool(true)))
             || e == Binary(Or, Column("n"), Literal(Bool(false)))
             || e == Not(Not(Column("n")))
    ensures Eval(e, r) == Bool(true) && Eval(Simplify(e), r) == Num(5.0)
  {
    assert Eval(Column("n"), r) == Num(5.0) && Simplify(Column("n")) == Column("n");
    if e.Not? {
      assert Simplify(e.child) == e.child && Eval(e.child, r) == Bool(false);
    } else {
      assert Simplify(e.right) == e.right;
    }
  }
}
