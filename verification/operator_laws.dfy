/**
 The laws of arithmetic, comparison and logic that the operators of expressions obey on
 every row (minispark/expressions/binary.py, minispark/expressions/predicates.py).
 */
module OperatorLaws {
  import opened Values
  import opened Expressions

  const ZERO := Literal(Num(0.0))
  const ONE := Literal(Num(1.0))
  const TRUE := Literal(Bool(true))
  const FALSE := Literal(Bool(false))

  function Plus(a: Expr, b: Expr): Expr {
    Binary(Add, a, b)
  }

  function Minus(a: Expr, b: Expr): Expr {
    Binary(Sub, a, b)
  }

  function TimesOf(a: Expr, b: Expr): Expr {
    Binary(Mul, a, b)
  }

  /** Do they evaluate to the same value on r? */
  predicate Same(a: Expr, b: Expr, r: Record) {
    Eval(a, r) == Eval(b, r)
  }

  predicate Number(a: Expr, r: Record) {
    Eval(a, r).Num?
  }

  /** Does a evaluate to True on r? */
  predicate Holds(a: Expr, r: Record) {
    Eval(a, r) == Bool(true)
  }

  /** Addition is a commutative group with subtraction. */
  lemma AdditionLaws(a: Expr, b: Expr, c: Expr, r: Record)
    requires Number(a, r) && Number(b, r) && Number(c, r)
    ensures Number(Plus(a, b), r) && Number(Minus(a, b), r)
    ensures Same(Plus(a, ZERO), a, r) && Same(Plus(a, b), Plus(b, a), r)
    ensures Same(Plus(Plus(a, b), c), Plus(a, Plus(b, c)), r)
    ensures Same(Plus(Minus(a, b), b), a, r) && Same(Minus(Plus(a, b), b), a, r)
  {
  }

  /** Multiplication distributes over addition and has 1; division undoes it. */
  lemma MultiplicationLaws(a: Expr, b: Expr, c: Expr, r: Record)
    requires Number(a, r) && Number(b, r) && Number(c, r)
    ensures Number(TimesOf(a, b), r)
    ensures Same(TimesOf(a, ONE), a, r) && Same(TimesOf(a, ZERO), ZERO, r) && Same(TimesOf(a, b), TimesOf(b, a), r)
    ensures Same(TimesOf(a, Plus(b, ONE)), Plus(TimesOf(a, b), a), r)
    ensures Same(TimesOf(a, Plus(b, c)), Plus(TimesOf(a, b), TimesOf(a, c)), r)
    ensures !Same(b, ZERO, r) ==> Number(Binary(Div, a, b), r) && Same(TimesOf(Binary(Div, a, b), b), a, r)
  {
    hide Eval, Product;
    ProductLaws(Eval(a, r).n, Eval(b, r).n, Eval(c, r).n);
    LiteralReads(Num(0.0), r);
    LiteralReads(Num(1.0), r);
    TimesReads(a, ONE, r);
    TimesReads(a, ZERO, r);
    TimesReads(a, b, r);
    TimesReads(b, a, r);
    TimesReads(a, c, r);
    PlusReads(b, ONE, r);
    TimesReads(a, Plus(b, ONE), r);
    PlusReads(TimesOf(a, b), a, r);
    PlusReads(b, c, r);
    TimesReads(a, Plus(b, c), r);
    PlusReads(TimesOf(a, b), TimesOf(a, c), r);
    if !Same(b, ZERO, r) { QuotientLaw(a, b, r); }
  }

  /** Products, kept out of sight of the solver's nonlinear arithmetic. */
  function Product(x: real, y: real): real {
    x * y
  }

  lemma TimesReads(a: Expr, b: Expr, r: Record)
    requires Number(a, r) && Number(b, r)
    ensures Eval(TimesOf(a, b), r) == Num(Product(Eval(a, r).n, Eval(b, r).n))
  {
    hide ApplyOp, Product;
    TimesOfNumbers(Eval(a, r), Eval(b, r));
  }

  lemma TimesOfNumbers(x: Value, y: Value)
    requires x.Num? && y.Num?
    ensures ApplyOp(Mul, x, y) == Num(Product(x.n, y.n))
  {
  }

  lemma PlusReads(a: Expr, b: Expr, r: Record)
    requires Number(a, r) && Number(b, r)
    ensures Eval(Plus(a, b), r) == Num(Eval(a, r).n + Eval(b, r).n)
  {
  }

  lemma ProductLaws(x: real, y: real, z: real)
    ensures Product(x, 1.0) == x && Product(x, 0.0) == 0.0 && Product(x, y) == Product(y, x)
    ensures Product(x, y + 1.0) == Product(x, y) + x && Product(x, y + z) == Product(x, y) + Product(x, z)
  {
  }

  lemma QuotientLaw(a: Expr, b: Expr, r: Record)
    requires Number(a, r) && Number(b, r) && !Same(b, ZERO, r)
    ensures Number(Binary(Div, a, b), r) && Same(TimesOf(Binary(Div, a, b), b), a, r)
  {
    hide Eval, Product;
    LiteralReads(Num(0.0), r);
    DivReads(a, b, r);
    TimesReads(Binary(Div, a, b), b, r);
    QuotientTimes(Eval(a, r).n, Eval(b, r).n);
  }

  lemma DivReads(a: Expr, b: Expr, r: Record)
    requires Number(a, r) && Number(b, r) && Eval(b, r).n != 0.0
    ensures Eval(Binary(Div, a, b), r) == Num(Eval(a, r).n / Eval(b, r).n)
  {
    hide ApplyOp;
    DivOfNumbers(Eval(a, r), Eval(b, r));
  }

  lemma DivOfNumbers(x: Value, y: Value)
    requires x.Num? && y.Num? && y.n != 0.0
    ensures ApplyOp(Div, x, y) == Num(x.n / y.n)
  {
  }

  lemma QuotientTimes(x: real, y: real)
    requires y != 0.0
    ensures Product(x / y, y) == x
  {
  }

  /** Numbers are ordered, by an order that addition keeps. */
  lemma OrderLaws(a: Expr, b: Expr, c: Expr, r: Record)
    requires Number(a, r) && Number(b, r) && Number(c, r)
    ensures Holds(Binary(Lt, a, b), r) || Holds(Binary(Eq, a, b), r) || Holds(Binary(Gt, a, b), r)
    ensures !(Holds(Binary(Lt, a, b), r) && Holds(Binary(Eq, a, b), r)) && !(Holds(Binary(Gt, a, b), r) && Holds(Binary(Eq, a, b), r))
    ensures !(Holds(Binary(Lt, a, b), r) && Holds(Binary(Gt, a, b), r))
    ensures Holds(Binary(Lt, a, b), r) && Holds(Binary(Lt, b, c), r) ==> Holds(Binary(Lt, a, c), r)
    ensures Holds(Binary(Lt, a, Plus(a, ONE)), r)
    ensures Holds(Binary(Lt, a, b), r) <==> Holds(Binary(Lt, Plus(a, c), Plus(b, c)), r)
    ensures Same(Binary(Ge, a, b), Not(Binary(Lt, a, b)), r) && Same(Binary(Le, a, b), Not(Binary(Gt, a, b)), r)
    ensures Same(Binary(Gt, a, b), Binary(Lt, b, a), r)
  {
    var x, y, z := Eval(a, r).n, Eval(b, r).n, Eval(c, r).n;
    assert Eval(Plus(a, ONE), r) == Num(x + 1.0);
    assert Eval(Plus(a, c), r) == Num(x + z) && Eval(Plus(b, c), r) == Num(y + z);
  }

  /** Equality is that of values, whatever their kinds, and never raises. */
  lemma EqualityLaws(a: Expr, b: Expr, r: Record)
    ensures Holds(Binary(Eq, a, b), r) <==> Same(a, b, r)
    ensures Same(Binary(Ne, a, b), Not(Binary(Eq, a, b)), r)
    ensures Raises(Binary(Eq, a, b), r) <==> Raises(a, r) || Raises(b, r)
  {
  }

  /** Booleans under AND, OR and NOT are a Boolean algebra of two values. */
  lemma LogicLaws(a: Expr, b: Expr, r: Record)
    requires Eval(a, r).Bool? && Eval(b, r).Bool?
    ensures Same(Binary(And, a, TRUE), a, r) && Same(Binary(And, a, FALSE), FALSE, r)
    ensures Same(Binary(Or, a, FALSE), a, r) && Same(Binary(Or, a, TRUE), TRUE, r)
    ensures Same(Binary(And, a, b), Binary(And, b, a), r) && Same(Binary(Or, a, b), Binary(Or, b, a), r)
    ensures Same(Binary(And, a, Not(a)), FALSE, r) && Same(Binary(Or, a, Not(a)), TRUE, r)
    ensures Same(Not(Binary(And, a, b)), Binary(Or, Not(a), Not(b)), r) && Same(Not(Not(a)), a, r)
    ensures Same(Not(TRUE), FALSE, r)
  {
  }

  /** What counts as false is null, False, zero and the empty string. */
  lemma TruthLaws(v: Value, a: Expr, r: Record)
    ensures !Truthy(v) <==> v in {Null, Bool(false), Num(0.0), Str("")}
    ensures Holds(Not(a), r) <==> !Truthy(Eval(a, r))
    ensures Holds(IsNull(a), r) <==> Eval(a, r) == Null
    ensures Same(IsNotNull(a), Not(IsNull(a)), r)
    ensures Truthy(Eval(Binary(And, a, Literal(v)), r)) <==> Truthy(Eval(a, r)) && Truthy(v)
    ensures Truthy(Eval(Binary(Or, a, Literal(v)), r)) <==> Truthy(Eval(a, r)) || Truthy(v)
  {
  }

  /** A column reads its own field, under an alias too, and a literal nothing. */
  lemma ReadingLaws(n: string, m: string, v: Value, w: Value, r: Record)
    requires n != m
    ensures Eval(Column(n), r[m := w][n := v]) == v && Eval(Column(m), r[m := w][n := v]) == w
    ensures Eval(Alias(Column(n), m), r[m := w][n := v]) == v && Eval(Literal(v), r) == v
    ensures Raises(Column(n), r) <==> n !in r
  {
  }

  /** Adding strings puts the second after the first. */
  lemma ConcatenationLaws(a: Expr, b: Expr, r: Record)
    requires Eval(a, r).Str? && Eval(b, r).Str?
    ensures var s := Eval(Plus(a, b), r);
            s.Str? && |s.s| == |Eval(a, r).s| + |Eval(b, r).s| && Eval(a, r).s <= s.s && s.s[|Eval(a, r).s|..] == Eval(b, r).s
  {
  }

  /** Where an operator raises on operands that do not: numbers only when one divides by
      zero, strings for anything but adding and comparing, a mix of the two and null always. */
  lemma RaisingLaws(a: Expr, b: Expr, r: Record)
    requires !Raises(a, r) && !Raises(b, r)
    ensures Number(a, r) && Number(b, r) ==>
              !Raises(Plus(a, b), r) && !Raises(Minus(a, b), r) && !Raises(TimesOf(a, b), r) && !Raises(Binary(Lt, a, b), r)
    ensures Number(a, r) && Number(b, r) ==> (Raises(Binary(Div, a, b), r) <==> Same(b, ZERO, r))
    ensures Eval(a, r).Str? && Eval(b, r).Str? ==>
              !Raises(Plus(a, b), r) && !Raises(Binary(Lt, a, b), r) && Raises(Minus(a, b), r) && Raises(Binary(Div, a, b), r)
  {
    hide Eval, Raises;
    LiteralReads(Num(0.0), r);
    BinaryRaises(Add, a, b, r);
    BinaryRaises(Sub, a, b, r);
    BinaryRaises(Mul, a, b, r);
    BinaryRaises(Div, a, b, r);
    BinaryRaises(Lt, a, b, r);
  }

  lemma BinaryRaises(op: BinOp, a: Expr, b: Expr, r: Record)
    requires !Raises(a, r) && !Raises(b, r)
    ensures Raises(Binary(op, a, b), r) <==> OpRaises(op, Eval(a, r), Eval(b, r))
  {
    hide Eval, OpRaises;
  }

  lemma LiteralReads(v: Value, r: Record)
    ensures Eval(Literal(v), r) == v
  {
  }

  lemma MixedRaisingLaws(op: BinOp, a: Expr, b: Expr, r: Record)
    requires !Raises(a, r) && !Raises(b, r)
    ensures Raises(Not(a), r) == Raises(IsNull(a), r) == false
    ensures op.And? || op.Or? || op.Eq? || op.Ne? ==> !Raises(Binary(op, a, b), r)
    ensures (Number(a, r) && Eval(b, r).Str?) || (Eval(a, r).Str? && Number(b, r)) || Eval(a, r).Null? || Eval(b, r).Null? ==>
              (Raises(Binary(op, a, b), r) <==> !(op.And? || op.Or? || op.Eq? || op.Ne?))
  {
    hide Eval;
  }
}
