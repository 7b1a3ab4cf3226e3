/**
 A minimal-parenthesis printer of SQL expressions, and the round trip: printing, then
 tokenizing and parsing, gives the expression back; and everything the parser returns can
 be printed.
 */
module SqlPrinter {
  import opened Options
  import opened Values
  import opened Expressions
  import opened SqlTokenizer
  import opened SqlParser

  // ---- what the parser can return ------------------------------------------

  ghost predicate HasText(n: real) {
    exists s :: IsNumberText(s) && NumberValue(s) == n
  }

  predicate IsNegation(e: Expr) {
    e.Binary? && e.op == Mul && e.left == MINUS_ONE
  }

  ghost predicate Printable(e: Expr) {
    match e
    case Column(n) => IsName(n) && Upper(n) !in KEYWORDS
    case Literal(v) => !v.SumCount? && !v.Raised? && (v.Num? ==> HasText(v.n))
    case Binary(_, a, b) => (IsNegation(e) || Printable(a)) && Printable(b)
    case Not(c) => Printable(c)
    case IsNull(c) => Printable(c)
    case IsNotNull(c) => Printable(c)
    case Alias(_, _) => false
    case CountStar => true
    case Aggregate(_, c) => Printable(c)
  }

  // ---- printing ------------------------------------------------------------

  /** The rung of the ladder that builds e. */
  function LevelOf(e: Expr): (l: nat)
    ensures l <= PRIMARY
  {
    match e
    case Binary(op, _, _) =>
      if op.Or? then OR
      else if op.And? then AND
      else if op.Add? || op.Sub? then ADDITIVE
      else if IsNegation(e) then UNARY
      else if op.Mul? || op.Div? then MULTIPLICATIVE
      else COMPARISON
    case Not(_) => NOT
    case IsNull(_) => NULL_CHECK
    case IsNotNull(_) => NULL_CHECK
    case _ => PRIMARY
  }

  function Reserved(word: string): Token {
    Token(Keyword, word, 0)
  }

  function Op(op: string): Token {
    Token(Operator, op, 0)
  }

  function Punct(p: string): Token {
    Token(Punctuation, p, 0)
  }

  function OpToken(op: BinOp): Token {
    match op
    case Or => Reserved("OR")
    case And => Reserved("AND")
    case Eq => Op("=")
    case Ne => Op("!=")
    case Lt => Op("<")
    case Le => Op("<=")
    case Gt => Op(">")
    case Ge => Op(">=")
    case Add => Op("+")
    case Sub => Op("-")
    case Mul => Op("*")
    case Div => Op("/")
  }

  function KindName(kind: AggKind): string {
    match kind
    case Count => "COUNT"
    case Sum => "SUM"
    case Avg => "AVG"
    case Min => "MIN"
    case Max => "MAX"
  }

  ghost function NumberText(n: real): (s: string)
    requires HasText(n)
    ensures IsNumberText(s) && NumberValue(s) == n
  {
    var s :| IsNumberText(s) && NumberValue(s) == n;
    s
  }

  ghost function PrintLiteral(v: Value): Token
    requires Printable(Literal(v))
  {
    match v
    case Null => Reserved("NULL")
    case Bool(b) => Reserved(if b then "TRUE" else "FALSE")
    case Num(n) => Token(Number, NumberText(n), 0)
    case Str(s) => Token(StringLit, s, 0)
  }

  /** The level the left operand is printed at; the right one is one higher in a
      left-associative chain, and the same in a comparison. */
  function LeftLevel(e: Expr): nat
    requires e.Binary?
  {
    if LevelOf(e) == COMPARISON then ADDITIVE else LevelOf(e)
  }

  function RightLevel(e: Expr): nat
    requires e.Binary?
  {
    if LevelOf(e) == UNARY then UNARY else LevelOf(e) + 1
  }

  /** e where an expression of the given level is expected: in parentheses only if it is
      looser than that. */
  ghost function Print(level: nat, e: Expr): (ps: seq<Token>)
    requires Printable(e) && level <= PRIMARY
    ensures |ps| > 0
    decreases e, 1
  {
    if LevelOf(e) < level then [Punct("(")] + Body(e) + [Punct(")")] else Body(e)
  }

  ghost function Body(e: Expr): (ps: seq<Token>)
    requires Printable(e)
    ensures |ps| > 0
    decreases e, 0
  {
    match e
    case Column(n) => [Token(Identifier, n, 0)]
    case Literal(v) => [PrintLiteral(v)]
    case Binary(op, a, b) =>
      if IsNegation(e) then [Op("-")] + Print(UNARY, b)
      else Print(LeftLevel(e), a) + ([OpToken(op)] + Print(RightLevel(e), b))
    case Not(c) => [Reserved("NOT")] + Print(NOT, c)
    case IsNull(c) => Print(COMPARISON, c) + [Reserved("IS"), Reserved("NULL")]
    case IsNotNull(c) => Print(COMPARISON, c) + [Reserved("IS"), Reserved("NOT"), Reserved("NULL")]
    case CountStar => [Token(Identifier, "COUNT", 0), Punct("("), Op("*"), Punct(")")]
    case Aggregate(k, c) => [Token(Identifier, KindName(k), 0), Punct("(")] + (Print(OR, c) + [Punct(")")])
  }

  // ---- the stream at a position --------------------------------------------

  predicate Same(t: Token, u: Token) {
    t.kind == u.kind && t.value == u.value
  }

  /** The stream reads ps from pos on, and goes on after it. */
  predicate Reads(ts: seq<Token>, pos: nat, ps: seq<Token>) {
    pos + |ps| < |ts| && forall i :: 0 <= i < |ps| ==> Same(ts[pos + i], ps[i])
  }

  lemma ReadsParts(ts: seq<Token>, pos: nat, a: seq<Token>, b: seq<Token>)
    requires Reads(ts, pos, a + b)
    ensures Reads(ts, pos, a) && Reads(ts, pos + |a|, b)
  {
    forall i | 0 <= i < |a| ensures Same(ts[pos + i], a[i]) { assert (a + b)[i] == a[i]; }
    forall i | 0 <= i < |b| ensures Same(ts[pos + |a| + i], b[i]) {
      assert (a + b)[|a| + i] == b[i] && Same(ts[pos + (|a| + i)], (a + b)[|a| + i]);
    }
  }

  lemma ReadsOne(ts: seq<Token>, pos: nat, p: Token)
    requires Reads(ts, pos, [p])
    ensures Same(ts[pos], p)
  {
    assert Same(ts[pos + 0], [p][0]);
  }

  lemma ReadsOperator(ts: seq<Token>, pos: nat, left: seq<Token>, op: Token, right: seq<Token>, all: seq<Token>)
    requires all == left + ([op] + right) && Reads(ts, pos, all)
    ensures Reads(ts, pos, left) && Same(ts[pos + |left|], op) && Reads(ts, pos + |left| + 1, right)
    ensures pos + |all| == pos + |left| + 1 + |right|
  {
    ReadsParts(ts, pos, left, [op] + right);
    ReadsParts(ts, pos + |left|, [op], right);
    ReadsOne(ts, pos + |left|, op);
  }

  lemma ReadsBracketed(ts: seq<Token>, pos: nat, open: Token, body: seq<Token>, close: Token, all: seq<Token>)
    requires all == [open] + body + [close] && Reads(ts, pos, all)
    ensures Same(ts[pos], open) && Reads(ts, pos + 1, body) && Same(ts[pos + 1 + |body|], close)
    ensures pos + |all| == pos + |body| + 2
  {
    assert all == [open] + (body + [close]);
    ReadsParts(ts, pos, [open], body + [close]);
    ReadsOne(ts, pos, open);
    ReadsParts(ts, pos + 1, body, [close]);
    ReadsOne(ts, pos + 1 + |body|, close);
  }

  lemma ReadsCall(ts: seq<Token>, pos: nat, name: Token, open: Token, arg: seq<Token>, close: Token, all: seq<Token>)
    requires all == [name, open] + (arg + [close]) && arg != [] && Reads(ts, pos, all)
    ensures Same(ts[pos], name) && Same(ts[pos + 1], open) && Reads(ts, pos + 2, arg)
    ensures Same(ts[pos + 2], arg[0]) && Same(ts[pos + 2 + |arg|], close) && pos + |all| == pos + 3 + |arg|
  {
    ReadsParts(ts, pos, [name, open], arg + [close]);
    assert Same(ts[pos + 0], [name, open][0]) && Same(ts[pos + 1], [name, open][1]);
    ReadsParts(ts, pos + 2, arg, [close]);
    ReadsOne(ts, pos + 2 + |arg|, close);
    assert Same(ts[pos + 2 + 0], arg[0]);
  }

  /** Could t continue an expression of this level, or of a tighter one? */
  predicate Continues(level: nat, t: Token) {
    || (level <= OR && IsKeyword(t, "OR"))
    || (level <= AND && IsKeyword(t, "AND"))
    || (level <= NULL_CHECK && IsKeyword(t, "IS"))
    || (level <= COMPARISON && IsComparisonToken(t))
    || (level <= ADDITIVE && (IsOperator(t, "+") || IsOperator(t, "-")))
    || (level <= MULTIPLICATIVE && (IsOperator(t, "*") || IsOperator(t, "/")))
    || IsPunct(t, "(") || IsPunct(t, ".")
  }

  // ---- climbing ------------------------------------------------------------

  /** An expression of a tighter level is one of a looser level, if nothing continues it
      and no prefix operator comes before it. */
  lemma {:induction false} Lift(level: nat, from: nat, ts: seq<Token>, pos: nat, e: Expr, q: nat)
    requires At(ts, pos) && level <= from <= PRIMARY && ParseAt(from, ts, pos) == Parsed(e, q) && q < |ts|
    requires !Continues(level, ts[q])
    requires level <= NOT < from ==> !IsKeyword(ts[pos], "NOT")
    requires level <= UNARY < from ==> !IsOperator(ts[pos], "-")
    ensures ParseAt(level, ts, pos) == Parsed(e, q)
    decreases from - level
  {
    if level < from { Lift(level + 1, from, ts, pos, e, q); }
  }

  lemma {:induction false} FirstNotNot(level: nat, e: Expr)
    requires Printable(e) && NOT < level <= PRIMARY
    ensures !IsKeyword(Print(level, e)[0], "NOT")
    decreases e
  {
    if LevelOf(e) >= level {
      match e
      case Binary(_, a, _) => if !IsNegation(e) { FirstNotNot(LeftLevel(e), a); }
      case IsNull(c) => FirstNotNot(COMPARISON, c);
      case IsNotNull(c) => FirstNotNot(COMPARISON, c);
      case _ =>
    }
  }

  lemma FirstOfBody(e: Expr)
    requires Printable(e)
    ensures NOT < LevelOf(e) ==> !IsKeyword(Body(e)[0], "NOT")
    ensures UNARY < LevelOf(e) ==> !IsOperator(Body(e)[0], "-")
  {
    if NOT < LevelOf(e) {
      FirstNotNot(LevelOf(e), e);
      assert Print(LevelOf(e), e) == Body(e);
    }
  }

  /** A body that parses at its own level parses at any looser one. */
  lemma LiftBody(level: nat, e: Expr, ts: seq<Token>, pos: nat)
    requires At(ts, pos) && Printable(e) && level <= LevelOf(e) && Reads(ts, pos, Body(e))
    requires ParseAt(LevelOf(e), ts, pos) == Parsed(e, pos + |Body(e)|)
    requires !Continues(level, ts[pos + |Body(e)|])
    ensures ParseAt(level, ts, pos) == Parsed(e, pos + |Body(e)|)
  {
    FirstOfBody(e);
    assert Same(ts[pos + 0], Body(e)[0]);
    Lift(level, LevelOf(e), ts, pos, e, pos + |Body(e)|);
  }

  /** Printed at a level, an expression parses back at that level. */
  lemma {:induction false} ParsePrinted(level: nat, e: Expr, ts: seq<Token>, pos: nat)
    requires At(ts, pos) && Printable(e) && level <= PRIMARY && Reads(ts, pos, Print(level, e))
    requires !Continues(level, ts[pos + |Print(level, e)|])
    ensures ParseAt(level, ts, pos) == Parsed(e, pos + |Print(level, e)|)
    decreases e, 3
  {
    if LevelOf(e) < level {
      ParseParenthesized(level, e, ts, pos);
    } else {
      ParseBody(e, ts, pos);
      LiftBody(level, e, ts, pos);
    }
  }

  lemma {:induction false} ParseParenthesized(level: nat, e: Expr, ts: seq<Token>, pos: nat)
    requires At(ts, pos) && Printable(e) && LevelOf(e) < level <= PRIMARY && Reads(ts, pos, Print(level, e))
    requires !Continues(level, ts[pos + |Print(level, e)|])
    ensures ParseAt(level, ts, pos) == Parsed(e, pos + |Print(level, e)|)
    decreases e, 2, 1
  {
    hide Body;
    var body := Body(e);
    var q := pos + 1 + |body|;
    ReadsBracketed(ts, pos, Punct("("), body, Punct(")"), Print(level, e));
    ParseBody(e, ts, pos + 1);
    LiftBody(OR, e, ts, pos + 1);
    assert ParsePrimary(ts, pos) == Parsed(e, q + 1);
    Lift(level, PRIMARY, ts, pos, e, q + 1);
  }

  /** An expression without parentheses parses at its own level. */
  lemma {:induction false} ParseBody(e: Expr, ts: seq<Token>, pos: nat)
    requires At(ts, pos) && Printable(e) && Reads(ts, pos, Body(e))
    requires !Continues(LevelOf(e), ts[pos + |Body(e)|])
    ensures ParseAt(LevelOf(e), ts, pos) == Parsed(e, pos + |Body(e)|)
    decreases e, 2, 0
  {
    match e
    case Binary(_, _, _) =>
      if IsNegation(e) { ParseNegation(e, ts, pos); }
      else if IsLoop(LevelOf(e)) { ParseChain(LevelOf(e), e, ts, pos); }
      else { ParseCompared(e, ts, pos); }
    case Not(c) =>
      ReadsParts(ts, pos, [Reserved("NOT")], Print(NOT, c));
      ReadsOne(ts, pos, Reserved("NOT"));
      ParsePrinted(NOT, c, ts, pos + 1);
    case IsNull(_) => ParseNullTest(e, ts, pos);
    case IsNotNull(_) => ParseNullTest(e, ts, pos);
    case Aggregate(_, _) => ParseAggregate(e, ts, pos);
    case _ => ParseLeaf(e, ts, pos);
  }

  lemma {:induction false} ParseNegation(e: Expr, ts: seq<Token>, pos: nat)
    requires At(ts, pos) && Printable(e) && IsNegation(e) && Reads(ts, pos, Body(e))
    requires !Continues(UNARY, ts[pos + |Body(e)|])
    ensures ParseAt(UNARY, ts, pos) == Parsed(e, pos + |Body(e)|)
    decreases e, 1
  {
    ReadsParts(ts, pos, [Op("-")], Print(UNARY, e.right));
    ReadsOne(ts, pos, Op("-"));
    ParsePrinted(UNARY, e.right, ts, pos + 1);
  }

  lemma {:induction false} ParseCompared(e: Expr, ts: seq<Token>, pos: nat)
    requires At(ts, pos) && Printable(e) && e.Binary? && LevelOf(e) == COMPARISON && Reads(ts, pos, Body(e))
    requires !Continues(COMPARISON, ts[pos + |Body(e)|])
    ensures ParseAt(COMPARISON, ts, pos) == Parsed(e, pos + |Body(e)|)
    decreases e, 1
  {
    hide Body, Continues;
    var left, right := Print(ADDITIVE, e.left), Print(ADDITIVE, e.right);
    var p := pos + |left|;
    ComparedBody(e);
    ReadsOperator(ts, pos, left, OpToken(e.op), right, Body(e));
    CompareOp(e, ts[p]);
    StopsTighter(COMPARISON, ADDITIVE, ts[pos + |Body(e)|]);
    ParsePrinted(ADDITIVE, e.left, ts, pos);
    ParsePrinted(ADDITIVE, e.right, ts, p + 1);
    CompareStep(e, ts, pos, p, p + 1 + |right|);
  }

  lemma ComparedBody(e: Expr)
    requires Printable(e) && e.Binary? && LevelOf(e) == COMPARISON
    ensures Printable(e.left) && Printable(e.right)
    ensures Body(e) == Print(ADDITIVE, e.left) + ([OpToken(e.op)] + Print(ADDITIVE, e.right))
  {
  }

  lemma StopsTighter(level: nat, tighter: nat, t: Token)
    requires level <= tighter && !Continues(level, t)
    ensures !Continues(tighter, t)
  {
  }

  lemma CompareOp(e: Expr, t: Token)
    requires e.Binary? && LevelOf(e) == COMPARISON && Same(t, OpToken(e.op))
    ensures IsComparisonToken(t) && ComparisonOf(t.value) == e.op && !Continues(ADDITIVE, t)
  {
  }

  lemma CompareStep(e: Expr, ts: seq<Token>, pos: nat, p: nat, q: nat)
    requires At(ts, pos) && e.Binary? && p < |ts| - 1 && q < |ts|
    requires ParseAt(ADDITIVE, ts, pos) == Parsed(e.left, p)
    requires IsComparisonToken(ts[p]) && ComparisonOf(ts[p].value) == e.op
    requires ParseAt(ADDITIVE, ts, p + 1) == Parsed(e.right, q)
    ensures ParseAt(COMPARISON, ts, pos) == Parsed(e, q)
  {
  }

  lemma {:induction false} ParseNullTest(e: Expr, ts: seq<Token>, pos: nat)
    requires At(ts, pos) && Printable(e) && (e.IsNull? || e.IsNotNull?) && Reads(ts, pos, Body(e))
    ensures ParseAt(NULL_CHECK, ts, pos) == Parsed(e, pos + |Body(e)|)
    decreases e, 1
  {
    var inner := Print(COMPARISON, e.child);
    var p := pos + |inner|;
    var rest := if e.IsNull? then [Reserved("IS"), Reserved("NULL")] else [Reserved("IS"), Reserved("NOT"), Reserved("NULL")];
    ReadsParts(ts, pos, inner, rest);
    assert Same(ts[p + 0], rest[0]) && Same(ts[p + 1], rest[1]);
    if e.IsNotNull? { assert Same(ts[p + 2], rest[2]); }
    ParsePrinted(COMPARISON, e.child, ts, pos);
  }

  lemma {:induction false} ParseAggregate(e: Expr, ts: seq<Token>, pos: nat)
    requires At(ts, pos) && Printable(e) && e.Aggregate? && Reads(ts, pos, Body(e))
    ensures ParseAt(PRIMARY, ts, pos) == Parsed(e, pos + |Body(e)|)
    decreases e, 1
  {
    hide Body, Continues;
    var name, arg := Token(Identifier, KindName(e.kind), 0), Print(OR, e.child);
    AggregateBody(e);
    ReadsCall(ts, pos, name, Punct("("), arg, Punct(")"), Body(e));
    CloseStops(ts[pos + 2 + |arg|]);
    ParsePrinted(OR, e.child, ts, pos + 2);
    FirstNotStar(OR, e.child);
    CallStep(e, ts, pos, pos + 2 + |arg|);
  }

  lemma AggregateBody(e: Expr)
    requires Printable(e) && e.Aggregate?
    ensures Body(e) == [Token(Identifier, KindName(e.kind), 0), Punct("(")] + (Print(OR, e.child) + [Punct(")")])
  {
  }

  lemma CloseStops(t: Token)
    requires Same(t, Punct(")"))
    ensures !Continues(OR, t)
  {
  }

  lemma CallStep(e: Expr, ts: seq<Token>, pos: nat, p: nat)
    requires At(ts, pos) && e.Aggregate? && pos + 2 < p < |ts|
    requires ts[pos].kind.Identifier? && ts[pos].value == KindName(e.kind) && IsPunct(ts[pos + 1], "(")
    requires !IsOperator(ts[pos + 2], "*") && ParseAt(OR, ts, pos + 2) == Parsed(e.child, p) && IsPunct(ts[p], ")")
    ensures ParseAt(PRIMARY, ts, pos) == Parsed(e, p + 1)
  {
    UpperKind(e.kind);
    assert ParseCall(KindName(e.kind), ts, pos + 1) == Parsed(e, p + 1);
    assert ParsePrimary(ts, pos) == Parsed(e, p + 1);
  }

  lemma UpperKind(kind: AggKind)
    ensures Upper(KindName(kind)) == KindName(kind) && AggregateOf(KindName(kind)) == Some(kind)
  {
  }

  lemma {:induction false} FirstNotStar(level: nat, e: Expr)
    requires Printable(e) && level <= PRIMARY
    ensures !IsOperator(Print(level, e)[0], "*")
    decreases e
  {
    if LevelOf(e) >= level {
      match e
      case Binary(_, a, _) => if !IsNegation(e) { FirstNotStar(LeftLevel(e), a); }
      case IsNull(c) => FirstNotStar(COMPARISON, c);
      case IsNotNull(c) => FirstNotStar(COMPARISON, c);
      case _ =>
    }
  }

  lemma ParseLeaf(e: Expr, ts: seq<Token>, pos: nat)
    requires At(ts, pos) && Printable(e) && (e.Column? || e.Literal? || e.CountStar?) && Reads(ts, pos, Body(e))
    requires !Continues(PRIMARY, ts[pos + |Body(e)|])
    ensures ParseAt(PRIMARY, ts, pos) == Parsed(e, pos + |Body(e)|)
  {
    var body := Body(e);
    assert Same(ts[pos + 0], body[0]);
    if e.CountStar? {
      assert Same(ts[pos + 1], body[1]) && Same(ts[pos + 2], body[2]) && Same(ts[pos + 3], body[3]);
      UpperKind(Count);
      assert ParseCall("COUNT", ts, pos + 1) == Parsed(e, pos + 4);
    }
    assert ParsePrimary(ts, pos) == Parsed(e, pos + |body|);
  }

  /** The operator token of a chain joins at its level and continues nothing tighter. */
  lemma ChainOp(level: nat, e: Expr, t: Token)
    requires e.Binary? && LevelOf(e) == level && IsLoop(level) && Same(t, OpToken(e.op))
    ensures Joins(level, t) && JoinOp(level, t) == e.op && !Continues(level + 1, t)
  {
  }

  lemma ChainStep(level: nat, e: Expr, ts: seq<Token>, pos: nat, p: nat, q: nat)
    requires At(ts, pos) && IsLoop(level) && e.Binary? && p < |ts| - 1 && q < |ts|
    requires ParseAt(level, ts, pos) == ParseTail(level, ts, e.left, p)
    requires Joins(level, ts[p]) && JoinOp(level, ts[p]) == e.op
    requires ParseAt(level + 1, ts, p + 1) == Parsed(e.right, q)
    ensures ParseAt(level, ts, pos) == ParseTail(level, ts, e, q)
  {
  }

  lemma PrintTighter(level: nat, e: Expr)
    requires Printable(e) && level < PRIMARY && LevelOf(e) != level
    ensures Print(level + 1, e) == Print(level, e)
  {
  }

  lemma ChainParts(level: nat, e: Expr)
    requires Printable(e) && IsLoop(level) && LevelOf(e) == level
    ensures e.Binary? && Printable(e.left) && Printable(e.right)
    ensures Print(level, e) == Print(level, e.left) + ([OpToken(e.op)] + Print(level + 1, e.right))
  {
  }

  /** A left-associative chain: having read e, the loop is left with what comes after. */
  lemma {:induction false} ParseSpine(level: nat, e: Expr, ts: seq<Token>, pos: nat)
    requires At(ts, pos) && Printable(e) && IsLoop(level) && Reads(ts, pos, Print(level, e))
    requires !Continues(level + 1, ts[pos + |Print(level, e)|])
    ensures ParseAt(level, ts, pos) == ParseTail(level, ts, e, pos + |Print(level, e)|)
    decreases e, if LevelOf(e) == level then 0 else 4
  {
    hide Body, Continues, LevelOf, Joins;
    if LevelOf(e) == level {
      ChainParts(level, e);
      var left, right, all := Print(level, e.left), Print(level + 1, e.right), Print(level, e);
      ReadsOperator(ts, pos, left, OpToken(e.op), right, all);
      ParseJoined(level, e, ts, pos, pos + |left|, pos + |all|);
    } else {
      PrintTighter(level, e);
      assert ParseAt(level + 1, ts, pos) == Parsed(e, pos + |Print(level, e)|) by { ParsePrinted(level + 1, e, ts, pos); }
    }
  }

  lemma {:induction false} ParseJoined(level: nat, e: Expr, ts: seq<Token>, pos: nat, p: nat, q: nat)
    requires At(ts, pos) && IsLoop(level) && LevelOf(e) == level && e.Binary? && Printable(e.left) && Printable(e.right)
    requires Reads(ts, pos, Print(level, e.left)) && p == pos + |Print(level, e.left)| && Same(ts[p], OpToken(e.op))
    requires Reads(ts, p + 1, Print(level + 1, e.right)) && q == p + 1 + |Print(level + 1, e.right)|
    requires !Continues(level + 1, ts[q])
    ensures ParseAt(level, ts, pos) == ParseTail(level, ts, e, q)
    decreases e, 0, 0
  {
    hide Body, Continues, Joins;
    ChainOp(level, e, ts[p]);
    assert ParseAt(level, ts, pos) == ParseTail(level, ts, e.left, p) by { ParseSpine(level, e.left, ts, pos); }
    assert ParseAt(level + 1, ts, p + 1) == Parsed(e.right, q) by { ParsePrinted(level + 1, e.right, ts, p + 1); }
    ChainStep(level, e, ts, pos, p, q);
  }

  lemma {:induction false} ParseChain(level: nat, e: Expr, ts: seq<Token>, pos: nat)
    requires At(ts, pos) && Printable(e) && e.Binary? && LevelOf(e) == level && IsLoop(level) && Reads(ts, pos, Body(e))
    requires !Continues(level, ts[pos + |Body(e)|])
    ensures ParseAt(level, ts, pos) == Parsed(e, pos + |Body(e)|)
    decreases e, 1, 1
  {
    assert Print(level, e) == Body(e);
    ParseSpine(level, e, ts, pos);
  }
}
