/**
 The SQL expression parser (minispark/sql/parser.py): a precedence ladder over a token
 stream.
 */
module SqlParser {
  import opened Options
  import opened Values
  import opened Expressions
  import opened SqlTokenizer

  /** The rungs of the ladder, from expr down to primary. */
  const OR := 0
  const AND := 1
  const NOT := 2
  const NULL_CHECK := 3
  const COMPARISON := 4
  const ADDITIVE := 5
  const MULTIPLICATIVE := 6
  const UNARY := 7
  const PRIMARY := 8

  datatype Parsed = Parsed(e: Expr, next: nat) | SyntaxError

  predicate IsKeyword(t: Token, word: string) {
    t.kind.Keyword? && t.value == word
  }

  predicate IsOperator(t: Token, op: string) {
    t.kind.Operator? && t.value == op
  }

  predicate IsPunct(t: Token, p: string) {
    t.kind.Punctuation? && t.value == p
  }

  predicate IsComparisonToken(t: Token) {
    t.kind.Operator? && t.value in {"=", "!=", "<>", "<", "<=", ">", ">="}
  }

  function ComparisonOf(op: string): BinOp {
    if op == "=" then Eq
    else if op == "!=" || op == "<>" then Ne
    else if op == "<" then Lt
    else if op == "<=" then Le
    else if op == ">" then Gt
    else Ge
  }

  // ---- numbers -------------------------------------------------------------

  function DigitValue(c: char): nat
    requires IsDigit(c)
  {
    c as int - '0' as int
  }

  /** Reads on from an integer part already worth `so`. */
  function IntegerFrom(so: nat, s: string): nat
    decreases s
  {
    if s == "" || !IsDigit(s[0]) then so else IntegerFrom(10 * so + DigitValue(s[0]), s[1..])
  }

  function FractionOf(s: string): real {
    if s == "" || !IsDigit(s[0]) then 0.0 else (DigitValue(s[0]) as real + FractionOf(s[1..])) / 10.0
  }

  function AfterDot(s: string): string {
    if s == "" then "" else if s[0] == '.' then s[1..] else AfterDot(s[1..])
  }

  /** int(text) or float(text), exactly. */
  function NumberValue(s: string): real {
    IntegerFrom(0, s) as real + FractionOf(AfterDot(s))
  }

  // ---- the specification ---------------------------------------------------

  /** Does t carry a left-associative operator of this level? */
  predicate Joins(level: nat, t: Token) {
    || (level == OR && IsKeyword(t, "OR"))
    || (level == AND && IsKeyword(t, "AND"))
    || (level == ADDITIVE && (IsOperator(t, "+") || IsOperator(t, "-")))
    || (level == MULTIPLICATIVE && (IsOperator(t, "*") || IsOperator(t, "/")))
  }

  predicate IsLoop(level: nat) {
    level == OR || level == AND || level == ADDITIVE || level == MULTIPLICATIVE
  }

  function JoinOp(level: nat, t: Token): BinOp {
    if level == OR then Or
    else if level == AND then And
    else if level == ADDITIVE then (if t.value == "+" then Add else Sub)
    else if t.value == "*" then Mul
    else Div
  }

  const MINUS_ONE := Literal(Num(-1.0))

  function AggregateOf(name: string): Option<AggKind> {
    if name == "COUNT" then Some(Count)
    else if name == "SUM" then Some(Sum)
    else if name == "AVG" then Some(Avg)
    else if name == "MIN" then Some(Min)
    else if name == "MAX" then Some(Max)
    else None
  }

  /** A stream that ends in Eof, and a place in it. */
  predicate At(ts: seq<Token>, pos: nat) {
    pos < |ts| && forall i :: 0 <= i < |ts| ==> (ts[i].kind.Eof? <==> i == |ts| - 1)
  }

  function ParseAt(level: nat, ts: seq<Token>, pos: nat): (r: Parsed)
    requires At(ts, pos) && level <= PRIMARY
    ensures r.Parsed? ==> pos < r.next < |ts|
    decreases |ts| - pos, 2, PRIMARY - level
  {
    if IsLoop(level) then
      match ParseAt(level + 1, ts, pos)
      case SyntaxError => SyntaxError
      case Parsed(left, p) => ParseTail(level, ts, left, p)
    else if level == NOT then
      if !IsKeyword(ts[pos], "NOT") then ParseAt(NULL_CHECK, ts, pos)
      else match ParseAt(NOT, ts, pos + 1)
        case SyntaxError => SyntaxError
        case Parsed(c, p) => Parsed(Not(c), p)
    else if level == NULL_CHECK then
      match ParseAt(COMPARISON, ts, pos)
      case SyntaxError => SyntaxError
      case Parsed(e, p) => ParseIs(ts, e, p)
    else if level == COMPARISON then
      match ParseAt(ADDITIVE, ts, pos)
      case SyntaxError => SyntaxError
      case Parsed(left, p) =>
        if !IsComparisonToken(ts[p]) then Parsed(left, p)
        else match ParseAt(ADDITIVE, ts, p + 1)
          case SyntaxError => SyntaxError
          case Parsed(right, q) => Parsed(Binary(ComparisonOf(ts[p].value), left, right), q)
    else if level == UNARY then
      if !IsOperator(ts[pos], "-") then ParseAt(PRIMARY, ts, pos)
      else match ParseAt(UNARY, ts, pos + 1)
        case SyntaxError => SyntaxError
        case Parsed(c, p) => Parsed(Binary(Mul, MINUS_ONE, c), p)
    else ParsePrimary(ts, pos)
  }

  /** The rest of a left-associative chain of one level. */
  function ParseTail(level: nat, ts: seq<Token>, left: Expr, pos: nat): (r: Parsed)
    requires At(ts, pos) && level < PRIMARY
    ensures r.Parsed? ==> pos <= r.next < |ts|
    decreases |ts| - pos, 1, 0
  {
    if !Joins(level, ts[pos]) then Parsed(left, pos)
    else match ParseAt(level + 1, ts, pos + 1)
      case SyntaxError => SyntaxError
      case Parsed(right, p) => ParseTail(level, ts, Binary(JoinOp(level, ts[pos]), left, right), p)
  }

  /** IS [NOT] NULL, at most once. */
  function ParseIs(ts: seq<Token>, e: Expr, pos: nat): (r: Parsed)
    requires At(ts, pos)
    ensures r.Parsed? ==> pos <= r.next < |ts|
  {
    if !IsKeyword(ts[pos], "IS") then Parsed(e, pos)
    else if IsKeyword(ts[pos + 1], "NOT") then
      if IsKeyword(ts[pos + 2], "NULL") then Parsed(IsNotNull(e), pos + 3) else SyntaxError
    else if IsKeyword(ts[pos + 1], "NULL") then Parsed(IsNull(e), pos + 2)
    else SyntaxError
  }

  function ParsePrimary(ts: seq<Token>, pos: nat): (r: Parsed)
    requires At(ts, pos)
    ensures r.Parsed? ==> pos < r.next < |ts|
    decreases |ts| - pos, 0, 0
  {
    var t := ts[pos];
    if t.kind.Number? then Parsed(Literal(Num(NumberValue(t.value))), pos + 1)
    else if t.kind.StringLit? then Parsed(Literal(Str(t.value)), pos + 1)
    else if IsKeyword(t, "TRUE") then Parsed(Literal(Bool(true)), pos + 1)
    else if IsKeyword(t, "FALSE") then Parsed(Literal(Bool(false)), pos + 1)
    else if IsKeyword(t, "NULL") then Parsed(Literal(Null), pos + 1)
    else if IsPunct(t, "(") then
      match ParseAt(OR, ts, pos + 1)
      case SyntaxError => SyntaxError
      case Parsed(e, p) => if IsPunct(ts[p], ")") then Parsed(e, p + 1) else SyntaxError
    else if t.kind.Identifier? then
      if IsPunct(ts[pos + 1], "(") then ParseCall(Upper(t.value), ts, pos + 1)
      else if IsPunct(ts[pos + 1], ".") then
        if ts[pos + 2].kind.Identifier? then Parsed(Column(ts[pos + 2].value), pos + 3) else SyntaxError
      else Parsed(Column(t.value), pos + 1)
    else SyntaxError
  }

  /** A call, from its opening parenthesis. */
  function ParseCall(name: string, ts: seq<Token>, pos: nat): (r: Parsed)
    requires At(ts, pos) && IsPunct(ts[pos], "(")
    ensures r.Parsed? ==> pos < r.next < |ts|
    decreases |ts| - pos, 0, 0
  {
    if AggregateOf(name).None? then SyntaxError
    else if name == "COUNT" && IsOperator(ts[pos + 1], "*") then
      if IsPunct(ts[pos + 2], ")") then Parsed(CountStar, pos + 3) else SyntaxError
    else match ParseAt(OR, ts, pos + 1)
      case SyntaxError => SyntaxError
      case Parsed(e, p) => if IsPunct(ts[p], ")") then Parsed(Aggregate(AggregateOf(name).value, e), p + 1) else SyntaxError
  }

  // ---- the parser ----------------------------------------------------------

  /** A method's result and the position it left behind are what the specification says;
      after an error the position does not matter. */
  predicate Took(spec: Parsed, result: Option<Expr>, pos: nat) {
    match spec
    case Parsed(e, p) => result == Some(e) && pos == p
    case SyntaxError => result.None?
  }

  class Parser {
    const tokens: seq<Token>
    var pos: nat

    constructor (tokens: seq<Token>)
      requires At(tokens, 0)
      ensures this.tokens == tokens && pos == 0 && Valid()
    {
      this.tokens, pos := tokens, 0;
    }

    predicate Valid()
      reads this
    {
      At(tokens, pos)
    }

    function Current(): Token
      requires Valid()
      reads this
    {
      tokens[pos]
    }

    /** The current token; moves past it unless it is the end. */
    method Advance() returns (t: Token)
      requires Valid()
      modifies this`pos
      ensures Valid() && t == tokens[old(pos)]
      ensures pos == if t.kind.Eof? then old(pos) else old(pos) + 1
    {
      t := tokens[pos];
      if !t.kind.Eof? { pos := pos + 1; }
    }

    method MatchKeyword(word: string) returns (matched: bool)
      requires Valid()
      modifies this`pos
      ensures Valid() && matched == IsKeyword(tokens[old(pos)], word)
      ensures pos == if matched then old(pos) + 1 else old(pos)
    {
      matched := IsKeyword(Current(), word);
      if matched { var _ := Advance(); }
    }

    method MatchPunctuation(p: string) returns (matched: bool)
      requires Valid()
      modifies this`pos
      ensures Valid() && matched == IsPunct(tokens[old(pos)], p)
      ensures pos == if matched then old(pos) + 1 else old(pos)
    {
      matched := IsPunct(Current(), p);
      if matched { var _ := Advance(); }
    }

    method MatchOperator(op: string) returns (matched: bool)
      requires Valid()
      modifies this`pos
      ensures Valid() && matched == IsOperator(tokens[old(pos)], op)
      ensures pos == if matched then old(pos) + 1 else old(pos)
    {
      matched := IsOperator(Current(), op);
      if matched { var _ := Advance(); }
    }

    method ParseExpr() returns (r: Option<Expr>)
      requires Valid()
      modifies this`pos
      ensures Valid() && Took(ParseAt(OR, tokens, old(pos)), r, pos)
      decreases |tokens| - pos, 20
    {
      r := ParseOr();
    }

    method ParseOr() returns (r: Option<Expr>)
      requires Valid()
      modifies this`pos
      ensures Valid() && Took(ParseAt(OR, tokens, old(pos)), r, pos)
      decreases |tokens| - pos, 18
    {
      r := ParseAnd();
      if r.None? { return; }
      while IsKeyword(Current(), "OR")
        invariant Valid() && old(pos) < pos && r.Some?
        invariant ParseAt(OR, tokens, old(pos)) == ParseTail(OR, tokens, r.value, pos)
        decreases |tokens| - pos
      {
        var _ := Advance();
        var right := ParseAnd();
        if right.None? { return None; }
        r := Some(Binary(Or, r.value, right.value));
      }
    }

    method ParseAnd() returns (r: Option<Expr>)
      requires Valid()
      modifies this`pos
      ensures Valid() && Took(ParseAt(AND, tokens, old(pos)), r, pos)
      decreases |tokens| - pos, 16
    {
      r := ParseNot();
      if r.None? { return; }
      while IsKeyword(Current(), "AND")
        invariant Valid() && old(pos) < pos && r.Some?
        invariant ParseAt(AND, tokens, old(pos)) == ParseTail(AND, tokens, r.value, pos)
        decreases |tokens| - pos
      {
        var _ := Advance();
        var right := ParseNot();
        if right.None? { return None; }
        r := Some(Binary(And, r.value, right.value));
      }
    }

    method ParseNot() returns (r: Option<Expr>)
      requires Valid()
      modifies this`pos
      ensures Valid() && Took(ParseAt(NOT, tokens, old(pos)), r, pos)
      decreases |tokens| - pos, 14
    {
      var negated := MatchKeyword("NOT");
      if negated {
        r := ParseNot();
        if r.Some? { r := Some(Not(r.value)); }
      } else {
        r := ParseNullCheck();
      }
    }

    method ParseNullCheck() returns (r: Option<Expr>)
      requires Valid()
      modifies this`pos
      ensures Valid() && Took(ParseAt(NULL_CHECK, tokens, old(pos)), r, pos)
      decreases |tokens| - pos, 12
    {
      r := ParseComparison();
      if r.None? { return; }
      var checked := MatchKeyword("IS");
      if checked {
        var negated := MatchKeyword("NOT");
        var complete := MatchKeyword("NULL");
        r := if !complete then None else if negated then Some(IsNotNull(r.value)) else Some(IsNull(r.value));
      }
    }

    method ParseComparison() returns (r: Option<Expr>)
      requires Valid()
      modifies this`pos
      ensures Valid() && Took(ParseAt(COMPARISON, tokens, old(pos)), r, pos)
      decreases |tokens| - pos, 10
    {
      r := ParseAdditive();
      if r.None? || !IsComparisonToken(Current()) { return; }
      var op := Advance();
      var right := ParseAdditive();
      r := if right.None? then None else Some(Binary(ComparisonOf(op.value), r.value, right.value));
    }

    method ParseAdditive() returns (r: Option<Expr>)
      requires Valid()
      modifies this`pos
      ensures Valid() && Took(ParseAt(ADDITIVE, tokens, old(pos)), r, pos)
      decreases |tokens| - pos, 8
    {
      r := ParseMultiplicative();
      if r.None? { return; }
      while IsOperator(Current(), "+") || IsOperator(Current(), "-")
        invariant Valid() && old(pos) < pos && r.Some?
        invariant ParseAt(ADDITIVE, tokens, old(pos)) == ParseTail(ADDITIVE, tokens, r.value, pos)
        decreases |tokens| - pos
      {
        var op := Advance();
        var right := ParseMultiplicative();
        if right.None? { return None; }
        r := Some(Binary(if op.value == "+" then Add else Sub, r.value, right.value));
      }
    }

    method ParseMultiplicative() returns (r: Option<Expr>)
      requires Valid()
      modifies this`pos
      ensures Valid() && Took(ParseAt(MULTIPLICATIVE, tokens, old(pos)), r, pos)
      decreases |tokens| - pos, 6
    {
      r := ParseUnary();
      if r.None? { return; }
      while IsOperator(Current(), "*") || IsOperator(Current(), "/")
        invariant Valid() && old(pos) < pos && r.Some?
        invariant ParseAt(MULTIPLICATIVE, tokens, old(pos)) == ParseTail(MULTIPLICATIVE, tokens, r.value, pos)
        decreases |tokens| - pos
      {
        var op := Advance();
        var right := ParseUnary();
        if right.None? { return None; }
        r := Some(Binary(if op.value == "*" then Mul else Div, r.value, right.value));
      }
    }

    method ParseUnary() returns (r: Option<Expr>)
      requires Valid()
      modifies this`pos
      ensures Valid() && Took(ParseAt(UNARY, tokens, old(pos)), r, pos)
      decreases |tokens| - pos, 4
    {
      var negative := MatchOperator("-");
      if negative {
        r := ParseUnary();
        if r.Some? { r := Some(Binary(Mul, MINUS_ONE, r.value)); }
      } else {
        r := ParsePrimaryExpr();
      }
    }

    method ParsePrimaryExpr() returns (r: Option<Expr>)
      requires Valid()
      modifies this`pos
      ensures Valid() && Took(ParseAt(PRIMARY, tokens, old(pos)), r, pos)
      decreases |tokens| - pos, 2
    {
      assert ParseAt(PRIMARY, tokens, pos) == ParsePrimary(tokens, pos);
      var t := Current();
      if t.kind.Number? {
        var _ := Advance();
        return Some(Literal(Num(NumberValue(t.value))));
      }
      if t.kind.StringLit? {
        var _ := Advance();
        return Some(Literal(Str(t.value)));
      }
      var matched := MatchKeyword("TRUE");
      if matched { return Some(Literal(Bool(true))); }
      matched := MatchKeyword("FALSE");
      if matched { return Some(Literal(Bool(false))); }
      matched := MatchKeyword("NULL");
      if matched { return Some(Literal(Null)); }
      matched := MatchPunctuation("(");
      if matched {
        r := ParseExpr();
        if r.None? { return; }
        var closed := MatchPunctuation(")");
        if !closed { r := None; }
        return;
      }
      if t.kind.Identifier? {
        var name := Advance();
        if IsPunct(Current(), "(") {
          r := ParseFunctionCall(name.value);
          return;
        }
        var dotted := MatchPunctuation(".");
        if dotted {
          if !Current().kind.Identifier? { return None; }
          name := Advance();
        }
        return Some(Column(name.value));
      }
      r := None;
    }

    method ParseFunctionCall(name: string) returns (r: Option<Expr>)
      requires Valid() && IsPunct(tokens[pos], "(")
      modifies this`pos
      ensures Valid() && Took(ParseCall(Upper(name), tokens, old(pos)), r, pos)
      decreases |tokens| - pos, 0
    {
      var _ := Advance();
      var upper := Upper(name);
      var kind := AggregateOf(upper);
      if kind.None? { return None; }
      if upper == "COUNT" {
        var all := MatchOperator("*");
        if all {
          var closed := MatchPunctuation(")");
          return if closed then Some(CountStar) else None;
        }
      }
      r := ParseExpr();
      if r.None? { return; }
      var closed := MatchPunctuation(")");
      r := if closed then Some(Aggregate(kind.value, r.value)) else None;
    }
  }
}
