/**
 What SQL text says: which operator binds tighter, what prefixes and suffixes apply to, and
 what the words and names of an expression stand for (minispark/sql/parser.py).
 */
module SqlReadings {
  import opened Options
  import opened Values
  import opened Expressions
  import opened GroupTables
  import opened SqlTokenizer
  import opened SqlParser
  import opened SqlPrinter
  import opened SqlRoundTrip

  /** The text consists of these tokens, however it is laid out. */
  ghost predicate Spells(text: string, ps: seq<Token>) {
    LexesTo(Lex(text, 0), ps)
  }

  /** Any text with the printed tokens parses to the expression. */
  lemma ParseSpelled(text: string, e: Expr)
    requires Printable(e) && Spells(text, Print(OR, e))
    ensures ParseText(text) == Some(e)
  {
    hide Body, Printable;
    var ts, ps := Lex(text, 0).tokens, Print(OR, e);
    LexGood(text, 0);
    assert At(ts, 0) && Reads(ts, 0, ps);
    ParsePrinted(OR, e, ts, 0);
  }

  /** Tokens that are no expression. */
  lemma RejectSpelled(text: string, ps: seq<Token>)
    requires Spells(text, ps)
    ensures GoodStream(Lex(text, 0).tokens) && At(Lex(text, 0).tokens, 0) && Reads(Lex(text, 0).tokens, 0, ps)
    ensures Lex(text, 0).Tokens? && |Lex(text, 0).tokens| == |ps| + 1
  {
    LexGood(text, 0);
  }

  // ---- binding strength ----------------------------------------------------

  /** How tightly an operator holds its operands. */
  function Strength(op: BinOp): nat {
    match op
    case Or => 1
    case And => 2
    case Add => 4
    case Sub => 4
    case Mul => 5
    case Div => 5
    case _ => 3
  }

  const COMPARES := 3

  /** A name, a literal or a call. */
  ghost predicate Operand(e: Expr) {
    Printable(e) && LevelOf(e) == PRIMARY && e != MINUS_ONE
  }

  lemma OperandPrints(level: nat, e: Expr)
    requires Operand(e) && level <= PRIMARY
    ensures Print(level, e) == Body(e)
  {
  }

  lemma PairPrints(level: nat, op: BinOp, x: Expr, y: Expr)
    requires Operand(x) && Operand(y) && level <= LevelOf(Binary(op, x, y))
    ensures Printable(Binary(op, x, y)) && !IsNegation(Binary(op, x, y))
    ensures Print(level, Binary(op, x, y)) == Body(x) + ([OpToken(op)] + Body(y))
  {
    OperandPrints(LeftLevel(Binary(op, x, y)), x);
    OperandPrints(RightLevel(Binary(op, x, y)), y);
  }

  lemma LeftNested(op: BinOp, op2: BinOp, x: Expr, y: Expr, z: Expr)
    requires Operand(x) && Operand(y) && Operand(z)
    requires Strength(op) >= Strength(op2) && !(Strength(op) == Strength(op2) == COMPARES)
    ensures var e := Binary(op2, Binary(op, x, y), z);
            Printable(e) && Print(OR, e) == Body(x) + ([OpToken(op)] + Body(y)) + ([OpToken(op2)] + Body(z))
  {
    var e := Binary(op2, Binary(op, x, y), z);
    PairPrints(LeftLevel(e), op, x, y);
    OperandPrints(RightLevel(e), z);
  }

  lemma RightNested(op: BinOp, op2: BinOp, x: Expr, y: Expr, z: Expr)
    requires Operand(x) && Operand(y) && Operand(z) && Strength(op) < Strength(op2)
    ensures var e := Binary(op, x, Binary(op2, y, z));
            Printable(e) && Print(OR, e) == Body(x) + ([OpToken(op)] + (Body(y) + ([OpToken(op2)] + Body(z))))
  {
    var e := Binary(op, x, Binary(op2, y, z));
    PairPrints(RightLevel(e), op2, y, z);
    OperandPrints(LeftLevel(e), x);
  }

  /** A comparison followed by another is not an expression. */
  lemma ChainedComparison(text: string, op: BinOp, op2: BinOp, x: Expr, y: Expr, z: Expr)
    requires Operand(x) && Operand(y) && Operand(z) && Strength(op) == Strength(op2) == COMPARES
    requires Spells(text, Body(x) + ([OpToken(op)] + Body(y)) + ([OpToken(op2)] + Body(z)))
    ensures ParseText(text) == None
  {
    hide Body, Print, ParseAt, OpToken, Reads;
    var first, rest := Body(x) + ([OpToken(op)] + Body(y)), [OpToken(op2)] + Body(z);
    RejectSpelled(text, first + rest);
    TwoComparisons(Lex(text, 0).tokens, Binary(op, x, y), first, op2, Body(z));
  }

  lemma TwoComparisons(ts: seq<Token>, e: Expr, first: seq<Token>, op: BinOp, last: seq<Token>)
    requires e.Binary? && Operand(e.left) && Operand(e.right) && Strength(e.op) == Strength(op) == COMPARES
    requires first == Body(e.left) + ([OpToken(e.op)] + Body(e.right))
    requires At(ts, 0) && Reads(ts, 0, first + ([OpToken(op)] + last))
    ensures ParseAt(OR, ts, 0) == Parsed(e, |first|) && !ts[|first|].kind.Eof?
  {
    hide Body, Print, ParseAt, OpToken, Reads, Operand, At;
    ReadsParts(ts, 0, first, [OpToken(op)] + last);
    SecondComparison(ts, |first|, op, last);
    PairPrints(COMPARISON, e.op, e.left, e.right);
    ComparisonStops(e, ts);
    FirstWord(ts, e);
    StopsThere(ts, e, |first|);
  }

  lemma SecondComparison(ts: seq<Token>, q: nat, op: BinOp, rest: seq<Token>)
    requires Strength(op) == COMPARES && Reads(ts, q, [OpToken(op)] + rest)
    ensures q < |ts| - 1 && IsComparisonToken(ts[q])
  {
    ReadsParts(ts, q, [OpToken(op)], rest);
    ReadsOne(ts, q, OpToken(op));
  }

  lemma FirstWord(ts: seq<Token>, e: Expr)
    requires Printable(e) && Reads(ts, 0, Print(COMPARISON, e))
    ensures !IsKeyword(ts[0], "NOT")
  {
    hide Print, Printable;
    FirstNotNot(COMPARISON, e);
    assert Same(ts[0 + 0], Print(COMPARISON, e)[0]);
  }

  lemma ComparisonStops(e: Expr, ts: seq<Token>)
    requires e.Binary? && Operand(e.left) && Operand(e.right) && Strength(e.op) == COMPARES && Printable(e)
    requires At(ts, 0) && Reads(ts, 0, Print(COMPARISON, e)) && IsComparisonToken(ts[|Print(COMPARISON, e)|])
    ensures ParseAt(COMPARISON, ts, 0) == Parsed(e, |Print(COMPARISON, e)|)
  {
    hide Body, Printable;
    var left, right, q := Print(ADDITIVE, e.left), Print(ADDITIVE, e.right), |Print(COMPARISON, e)|;
    var p := |left|;
    ComparedBody(e);
    ReadsOperator(ts, 0, left, OpToken(e.op), right, Print(COMPARISON, e));
    CompareOp(e, ts[p]);
    ParsePrinted(ADDITIVE, e.left, ts, 0);
    ParsePrinted(ADDITIVE, e.right, ts, p + 1);
    CompareStep(e, ts, 0, p, q);
  }

  lemma StopsThere(ts: seq<Token>, e: Expr, q: nat)
    requires At(ts, 0) && ParseAt(COMPARISON, ts, 0) == Parsed(e, q) && q < |ts| - 1 && IsComparisonToken(ts[q])
    requires !IsKeyword(ts[0], "NOT")
    ensures ParseAt(OR, ts, 0) == Parsed(e, q) && !ts[q].kind.Eof?
  {
    assert ParseAt(NULL_CHECK, ts, 0) == Parsed(e, q);
    assert ParseAt(NOT, ts, 0) == Parsed(e, q);
    assert ParseAt(AND, ts, 0) == Parsed(e, q);
  }

  /** Two operators in a row: the stronger one takes the operand between them, the first
      one when they are equal; comparisons do not follow each other. */
  lemma Precedence(text: string, op: BinOp, op2: BinOp, x: Expr, y: Expr, z: Expr)
    requires Operand(x) && Operand(y) && Operand(z)
    requires Spells(text, Body(x) + ([OpToken(op)] + Body(y)) + ([OpToken(op2)] + Body(z)))
    ensures ParseText(text) ==
            if Strength(op) == Strength(op2) == COMPARES then None
            else if Strength(op) >= Strength(op2) then Some(Binary(op2, Binary(op, x, y), z))
            else Some(Binary(op, x, Binary(op2, y, z)))
  {
    hide Body, ParseText, Print, Spells;
    if Strength(op) == Strength(op2) == COMPARES {
      ChainedComparison(text, op, op2, x, y, z);
    } else if Strength(op) >= Strength(op2) {
      LeftNested(op, op2, x, y, z);
      ParseSpelled(text, Binary(op2, Binary(op, x, y), z));
    } else {
      RightNested(op, op2, x, y, z);
      assert Body(x) + ([OpToken(op)] + Body(y)) + ([OpToken(op2)] + Body(z))
          == Body(x) + ([OpToken(op)] + (Body(y) + ([OpToken(op2)] + Body(z))));
      ParseSpelled(text, Binary(op, x, Binary(op2, y, z)));
    }
  }

  // ---- prefixes, suffixes and parentheses ----------------------------------

  function Negated(e: Expr): Expr {
    Binary(Mul, MINUS_ONE, e)
  }

  lemma UnaryPrints(level: nat, x: Expr)
    requires Operand(x)
    ensures Printable(Not(x)) && Printable(Negated(x)) && Printable(IsNull(x)) && Printable(IsNotNull(x))
    ensures level <= NOT ==> Print(level, Not(x)) == [Reserved("NOT")] + Body(x)
    ensures level <= UNARY ==> Print(level, Negated(x)) == [Op("-")] + Body(x)
    ensures level <= NULL_CHECK ==>
              && Print(level, IsNull(x)) == Body(x) + [Reserved("IS"), Reserved("NULL")]
              && Print(level, IsNotNull(x)) == Body(x) + [Reserved("IS"), Reserved("NOT"), Reserved("NULL")]
  {
    OperandPrints(NOT, x);
    OperandPrints(UNARY, x);
    OperandPrints(COMPARISON, x);
  }

  /** NOT takes a comparison whole, but only the first operand of AND and OR; a minus takes
      only the first operand of anything. */
  lemma Prefixes(text: string, op: BinOp, x: Expr, y: Expr)
    requires Operand(x) && Operand(y)
    ensures Spells(text, [Reserved("NOT")] + (Body(x) + ([OpToken(op)] + Body(y)))) ==>
              ParseText(text) == Some(if Strength(op) < COMPARES then Binary(op, Not(x), y) else Not(Binary(op, x, y)))
    ensures Spells(text, [Op("-")] + (Body(x) + ([OpToken(op)] + Body(y)))) ==>
              ParseText(text) == Some(Binary(op, Negated(x), y))
  {
    hide ParseText, Spells, Body, Print, Printable, OpToken;
    var rest := [OpToken(op)] + Body(y);
    assert [Reserved("NOT")] + (Body(x) + rest) == [Reserved("NOT")] + Body(x) + rest;
    assert [Op("-")] + (Body(x) + rest) == [Op("-")] + Body(x) + rest;
    NotPrints(op, x, y);
    MinusPrints(op, x, y);
    if Spells(text, [Reserved("NOT")] + (Body(x) + rest)) {
      ParseSpelled(text, if Strength(op) < COMPARES then Binary(op, Not(x), y) else Not(Binary(op, x, y)));
    }
    if Spells(text, [Op("-")] + (Body(x) + rest)) { ParseSpelled(text, Binary(op, Negated(x), y)); }
  }

  lemma NotPrints(op: BinOp, x: Expr, y: Expr)
    requires Operand(x) && Operand(y)
    ensures var e := if Strength(op) < COMPARES then Binary(op, Not(x), y) else Not(Binary(op, x, y));
            var rest := [OpToken(op)] + Body(y);
            Printable(e) && Print(OR, e) == (if Strength(op) < COMPARES then [Reserved("NOT")] + Body(x) + rest
                                             else [Reserved("NOT")] + (Body(x) + rest))
  {
    if Strength(op) < COMPARES {
      var e := Binary(op, Not(x), y);
      UnaryPrints(LeftLevel(e), x);
      OperandPrints(RightLevel(e), y);
    } else {
      PairPrints(NOT, op, x, y);
    }
  }

  lemma MinusPrints(op: BinOp, x: Expr, y: Expr)
    requires Operand(x) && Operand(y)
    ensures Printable(Binary(op, Negated(x), y))
    ensures Print(OR, Binary(op, Negated(x), y)) == [Op("-")] + Body(x) + ([OpToken(op)] + Body(y))
  {
    var e := Binary(op, Negated(x), y);
    UnaryPrints(LeftLevel(e), x);
    OperandPrints(RightLevel(e), y);
  }

  /** A null test takes a comparison or a sum whole, but only the last operand of AND and OR. */
  lemma NullTests(text: string, op: BinOp, x: Expr, y: Expr)
    requires Operand(x) && Operand(y)
    ensures Spells(text, Body(x) + ([OpToken(op)] + (Body(y) + [Reserved("IS"), Reserved("NULL")]))) ==>
              ParseText(text) == Some(if Strength(op) < COMPARES then Binary(op, x, IsNull(y)) else IsNull(Binary(op, x, y)))
    ensures Spells(text, Body(x) + ([OpToken(op)] + (Body(y) + [Reserved("IS"), Reserved("NOT"), Reserved("NULL")]))) ==>
              ParseText(text) == Some(if Strength(op) < COMPARES then Binary(op, x, IsNotNull(y)) else IsNotNull(Binary(op, x, y)))
  {
    hide ParseText, Spells, Body, Print, Printable;
    var isNull, isNotNull := [Reserved("IS"), Reserved("NULL")], [Reserved("IS"), Reserved("NOT"), Reserved("NULL")];
    var first := Body(x) + ([OpToken(op)] + Body(y));
    assert Body(x) + ([OpToken(op)] + (Body(y) + isNull)) == first + isNull;
    assert Body(x) + ([OpToken(op)] + (Body(y) + isNotNull)) == first + isNotNull;
    NullTestPrints(op, x, y);
    if Spells(text, first + isNull) {
      ParseSpelled(text, if Strength(op) < COMPARES then Binary(op, x, IsNull(y)) else IsNull(Binary(op, x, y)));
    }
    if Spells(text, first + isNotNull) {
      ParseSpelled(text, if Strength(op) < COMPARES then Binary(op, x, IsNotNull(y)) else IsNotNull(Binary(op, x, y)));
    }
  }

  lemma NullTestPrints(op: BinOp, x: Expr, y: Expr)
    requires Operand(x) && Operand(y)
    ensures var e := if Strength(op) < COMPARES then Binary(op, x, IsNull(y)) else IsNull(Binary(op, x, y));
            Printable(e) && Print(OR, e) == Body(x) + ([OpToken(op)] + Body(y)) + [Reserved("IS"), Reserved("NULL")]
    ensures var e := if Strength(op) < COMPARES then Binary(op, x, IsNotNull(y)) else IsNotNull(Binary(op, x, y));
            Printable(e) && Print(OR, e) == Body(x) + ([OpToken(op)] + Body(y)) + [Reserved("IS"), Reserved("NOT"), Reserved("NULL")]
  {
    hide Body, Print, Printable;
    if Strength(op) < COMPARES { NullTestInside(op, x, y); } else { NullTestOutside(op, x, y); }
  }

  lemma NullTestInside(op: BinOp, x: Expr, y: Expr)
    requires Operand(x) && Operand(y) && Strength(op) < COMPARES
    ensures var e, first := Binary(op, x, IsNull(y)), Body(x) + ([OpToken(op)] + Body(y));
            Printable(e) && Print(OR, e) == first + [Reserved("IS"), Reserved("NULL")]
    ensures var e, first := Binary(op, x, IsNotNull(y)), Body(x) + ([OpToken(op)] + Body(y));
            Printable(e) && Print(OR, e) == first + [Reserved("IS"), Reserved("NOT"), Reserved("NULL")]
  {
    hide Body, Print, Printable, OpToken;
    UnaryPrints(RightLevel(Binary(op, x, IsNull(y))), y);
    SecondPrints(op, x, IsNull(y), Body(y), [Reserved("IS"), Reserved("NULL")]);
    SecondPrints(op, x, IsNotNull(y), Body(y), [Reserved("IS"), Reserved("NOT"), Reserved("NULL")]);
  }

  lemma SecondPrints(op: BinOp, x: Expr, second: Expr, inner: seq<Token>, suffix: seq<Token>)
    requires Operand(x) && Printable(second) && Strength(op) < COMPARES
    requires Print(RightLevel(Binary(op, x, second)), second) == inner + suffix
    ensures Printable(Binary(op, x, second))
    ensures Print(OR, Binary(op, x, second)) == Body(x) + ([OpToken(op)] + inner) + suffix
  {
    OperandPrints(LeftLevel(Binary(op, x, second)), x);
    assert [OpToken(op)] + (inner + suffix) == [OpToken(op)] + inner + suffix;
    assert Body(x) + ([OpToken(op)] + inner + suffix) == Body(x) + ([OpToken(op)] + inner) + suffix;
  }

  lemma NullTestOutside(op: BinOp, x: Expr, y: Expr)
    requires Operand(x) && Operand(y) && Strength(op) >= COMPARES
    ensures var e, first := IsNull(Binary(op, x, y)), Body(x) + ([OpToken(op)] + Body(y));
            Printable(e) && Print(OR, e) == first + [Reserved("IS"), Reserved("NULL")]
    ensures var e, first := IsNotNull(Binary(op, x, y)), Body(x) + ([OpToken(op)] + Body(y));
            Printable(e) && Print(OR, e) == first + [Reserved("IS"), Reserved("NOT"), Reserved("NULL")]
  {
    PairPrints(COMPARISON, op, x, y);
  }

  /** Parentheses around an expression change nothing by themselves. */
  lemma Parentheses(text: string, e: Expr)
    requires Printable(e) && Spells(text, [Punct("(")] + Print(OR, e) + [Punct(")")])
    ensures ParseText(text) == Some(e)
  {
    hide Printable, Print;
    var ts, body := Lex(text, 0).tokens, Print(OR, e);
    var all := [Punct("(")] + body + [Punct(")")];
    RejectSpelled(text, all);
    ReadsBracketed(ts, 0, Punct("("), body, Punct(")"), all);
    CloseStops(ts[1 + |body|]);
    ParsePrinted(OR, e, ts, 1);
    assert ParsePrimary(ts, 0) == Parsed(e, |all|);
    Lift(OR, PRIMARY, ts, 0, e, |all|);
  }

  // ---- words and names -----------------------------------------------------

  lemma Words(text: string)
    ensures Spells(text, [Reserved("TRUE")]) ==> ParseText(text) == Some(Literal(Bool(true)))
    ensures Spells(text, [Reserved("FALSE")]) ==> ParseText(text) == Some(Literal(Bool(false)))
    ensures Spells(text, [Reserved("NULL")]) ==> ParseText(text) == Some(Literal(Null))
  {
    hide ParseText, Spells;
    if Spells(text, [Reserved("TRUE")]) { ParseSpelled(text, Literal(Bool(true))); }
    if Spells(text, [Reserved("FALSE")]) { ParseSpelled(text, Literal(Bool(false))); }
    if Spells(text, [Reserved("NULL")]) { ParseSpelled(text, Literal(Null)); }
  }

  /** Of a qualified name the last part is the column. */
  lemma Names(text: string, table: string, name: string)
    ensures Spells(text, [Ident(name)]) ==> ParseText(text) == Some(Column(name))
    ensures Spells(text, [Ident(table), Punct("."), Ident(name)]) ==> ParseText(text) == Some(Column(name))
  {
    if Spells(text, [Ident(name)]) {
      var ts := Lex(text, 0).tokens;
      RejectSpelled(text, [Ident(name)]);
      assert ParsePrimary(ts, 0) == Parsed(Column(name), 1);
      Lift(OR, PRIMARY, ts, 0, Column(name), 1);
    }
    if Spells(text, [Ident(table), Punct("."), Ident(name)]) {
      var ts := Lex(text, 0).tokens;
      RejectSpelled(text, [Ident(table), Punct("."), Ident(name)]);
      assert ParsePrimary(ts, 0) == Parsed(Column(name), 3);
      Lift(OR, PRIMARY, ts, 0, Column(name), 3);
    }
  }

  function Ident(name: string): Token {
    Token(Identifier, name, 0)
  }

  /** A call is an aggregate, its name in any case, or an error. */
  lemma Calls(text: string, name: string, arg: Expr)
    requires Printable(arg) && Spells(text, [Ident(name), Punct("(")] + (Print(OR, arg) + [Punct(")")]))
    ensures ParseText(text) == match Upper(name)
                               case "COUNT" => Some(Aggregate(Count, arg))
                               case "SUM" => Some(Aggregate(Sum, arg))
                               case "AVG" => Some(Aggregate(Avg, arg))
                               case "MIN" => Some(Aggregate(Min, arg))
                               case "MAX" => Some(Aggregate(Max, arg))
                               case _ => None
  {
    hide Printable, Print;
    var ts, body := Lex(text, 0).tokens, Print(OR, arg);
    var all := [Ident(name), Punct("(")] + (body + [Punct(")")]);
    RejectSpelled(text, all);
    ReadsCall(ts, 0, Ident(name), Punct("("), body, Punct(")"), all);
    CloseStops(ts[2 + |body|]);
    ParsePrinted(OR, arg, ts, 2);
    FirstNotStar(OR, arg);
    CallIs(ts, name, arg, |all|);
  }

  lemma CallIs(ts: seq<Token>, name: string, arg: Expr, q: nat)
    requires At(ts, 0) && 3 < q == |ts| - 1 && Same(ts[0], Ident(name)) && Same(ts[1], Punct("("))
    requires !IsOperator(ts[2], "*") && ParseAt(OR, ts, 2) == Parsed(arg, q - 1) && Same(ts[q - 1], Punct(")"))
    ensures ParseAt(OR, ts, 0) == if AggregateOf(Upper(name)).None? then SyntaxError
                                  else Parsed(Aggregate(AggregateOf(Upper(name)).value, arg), q)
  {
    hide AggregateOf;
    if AggregateOf(Upper(name)).None? {
      assert ParsePrimary(ts, 0) == SyntaxError;
      PrimaryFails(ts, 0);
    } else {
      var e := Aggregate(AggregateOf(Upper(name)).value, arg);
      assert ParsePrimary(ts, 0) == Parsed(e, q);
      Lift(OR, PRIMARY, ts, 0, e, q);
    }
  }

  lemma PrimaryFails(ts: seq<Token>, pos: nat)
    requires At(ts, pos) && ParsePrimary(ts, pos) == SyntaxError && !IsKeyword(ts[pos], "NOT") && !IsOperator(ts[pos], "-")
    ensures ParseAt(OR, ts, pos) == SyntaxError
  {
    hide ParsePrimary;
    assert ParseAt(PRIMARY, ts, pos) == SyntaxError;
    assert ParseAt(UNARY, ts, pos) == SyntaxError;
    assert ParseAt(MULTIPLICATIVE, ts, pos) == SyntaxError;
    assert ParseAt(ADDITIVE, ts, pos) == SyntaxError;
    assert ParseAt(COMPARISON, ts, pos) == SyntaxError;
    assert ParseAt(NULL_CHECK, ts, pos) == SyntaxError;
    assert ParseAt(NOT, ts, pos) == SyntaxError;
    assert ParseAt(AND, ts, pos) == SyntaxError;
  }

  lemma StarCalls(text: string, name: string)
    requires Spells(text, [Ident(name), Punct("("), Op("*"), Punct(")")])
    ensures ParseText(text) == if Upper(name) == "COUNT" then Some(CountStar) else None
  {
    hide Upper;
    var ts, all := Lex(text, 0).tokens, [Ident(name), Punct("("), Op("*"), Punct(")")];
    RejectSpelled(text, all);
    assert Same(ts[0 + 0], all[0]) && Same(ts[0 + 1], all[1]) && Same(ts[0 + 2], all[2]) && Same(ts[0 + 3], all[3]);
    StarIs(ts, name);
  }

  lemma StarIs(ts: seq<Token>, name: string)
    requires At(ts, 0) && |ts| == 5 && Same(ts[0], Ident(name)) && Same(ts[1], Punct("(")) && Same(ts[2], Op("*"))
    requires Same(ts[3], Punct(")"))
    ensures ParseAt(OR, ts, 0) == if Upper(name) == "COUNT" then Parsed(CountStar, 4) else SyntaxError
  {
    hide Upper;
    if Upper(name) == "COUNT" {
      assert ParsePrimary(ts, 0) == Parsed(CountStar, 4);
      Lift(OR, PRIMARY, ts, 0, CountStar, 4);
    } else {
      StarFails(ts);
      assert ParsePrimary(ts, 0) == SyntaxError;
      PrimaryFails(ts, 0);
    }
  }

  /** No expression begins with a star. */
  lemma StarFails(ts: seq<Token>)
    requires At(ts, 0) && |ts| == 5 && Same(ts[2], Op("*"))
    ensures ParseAt(OR, ts, 2) == SyntaxError
  {
    assert ParsePrimary(ts, 2) == SyntaxError;
    PrimaryFails(ts, 2);
  }
}
