/**
 The printer's parentheses are minimal: no text that parses to an expression has fewer
 tokens than the printed one (minispark/sql/parser.py).
 */
module SqlShortest {
  import opened Options
  import opened Values
  import opened Expressions
  import opened SqlTokenizer
  import opened SqlParser
  import opened SqlPrinter
  import opened SqlRoundTrip

  lemma {:induction false} FractionNotNegative(s: string)
    ensures FractionOf(s) >= 0.0
  {
    if s != "" && IsDigit(s[0]) { FractionNotNegative(s[1..]); }
  }

  /** No number has a minus sign, so -1 is not an expression of its own. */
  lemma MinusOneHasNoText()
    ensures !Printable(MINUS_ONE)
  {
    if HasText(-1.0) {
      var s :| IsNumberText(s) && NumberValue(s) == -1.0;
      FractionNotNegative(AfterDot(s));
    }
  }

  /** A tighter level costs nothing or a pair of parentheses. */
  lemma PrintGrows(loose: nat, tight: nat, e: Expr)
    requires Printable(e) && loose <= tight <= PRIMARY
    ensures |Body(e)| <= |Print(loose, e)| <= |Print(tight, e)| <= |Body(e)| + 2
    ensures Print(OR, e) == Body(e)
  {
    hide Body;
  }

  lemma JoinedLength(level: nat, t: Token, left: Expr, right: Expr)
    requires IsLoop(level) && Joins(level, t) && Printable(left) && Printable(right)
    ensures var e := Binary(JoinOp(level, t), left, right);
            Printable(e) && |Print(level, e)| == |Print(level, left)| + 1 + |Print(level + 1, right)|
  {
    MinusOneHasNoText();
    var e := Binary(JoinOp(level, t), left, right);
    assert LevelOf(e) == level && !IsNegation(e);
    ChainParts(level, e);
  }

  lemma ComparedLength(op: string, left: Expr, right: Expr)
    requires Printable(left) && Printable(right)
    ensures var e := Binary(ComparisonOf(op), left, right);
            Printable(e) && |Print(COMPARISON, e)| == |Print(ADDITIVE, left)| + 1 + |Print(ADDITIVE, right)|
  {
    var e := Binary(ComparisonOf(op), left, right);
    assert LevelOf(e) == COMPARISON;
    ComparedBody(e);
  }

  lemma NegatedLength(c: Expr)
    requires Printable(c)
    ensures var e := Binary(Mul, MINUS_ONE, c); Printable(e) && |Print(UNARY, e)| == 1 + |Print(UNARY, c)|
  {
    assert IsNegation(Binary(Mul, MINUS_ONE, c));
  }

  lemma PrefixedLength(c: Expr)
    requires Printable(c)
    ensures Printable(Not(c)) && Printable(IsNull(c)) && Printable(IsNotNull(c)) && forall k :: Printable(Aggregate(k, c))
    ensures |Print(NOT, Not(c))| == 1 + |Print(NOT, c)|
    ensures |Print(NULL_CHECK, IsNull(c))| == |Print(COMPARISON, c)| + 2
    ensures |Print(NULL_CHECK, IsNotNull(c))| == |Print(COMPARISON, c)| + 3
    ensures forall k :: |Print(PRIMARY, Aggregate(k, c))| == |Print(OR, c)| + 3
  {
  }

  /** The result of a parse from `start` on prints in at most the tokens it took. */
  ghost predicate Within(level: nat, r: Parsed, start: nat)
    requires level <= PRIMARY
  {
    r.Parsed? ==> Printable(r.e) && |Print(level, r.e)| <= r.next - start
  }

  lemma {:induction false} ParsedWithin(level: nat, ts: seq<Token>, pos: nat)
    requires GoodStream(ts) && At(ts, pos) && level <= PRIMARY
    ensures Within(level, ParseAt(level, ts, pos), pos)
    decreases |ts| - pos, 2, PRIMARY - level
  {
    hide Print, Printable, GoodStream;
    if IsLoop(level) {
      ParsedWithin(level + 1, ts, pos);
      match ParseAt(level + 1, ts, pos)
      case SyntaxError =>
      case Parsed(left, p) =>
        PrintGrows(level, level + 1, left);
        TailWithin(level, ts, left, p, pos);
    } else if level == NOT {
      if IsKeyword(ts[pos], "NOT") {
        ParsedWithin(NOT, ts, pos + 1);
        match ParseAt(NOT, ts, pos + 1)
        case SyntaxError =>
        case Parsed(c, _) => PrefixedLength(c);
      } else {
        ParsedWithin(NULL_CHECK, ts, pos);
        Looser(NOT, NULL_CHECK, ParseAt(NULL_CHECK, ts, pos), pos);
      }
    } else if level == NULL_CHECK {
      ParsedWithin(COMPARISON, ts, pos);
      match ParseAt(COMPARISON, ts, pos)
      case SyntaxError =>
      case Parsed(c, _) =>
        PrefixedLength(c);
        Looser(NULL_CHECK, COMPARISON, ParseAt(COMPARISON, ts, pos), pos);
    } else if level == COMPARISON {
      ParsedWithin(ADDITIVE, ts, pos);
      Looser(COMPARISON, ADDITIVE, ParseAt(ADDITIVE, ts, pos), pos);
      match ParseAt(ADDITIVE, ts, pos)
      case SyntaxError =>
      case Parsed(left, p) =>
        if IsComparisonToken(ts[p]) {
          ParsedWithin(ADDITIVE, ts, p + 1);
          match ParseAt(ADDITIVE, ts, p + 1)
          case SyntaxError =>
          case Parsed(right, _) => ComparedLength(ts[p].value, left, right);
        }
    } else if level == UNARY {
      if IsOperator(ts[pos], "-") {
        ParsedWithin(UNARY, ts, pos + 1);
        match ParseAt(UNARY, ts, pos + 1)
        case SyntaxError =>
        case Parsed(c, _) => NegatedLength(c);
      } else {
        ParsedWithin(PRIMARY, ts, pos);
        Looser(UNARY, PRIMARY, ParseAt(PRIMARY, ts, pos), pos);
      }
    } else {
      PrimaryWithin(ts, pos);
    }
  }

  lemma Looser(loose: nat, tight: nat, r: Parsed, start: nat)
    requires loose <= tight <= PRIMARY && Within(tight, r, start)
    ensures Within(loose, r, start)
  {
    hide Print, Printable;
    if r.Parsed? { PrintGrows(loose, tight, r.e); }
  }

  /** `start` is where the left operand began. */
  lemma {:induction false} TailWithin(level: nat, ts: seq<Token>, left: Expr, pos: nat, start: nat)
    requires GoodStream(ts) && At(ts, pos) && level < PRIMARY && IsLoop(level)
    requires Within(level, Parsed(left, pos), start)
    ensures Within(level, ParseTail(level, ts, left, pos), start)
    decreases |ts| - pos, 1, 0
  {
    hide Print, Printable, GoodStream;
    if Joins(level, ts[pos]) {
      ParsedWithin(level + 1, ts, pos + 1);
      match ParseAt(level + 1, ts, pos + 1)
      case SyntaxError =>
      case Parsed(right, p) =>
        JoinedLength(level, ts[pos], left, right);
        TailWithin(level, ts, Binary(JoinOp(level, ts[pos]), left, right), p, start);
    }
  }

  lemma {:induction false} PrimaryWithin(ts: seq<Token>, pos: nat)
    requires GoodStream(ts) && At(ts, pos)
    ensures Within(PRIMARY, ParsePrimary(ts, pos), pos)
    decreases |ts| - pos, 0, 0
  {
    var t := ts[pos];
    assert GoodToken(t);
    if IsPunct(t, "(") {
      ParsedWithin(OR, ts, pos + 1);
      match ParseAt(OR, ts, pos + 1)
      case SyntaxError =>
      case Parsed(e, _) => PrintGrows(OR, PRIMARY, e);
    } else if t.kind.Identifier? {
      if IsPunct(ts[pos + 1], "(") {
        CallWithin(Upper(t.value), ts, pos + 1);
      } else {
        PrimaryIsPrintable(ts, pos);
      }
    } else {
      PrimaryIsPrintable(ts, pos);
    }
  }

  lemma {:induction false} CallWithin(name: string, ts: seq<Token>, pos: nat)
    requires GoodStream(ts) && At(ts, pos) && pos > 0 && IsPunct(ts[pos], "(")
    ensures Within(PRIMARY, ParseCall(name, ts, pos), pos - 1)
    decreases |ts| - pos, 3, 0
  {
    ParsedWithin(OR, ts, pos + 1);
    match ParseAt(OR, ts, pos + 1)
    case SyntaxError =>
    case Parsed(e, _) => PrefixedLength(e);
  }

  /** The printed text of an expression is among the shortest, in tokens, of all texts that
      parse to it: no pair of its parentheses can be left out. */
  lemma PrintIsShortest(e: Expr, text: string)
    requires ParseText(text) == Some(e)
    ensures Printable(e) && Lex(text, 0).Tokens? && |Print(OR, e)| + 1 <= |Lex(text, 0).tokens|
  {
    LexGood(text, 0);
    ParsedWithin(OR, Lex(text, 0).tokens, 0);
  }
}
