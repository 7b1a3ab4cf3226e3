/**
 Text to expression and back (minispark/sql/tokenizer.py, minispark/sql/parser.py).
 */
module SqlRoundTrip {
  import opened Options
  import opened Values
  import opened Expressions
  import opened SqlTokenizer
  import opened TextLines
  import opened SqlParser
  import opened SqlPrinter

  // ---- rendering tokens ----------------------------------------------------

  /** Contents with every quote doubled. */
  function Doubled(s: string): string {
    if s == "" then "" else (if s[0] == '\'' then "''" else [s[0]]) + Doubled(s[1..])
  }

  function Text(t: Token): string {
    if t.kind.StringLit? then "'" + Doubled(t.value) + "'" else t.value
  }

  /** Tokens one after the other, a space after each. */
  function Render(ts: seq<Token>): string {
    if ts == [] then "" else Text(ts[0]) + " " + Render(ts[1..])
  }

  /** A token that can stand in a printed expression. */
  predicate Writable(t: Token) {
    GoodToken(t) && !t.kind.Eof? && (t.kind.Keyword? ==> IsName(t.value) && Upper(t.value) == t.value)
    && (t.kind.Punctuation? ==> t.value == "(" || t.value == ")")
  }

  ghost predicate AllWritable(ps: seq<Token>) {
    forall i :: 0 <= i < |ps| ==> Writable(ps[i])
  }

  // ---- each token reads back -----------------------------------------------

  lemma {:induction false} NameThenSpace(name: string, rest: string)
    requires NameLength(name) == |name|
    ensures NameLength(name + " " + rest) == |name|
  {
    var all := name + " " + rest;
    if name != "" {
      assert all[1..] == name[1..] + " " + rest;
      NameThenSpace(name[1..], rest);
    }
  }

  lemma {:induction false} NumberThenSpace(s: string, sawDot: bool, rest: string)
    requires NumberLength(s, sawDot) == |s|
    ensures NumberLength(s + " " + rest, sawDot) == |s|
  {
    var all := s + " " + rest;
    if s != "" {
      assert all[1..] == s[1..] + " " + rest;
      NumberThenSpace(s[1..], sawDot || s[0] == '.', rest);
    }
  }

  lemma {:induction false} StringThenSpace(s: string, rest: string)
    ensures StringBody(Doubled(s) + "'" + " " + rest) == Closed(s, |Doubled(s)| + 1)
  {
    var all := Doubled(s) + "'" + " " + rest;
    if s != "" {
      StringThenSpace(s[1..], rest);
      if s[0] == '\'' {
        assert Doubled(s) == "''" + Doubled(s[1..]);
        assert all[2..] == Doubled(s[1..]) + "'" + " " + rest;
      } else {
        assert Doubled(s) == [s[0]] + Doubled(s[1..]);
        assert all[1..] == Doubled(s[1..]) + "'" + " " + rest;
      }
      assert [s[0]] + s[1..] == s;
    } else {
      assert all[0] == '\'' && all[1] == ' ';
    }
  }

  /** What one token's text, and the space after it, reads back as. */
  ghost predicate ReadsBack(t: Token, rest: string, at: nat) {
    var text := Text(t) + " " + rest;
    var s := FirstStep(text, at);
    text != "" && s.Take? && Same(s.token, t) && s.used == |Text(t)|
  }

  /** A text that starts with a word. */
  lemma NameStep(text: string, at: nat)
    requires text != "" && (IsAlpha(text[0]) || text[0] == '_')
    ensures var n := NameLength(text);
            n > 0 && FirstStep(text, at) == Take(SqlTokenizer.Word(text[..n], at + n), n)
  {
    hide StringBody, NumberLength, LineLength;
  }

  /** A printed word is a name, and is classified as it was. */
  lemma WritableWord(t: Token, at: nat)
    requires Writable(t) && (t.kind.Keyword? || t.kind.Identifier?)
    ensures t.value != "" && (IsAlpha(t.value[0]) || t.value[0] == '_') && NameLength(t.value) == |t.value|
    ensures Same(SqlTokenizer.Word(t.value, at), t)
  {
  }

  lemma WordFirst(word: string, rest: string)
    requires word != ""
    ensures (word + " " + rest)[0] == word[0] && (word + " " + rest)[..|word|] == word
  {
  }

  lemma NameAt(word: string, rest: string, at: nat)
    requires word != "" && (IsAlpha(word[0]) || word[0] == '_') && NameLength(word) == |word|
    ensures FirstStep(word + " " + rest, at) == Take(SqlTokenizer.Word(word, at + |word|), |word|)
  {
    hide FirstStep, SqlTokenizer.Word, NameLength, IsAlpha;
    NameThenSpace(word, rest);
    WordFirst(word, rest);
    NameStep(word + " " + rest, at);
  }

  lemma NameReadsBack(t: Token, rest: string, at: nat)
    requires Writable(t) && (t.kind.Keyword? || t.kind.Identifier?)
    ensures ReadsBack(t, rest, at)
  {
    hide FirstStep, Writable, SqlTokenizer.Word, NameLength, IsAlpha, Same;
    WritableWord(t, at + |t.value|);
    NameAt(t.value, rest, at);
  }

  lemma NumberReadsBack(t: Token, rest: string, at: nat)
    requires Writable(t) && t.kind.Number?
    ensures ReadsBack(t, rest, at)
  {
    var text := t.value + " " + rest;
    NumberThenSpace(t.value, false, rest);
    assert text[0] == t.value[0] && text[..|t.value|] == t.value;
    if |t.value| > 1 { assert text[1] == t.value[1]; }
  }

  lemma StringReadsBack(t: Token, rest: string, at: nat)
    requires t.kind.StringLit?
    ensures ReadsBack(t, rest, at)
  {
    hide StringBody, NumberLength, NameLength, LineLength, SqlTokenizer.Word, Doubled;
    var text := Text(t) + " " + rest;
    assert Text(t) == "'" + Doubled(t.value) + "'";
    assert text[0] == '\'' && text[1..] == Doubled(t.value) + "'" + " " + rest;
    StringThenSpace(t.value, rest);
  }

  lemma SymbolReadsBack(t: Token, rest: string, at: nat)
    requires Writable(t) && (t.kind.Operator? || t.kind.Punctuation?)
    ensures ReadsBack(t, rest, at)
  {
    var text := t.value + " " + rest;
    assert text[0] == t.value[0];
    if |t.value| == 1 {
      assert text[..1] == t.value && text[1] == ' ';
      if |text| > 1 { assert text[..2] == [t.value[0], ' ']; assert text[..2][1] == ' '; }
    } else {
      assert text[..2] == t.value && text[1] == t.value[1];
    }
  }

  lemma TokenReadsBack(t: Token, rest: string, at: nat)
    requires Writable(t)
    ensures ReadsBack(t, rest, at)
  {
    match t.kind
    case Keyword => NameReadsBack(t, rest, at);
    case Identifier => NameReadsBack(t, rest, at);
    case Number => NumberReadsBack(t, rest, at);
    case StringLit => StringReadsBack(t, rest, at);
    case Operator => SymbolReadsBack(t, rest, at);
    case Punctuation => SymbolReadsBack(t, rest, at);
  }

  /** The tokens read back from a rendering, with Eof after them. */
  ghost predicate LexesTo(r: Lexed, ts: seq<Token>) {
    && r.Tokens? && |r.tokens| == |ts| + 1
    && (forall i :: 0 <= i < |ts| ==> Same(r.tokens[i], ts[i]))
    && r.tokens[|ts|].kind.Eof?
  }

  lemma SpaceIsSkipped(text: string, at: nat)
    requires text != "" && IsSpace(text[0])
    ensures Lex(text, at) == Lex(text[1..], at + 1)
  {
  }

  lemma LexTake(text: string, at: nat)
    requires text != "" && FirstStep(text, at).Take?
    ensures var s := FirstStep(text, at);
            Lex(text, at) == Prepend([s.token], Lex(text[s.used..], at + s.used))
  {
  }

  lemma LexTakeThen(text: string, at: nat, after: string, rest: string)
    requires text != "" && FirstStep(text, at).Take? && after == text[FirstStep(text, at).used..]
    requires after != "" && IsSpace(after[0]) && rest == after[1..]
    ensures var s := FirstStep(text, at);
            Lex(text, at) == Prepend([s.token], Lex(rest, at + s.used + 1))
  {
    hide FirstStep;
    LexTake(text, at);
    SpaceIsSkipped(after, at + FirstStep(text, at).used);
  }

  lemma DropFront(a: string, b: string)
    ensures (a + " " + b)[|a|..] == " " + b && (" " + b)[1..] == b
  {
  }

  /** A token's text and the space after it tokenize to the token. */
  lemma LexOne(t: Token, rest: string, at: nat) returns (token: Token)
    requires Writable(t)
    ensures Same(token, t)
    ensures Lex(Text(t) + " " + rest, at) == Prepend([token], Lex(rest, at + |Text(t)| + 1))
  {
    hide FirstStep, Lex, Writable;
    var text, n := Text(t) + " " + rest, |Text(t)|;
    TokenReadsBack(t, rest, at);
    token := FirstStep(text, at).token;
    DropFront(Text(t), rest);
    LexTakeThen(text, at, " " + rest, rest);
  }

  lemma PrependLexes(token: Token, r: Lexed, ts: seq<Token>)
    requires ts != [] && Same(token, ts[0]) && LexesTo(r, ts[1..])
    ensures LexesTo(Prepend([token], r), ts)
  {
    var all := Prepend([token], r).tokens;
    forall i | 0 <= i < |ts| ensures Same(all[i], ts[i]) {
      if i > 0 { assert all[i] == r.tokens[i - 1] && ts[i] == ts[1..][i - 1]; }
    }
  }

  /** Rendered tokens tokenize to themselves. */
  lemma {:induction false} LexRender(ts: seq<Token>, at: nat)
    requires AllWritable(ts)
    ensures LexesTo(Lex(Render(ts), at), ts)
  {
    hide FirstStep, Writable, Text;
    if ts != [] {
      LexRender(ts[1..], at + |Text(ts[0])| + 1);
      LexRenderMore(ts, at);
    }
  }

  lemma LexRenderMore(ts: seq<Token>, at: nat)
    requires ts != [] && Writable(ts[0])
    requires LexesTo(Lex(Render(ts[1..]), at + |Text(ts[0])| + 1), ts[1..])
    ensures LexesTo(Lex(Render(ts), at), ts)
  {
    hide FirstStep, Lex, Writable, LexesTo, Text;
    var rest, next := Render(ts[1..]), at + |Text(ts[0])| + 1;
    var token := LexOne(ts[0], rest, at);
    PrependLexes(token, Lex(rest, next), ts);
  }

  // ---- printed tokens are writable -----------------------------------------

  lemma KeywordsWritable()
    ensures Writable(Reserved("OR")) && Writable(Reserved("AND")) && Writable(Reserved("NOT")) && Writable(Reserved("IS"))
    ensures Writable(Reserved("NULL")) && Writable(Reserved("TRUE")) && Writable(Reserved("FALSE"))
  {
    WordWritable("OR");
    WordWritable("AND");
    WordWritable("NOT");
    WordWritable("IS");
    WordWritable("NULL");
    WordWritable("TRUE");
    WordWritable("FALSE");
  }

  lemma WordWritable(word: string)
    requires word in KEYWORDS && word != "" && forall i :: 0 <= i < |word| ==> 'A' <= word[i] <= 'Z'
    ensures Writable(Reserved(word))
  {
    CapitalsAreNames(word);
  }

  lemma {:induction false} CapitalsAreNames(s: string)
    requires forall i :: 0 <= i < |s| ==> 'A' <= s[i] <= 'Z'
    ensures NameLength(s) == |s| && Upper(s) == s
  {
    if s != "" { CapitalsAreNames(s[1..]); }
  }

  lemma KindsWritable(kind: AggKind)
    ensures Writable(Token(Identifier, KindName(kind), 0))
  {
    var s := KindName(kind);
    assert forall i :: 0 <= i < |s| ==> 'A' <= s[i] <= 'Z';
    CapitalsAreNames(s);
  }

  lemma OperatorsWritable(op: BinOp)
    ensures Writable(OpToken(op))
  {
    KeywordsWritable();
  }

  lemma JoinWritable(a: seq<Token>, b: seq<Token>)
    requires AllWritable(a) && AllWritable(b)
    ensures AllWritable(a + b)
  {
  }

  lemma OneWritable(t: Token)
    requires Writable(t)
    ensures AllWritable([t])
  {
  }

  lemma ParensWritable()
    ensures AllWritable([Punct("(")]) && AllWritable([Punct(")")])
  {
  }

  lemma {:induction false} PrintWritable(level: nat, e: Expr)
    requires Printable(e) && level <= PRIMARY
    ensures AllWritable(Print(level, e))
    decreases e, 1
  {
    BodyWritable(e);
    if LevelOf(e) < level {
      ParensWritable();
      JoinWritable([Punct("(")], Body(e));
      JoinWritable([Punct("(")] + Body(e), [Punct(")")]);
    }
  }

  lemma {:induction false} BodyWritable(e: Expr)
    requires Printable(e)
    ensures AllWritable(Body(e))
    decreases e, 0
  {
    match e
    case Binary(_, _, _) => BinaryWritable(e);
    case Not(c) =>
      SuffixesWritable();
      PrintWritable(NOT, c);
      JoinWritable([Reserved("NOT")], Print(NOT, c));
    case IsNull(c) =>
      SuffixesWritable();
      PrintWritable(COMPARISON, c);
      JoinWritable(Print(COMPARISON, c), [Reserved("IS"), Reserved("NULL")]);
    case IsNotNull(c) =>
      SuffixesWritable();
      PrintWritable(COMPARISON, c);
      JoinWritable(Print(COMPARISON, c), [Reserved("IS"), Reserved("NOT"), Reserved("NULL")]);
    case Aggregate(_, _) => AggregateWritable(e);
    case CountStar => CountStarWritable();
    case Literal(v) => LiteralWritable(v);
    case Column(_) =>
  }

  lemma SuffixesWritable()
    ensures AllWritable([Reserved("NOT")]) && AllWritable([Reserved("IS"), Reserved("NULL")])
    ensures AllWritable([Reserved("IS"), Reserved("NOT"), Reserved("NULL")])
  {
    KeywordsWritable();
  }

  lemma CountStarWritable()
    ensures AllWritable(Body(CountStar))
  {
    KindsWritable(Count);
    ParensWritable();
  }

  lemma LiteralWritable(v: Value)
    requires Printable(Literal(v))
    ensures AllWritable(Body(Literal(v)))
  {
    KeywordsWritable();
  }

  lemma {:induction false} BinaryWritable(e: Expr)
    requires Printable(e) && e.Binary?
    ensures AllWritable(Body(e))
    decreases e, 0, 0
  {
    OperatorsWritable(e.op);
    OneWritable(OpToken(e.op));
    PrintWritable(RightLevel(e), e.right);
    if IsNegation(e) {
      JoinWritable([Op("-")], Print(UNARY, e.right));
    } else {
      PrintWritable(LeftLevel(e), e.left);
      JoinWritable([OpToken(e.op)], Print(RightLevel(e), e.right));
      JoinWritable(Print(LeftLevel(e), e.left), [OpToken(e.op)] + Print(RightLevel(e), e.right));
    }
  }

  lemma {:induction false} AggregateWritable(e: Expr)
    requires Printable(e) && e.Aggregate?
    ensures AllWritable(Body(e))
    decreases e, 0, 0
  {
    var name := Token(Identifier, KindName(e.kind), 0);
    KindsWritable(e.kind);
    OneWritable(name);
    ParensWritable();
    PrintWritable(OR, e.child);
    assert [name, Punct("(")] == [name] + [Punct("(")];
    JoinWritable([name], [Punct("(")]);
    JoinWritable(Print(OR, e.child), [Punct(")")]);
    JoinWritable([name, Punct("(")], Print(OR, e.child) + [Punct(")")]);
  }

  // ---- the theorems --------------------------------------------------------

  /** One expression, and nothing after it. */
  function ParseText(text: string): Option<Expr> {
    match Lex(text, 0)
    case LexError => None
    case Tokens(ts) =>
      if !At(ts, 0) then None
      else match ParseAt(OR, ts, 0)
        case SyntaxError => None
        case Parsed(e, p) => if ts[p].kind.Eof? then Some(e) else None
  }

  /** The tokenizer and the parser, one after the other. */
  method ParseExpression(text: string) returns (r: Option<Expr>)
    ensures r == ParseText(text)
  {
    var lexed := Tokenize(text);
    if lexed.LexError? { return None; }
    LexGood(text, 0);
    var parser := new Parser(lexed.tokens);
    r := parser.ParseExpr();
    if r.Some? && !parser.Current().kind.Eof? { r := None; }
  }

  ghost function PrintText(e: Expr): string
    requires Printable(e)
  {
    Render(Print(OR, e))
  }

  /** Printing and parsing are inverse: an expression's text parses to that expression,
      consuming all of it. */
  lemma RoundTrip(e: Expr)
    requires Printable(e)
    ensures ParseText(PrintText(e)) == Some(e)
  {
    hide Body, Render, Writable, Printable;
    var ps := Print(OR, e);
    PrintWritable(OR, e);
    LexRender(ps, 0);
    LexGood(PrintText(e), 0);
    var ts := Lex(PrintText(e), 0).tokens;
    assert At(ts, 0) && Reads(ts, 0, ps);
    ParsePrinted(OR, e, ts, 0);
  }

  // ---- the parser's image --------------------------------------------------

  lemma {:induction false} ParsedIsPrintable(level: nat, ts: seq<Token>, pos: nat)
    requires GoodStream(ts) && At(ts, pos) && level <= PRIMARY
    ensures ParseAt(level, ts, pos).Parsed? ==> Printable(ParseAt(level, ts, pos).e)
    decreases |ts| - pos, 2, PRIMARY - level
  {
    if IsLoop(level) {
      ParsedIsPrintable(level + 1, ts, pos);
      match ParseAt(level + 1, ts, pos)
      case SyntaxError =>
      case Parsed(left, p) => TailIsPrintable(level, ts, left, p);
    } else if level == NOT {
      ParsedIsPrintable(NULL_CHECK, ts, pos);
      if IsKeyword(ts[pos], "NOT") { ParsedIsPrintable(NOT, ts, pos + 1); }
    } else if level == NULL_CHECK {
      ParsedIsPrintable(COMPARISON, ts, pos);
    } else if level == COMPARISON {
      ParsedIsPrintable(ADDITIVE, ts, pos);
      match ParseAt(ADDITIVE, ts, pos)
      case SyntaxError =>
      case Parsed(left, p) => if IsComparisonToken(ts[p]) { ParsedIsPrintable(ADDITIVE, ts, p + 1); }
    } else if level == UNARY {
      ParsedIsPrintable(PRIMARY, ts, pos);
      if IsOperator(ts[pos], "-") { ParsedIsPrintable(UNARY, ts, pos + 1); }
    } else {
      PrimaryIsPrintable(ts, pos);
    }
  }

  lemma {:induction false} TailIsPrintable(level: nat, ts: seq<Token>, left: Expr, pos: nat)
    requires GoodStream(ts) && At(ts, pos) && level < PRIMARY && IsLoop(level) && Printable(left)
    ensures ParseTail(level, ts, left, pos).Parsed? ==> Printable(ParseTail(level, ts, left, pos).e)
    decreases |ts| - pos, 1, 0
  {
    if Joins(level, ts[pos]) {
      ParsedIsPrintable(level + 1, ts, pos + 1);
      match ParseAt(level + 1, ts, pos + 1)
      case SyntaxError =>
      case Parsed(right, p) => TailIsPrintable(level, ts, Binary(JoinOp(level, ts[pos]), left, right), p);
    }
  }

  lemma {:induction false} PrimaryIsPrintable(ts: seq<Token>, pos: nat)
    requires GoodStream(ts) && At(ts, pos)
    ensures ParsePrimary(ts, pos).Parsed? ==> Printable(ParsePrimary(ts, pos).e)
    decreases |ts| - pos, 0, 0
  {
    var t := ts[pos];
    assert GoodToken(t);
    if IsPunct(t, "(") {
      ParsedIsPrintable(OR, ts, pos + 1);
    } else if t.kind.Identifier? {
      if IsPunct(ts[pos + 1], "(") {
        ParsedIsPrintable(OR, ts, pos + 2);
      } else if IsPunct(ts[pos + 1], ".") {
        assert GoodToken(ts[pos + 2]);
      }
    }
  }

  /** The printable expressions are exactly what the parser returns. */
  lemma ImageOfParser(e: Expr)
    ensures Printable(e) <==> exists text :: ParseText(text) == Some(e)
  {
    if Printable(e) {
      RoundTrip(e);
    } else if exists text :: ParseText(text) == Some(e) {
      var text :| ParseText(text) == Some(e);
      LexGood(text, 0);
      ParsedIsPrintable(OR, Lex(text, 0).tokens, 0);
    }
  }
}
