/**
 The SQL tokenizer (minispark/sql/tokenizer.py), over ASCII character classes.
 */
module SqlTokenizer {
  import opened TextLines

  datatype TokenType = Keyword | Identifier | Number | StringLit | Operator | Punctuation | Eof

  datatype Token = Token(kind: TokenType, value: string, position: nat)

  datatype Lexed = Tokens(tokens: seq<Token>) | LexError

  const KEYWORDS: set<string> := {
    "SELECT", "FROM", "WHERE", "GROUP", "BY", "HAVING", "ORDER", "ASC", "DESC", "JOIN", "ON", "AS", "AND", "OR", "NOT",
    "NULL", "IS", "TRUE", "FALSE"
  }

  predicate IsSpace(c: char) {
    c == ' ' || 9 <= c as int <= 13 || 28 <= c as int <= 31
  }

  predicate IsDigit(c: char) {
    '0' <= c <= '9'
  }

  predicate IsAlpha(c: char) {
    'a' <= c <= 'z' || 'A' <= c <= 'Z'
  }

  predicate IsNameChar(c: char) {
    IsAlpha(c) || IsDigit(c) || c == '_'
  }

  predicate IsSingleOperator(c: char) {
    c == '=' || c == '<' || c == '>' || c == '+' || c == '-' || c == '*' || c == '/'
  }

  predicate IsPunctuation(c: char) {
    c == '(' || c == ')' || c == ',' || c == '.'
  }

  predicate IsDoubleOperator(s: string) {
    s == "<=" || s == ">=" || s == "!=" || s == "<>"
  }

  function UpperChar(c: char): char {
    if 'a' <= c <= 'z' then (c as int - 32) as char else c
  }

  function Upper(s: string): (u: string)
    ensures |u| == |s|
  {
    seq(|s|, i requires 0 <= i < |s| => UpperChar(s[i]))
  }

  // ---- the specification, on what is left of the text -----------------------

  datatype StringRead = Closed(value: string, used: nat) | Unterminated

  /** What follows an opening quote: the contents up to the closing quote, doubled quotes
      read as one, and how many characters that took. */
  function StringBody(text: string): (r: StringRead)
    ensures r.Closed? ==> 0 < r.used <= |text|
  {
    if text == "" then Unterminated
    else if text[0] != '\'' then
      match StringBody(text[1..])
      case Closed(v, n) => Closed([text[0]] + v, n + 1)
      case Unterminated => Unterminated
    else if |text| > 1 && text[1] == '\'' then
      match StringBody(text[2..])
      case Closed(v, n) => Closed("'" + v, n + 2)
      case Unterminated => Unterminated
    else Closed("", 1)
  }

  function NumberLength(text: string, sawDot: bool): (n: nat)
    ensures n <= |text|
  {
    if text == "" then 0
    else if IsDigit(text[0]) then 1 + NumberLength(text[1..], sawDot)
    else if text[0] == '.' && !sawDot then 1 + NumberLength(text[1..], true)
    else 0
  }

  function NameLength(text: string): (n: nat)
    ensures n <= |text|
  {
    if text == "" || !IsNameChar(text[0]) then 0 else 1 + NameLength(text[1..])
  }

  predicate StartsNumber(text: string) {
    text != "" && (IsDigit(text[0]) || (text[0] == '.' && |text| > 1 && IsDigit(text[1])))
  }

  predicate StartsComment(text: string) {
    |text| > 1 && text[0] == '-' && text[1] == '-'
  }

  /** A keyword, in capitals, or an identifier, as written. */
  function Word(name: string, at: nat): Token {
    if Upper(name) in KEYWORDS then Token(Keyword, Upper(name), at) else Token(Identifier, name, at)
  }

  /** One step at the head of a text: how much it takes, and the token it makes, if any. */
  datatype Step = Skip(used: nat) | Take(token: Token, used: nat) | Bad

  function FirstStep(text: string, at: nat): (s: Step)
    requires text != ""
    ensures s.Skip? || s.Take? ==> 0 < s.used <= |text|
  {
    if IsSpace(text[0]) then Skip(1)
    else if StartsComment(text) then Skip(LineLength(text))
    else if text[0] == '\'' then
      match StringBody(text[1..])
      case Closed(v, n) => Take(Token(StringLit, v, at + 1 + n), 1 + n)
      case Unterminated => Bad
    else if StartsNumber(text) then
      var n := NumberLength(text, false);
      Take(Token(Number, text[..n], at + n), n)
    else if IsAlpha(text[0]) || text[0] == '_' then
      var n := NameLength(text);
      Take(Word(text[..n], at + n), n)
    else if |text| > 1 && IsDoubleOperator(text[..2]) then Take(Token(Operator, text[..2], at), 2)
    else if IsSingleOperator(text[0]) then Take(Token(Operator, text[..1], at), 1)
    else if IsPunctuation(text[0]) then Take(Token(Punctuation, text[..1], at), 1)
    else Bad
  }

  function Prepend(tokens: seq<Token>, rest: Lexed): Lexed {
    if rest.LexError? then LexError else Tokens(tokens + rest.tokens)
  }

  /** The tokens of a text that begins at offset `at` of the query. */
  function Lex(text: string, at: nat): Lexed
    decreases |text|
  {
    if text == "" then Tokens([Token(Eof, "", at)])
    else
      var s := FirstStep(text, at);
      if s.Bad? then LexError
      else
        var rest := Lex(text[s.used..], at + s.used);
        if s.Skip? then rest else Prepend([s.token], rest)
  }

  // ---- the tokenizer -------------------------------------------------------

  lemma DropMore(text: string, i: nat, n: nat)
    requires i + n <= |text|
    ensures text[i..][n..] == text[i + n..]
  {
  }

  /** Reading on from `rest` after `value`, having used `used` characters, completes what
      the whole string body reads as. */
  ghost predicate StringReadTo(body: string, rest: string, value: string, used: nat) {
    match StringBody(rest)
    case Closed(v, n) => StringBody(body) == Closed(value + v, n + used)
    case Unterminated => StringBody(body) == Unterminated
  }

  lemma StringReadChar(body: string, rest: string, value: string, used: nat)
    requires rest != "" && rest[0] != '\'' && StringReadTo(body, rest, value, used)
    ensures StringReadTo(body, rest[1..], value + [rest[0]], used + 1)
  {
  }

  lemma StringReadQuote(body: string, rest: string, value: string, used: nat)
    requires |rest| > 1 && rest[0] == '\'' && rest[1] == '\'' && StringReadTo(body, rest, value, used)
    ensures StringReadTo(body, rest[2..], value + "'", used + 2)
  {
  }

  lemma StringReadEnd(body: string, rest: string, value: string, used: nat)
    requires StringReadTo(body, rest, value, used)
    ensures rest == "" ==> StringBody(body) == Unterminated
    ensures rest != "" && rest[0] == '\'' && !(|rest| > 1 && rest[1] == '\'') ==> StringBody(body) == Closed(value, used + 1)
  {
    assert value + "" == value;
  }

  /** _read_string: from the opening quote to just past the closing one. */
  method ReadString(text: string, start: nat) returns (ok: bool, value: string, next: nat)
    requires start < |text|
    ensures match StringBody(text[start + 1..])
            case Closed(v, n) => ok && value == v && next == start + 1 + n
            case Unterminated => !ok
  {
    hide StringBody;
    ghost var body := text[start + 1..];
    var i := start + 1;
    ok, value, next := true, "", start;
    StringReadStart(body);
    while true
      invariant start < i <= |text|
      invariant StringReadTo(body, text[i..], value, i - start - 1)
      decreases |text| - i
    {
      StringReadEnd(body, text[i..], value, i - start - 1);
      if i >= |text| { return false, "", start; }
      var ch := text[i];
      if ch == '\'' {
        if i + 1 < |text| && text[i + 1] == '\'' {
          StringReadQuote(body, text[i..], value, i - start - 1);
          DropMore(text, i, 2);
          value := value + "'";
          i := i + 2;
        } else {
          return true, value, i + 1;
        }
      } else {
        StringReadChar(body, text[i..], value, i - start - 1);
        DropMore(text, i, 1);
        value := value + [ch];
        i := i + 1;
      }
    }
  }

  lemma StringReadStart(body: string)
    ensures StringReadTo(body, body, "", 0)
  {
    assert forall v: string :: "" + v == v;
  }

  /** _read_number. */
  method ReadNumber(text: string, start: nat) returns (value: string, next: nat)
    requires start <= |text|
    ensures next == start + NumberLength(text[start..], false) && value == text[start..next]
  {
    next := start;
    var sawDot := false;
    while next < |text| && (IsDigit(text[next]) || (text[next] == '.' && !sawDot))
      invariant start <= next <= |text|
      invariant NumberLength(text[start..], false) == next - start + NumberLength(text[next..], sawDot)
    {
      DropMore(text, next, 1);
      if text[next] == '.' { sawDot := true; }
      next := next + 1;
    }
    value := text[start..next];
  }

  /** _read_identifier. */
  method ReadIdentifier(text: string, start: nat) returns (value: string, next: nat)
    requires start <= |text|
    ensures next == start + NameLength(text[start..]) && value == text[start..next]
  {
    next := start;
    while next < |text| && IsNameChar(text[next])
      invariant start <= next <= |text|
      invariant NameLength(text[start..]) == next - start + NameLength(text[next..])
    {
      DropMore(text, next, 1);
      next := next + 1;
    }
    value := text[start..next];
  }

  /** Just past the next newline, or the end. */
  method SkipLine(text: string, start: nat) returns (next: nat)
    requires start <= |text|
    ensures next == start + LineLength(text[start..])
  {
    next := start;
    while next < |text| && text[next] != '\n'
      invariant start <= next <= |text|
      invariant LineLength(text[start..]) == next - start + LineLength(text[next..])
    {
      DropMore(text, next, 1);
      next := next + 1;
    }
    if next < |text| { next := next + 1; }
  }

  /** One turn of the loop of tokenize. */
  method ReadStep(text: string, i: nat) returns (step: Step)
    requires i < |text|
    ensures step == FirstStep(text[i..], i)
  {
    var ch, rest := text[i], text[i..];
    if IsSpace(ch) {
      step := Skip(1);
    } else if ch == '-' && i + 1 < |text| && text[i + 1] == '-' {
      var next := SkipLine(text, i);
      step := Skip(next - i);
    } else if ch == '\'' {
      DropMore(text, i, 1);
      var ok, value, next := ReadString(text, i);
      step := if ok then Take(Token(StringLit, value, next), next - i) else Bad;
    } else if IsDigit(ch) || (ch == '.' && i + 1 < |text| && IsDigit(text[i + 1])) {
      var value, next := ReadNumber(text, i);
      assert value == rest[..next - i];
      step := Take(Token(Number, value, next), next - i);
    } else if IsAlpha(ch) || ch == '_' {
      var value, next := ReadIdentifier(text, i);
      assert value == rest[..next - i];
      step := Take(Word(value, next), next - i);
    } else if i + 1 < |text| && IsDoubleOperator(text[i..i + 2]) {
      assert text[i..i + 2] == rest[..2];
      step := Take(Token(Operator, text[i..i + 2], i), 2);
    } else if IsSingleOperator(ch) {
      assert [ch] == rest[..1];
      step := Take(Token(Operator, [ch], i), 1);
    } else if IsPunctuation(ch) {
      assert [ch] == rest[..1];
      step := Take(Token(Punctuation, [ch], i), 1);
    } else {
      step := Bad;
    }
  }

  lemma PrependTwice(a: seq<Token>, b: seq<Token>, rest: Lexed)
    ensures Prepend(a, Prepend(b, rest)) == Prepend(a + b, rest)
  {
  }

  method Tokenize(text: string) returns (result: Lexed)
    ensures result == Lex(text, 0)
  {
    hide FirstStep;
    var tokens: seq<Token> := [];
    var i := 0;
    assert text[0..] == text;
    while i < |text|
      invariant i <= |text|
      invariant Lex(text, 0) == Prepend(tokens, Lex(text[i..], i))
    {
      var step := ReadStep(text, i);
      if step.Bad? { return LexError; }
      DropMore(text, i, step.used);
      if step.Take? {
        PrependTwice(tokens, [step.token], Lex(text[i + step.used..], i + step.used));
        tokens := tokens + [step.token];
      }
      i := i + step.used;
    }
    result := Tokens(tokens + [Token(Eof, "", |text|)]);
  }

  // ---- what tokens look like -----------------------------------------------

  /** A name the tokenizer can read, whole. */
  predicate IsName(s: string) {
    s != "" && NameLength(s) == |s| && !IsDigit(s[0])
  }

  /** A number the tokenizer can read, whole. */
  predicate IsNumberText(s: string) {
    StartsNumber(s) && NumberLength(s, false) == |s|
  }

  predicate GoodToken(t: Token) {
    match t.kind
    case Keyword => t.value in KEYWORDS
    case Identifier => IsName(t.value) && Upper(t.value) !in KEYWORDS
    case Number => IsNumberText(t.value)
    case StringLit => true
    case Operator => IsDoubleOperator(t.value) || (|t.value| == 1 && IsSingleOperator(t.value[0]))
    case Punctuation => |t.value| == 1 && IsPunctuation(t.value[0])
    case Eof => t.value == ""
  }

  /** A stream as the tokenizer makes it: good tokens, Eof last and nowhere else. */
  predicate GoodStream(ts: seq<Token>) {
    ts != [] && forall i :: 0 <= i < |ts| ==> GoodToken(ts[i]) && (ts[i].kind.Eof? <==> i == |ts| - 1)
  }

  lemma {:induction false} NamePrefix(text: string, n: nat)
    requires n <= NameLength(text)
    ensures NameLength(text[..n]) == n
  {
    if n > 0 {
      NamePrefix(text[1..], n - 1);
      assert text[..n][1..] == text[1..][..n - 1];
    }
  }

  lemma {:induction false} NumberPrefix(text: string, sawDot: bool, n: nat)
    requires n == NumberLength(text, sawDot)
    ensures NumberLength(text[..n], sawDot) == n
  {
    if n > 0 {
      NumberPrefix(text[1..], sawDot || text[0] == '.', n - 1);
      assert text[..n][1..] == text[1..][..n - 1];
    }
  }

  lemma NumberStarts(text: string)
    requires StartsNumber(text)
    ensures IsNumberText(text[..NumberLength(text, false)])
  {
    NumberPrefix(text, false, NumberLength(text, false));
    if text[0] == '.' { assert NumberLength(text[1..], true) > 0; }
  }

  lemma FirstStepGood(text: string, at: nat)
    requires text != "" && FirstStep(text, at).Take?
    ensures GoodToken(FirstStep(text, at).token) && !FirstStep(text, at).token.kind.Eof?
  {
    if StartsNumber(text) {
      NumberStarts(text);
    } else if IsAlpha(text[0]) || text[0] == '_' {
      NamePrefix(text, NameLength(text));
    }
  }

  /** Whatever the tokenizer accepts, it returns as a good stream. */
  lemma {:induction false} LexGood(text: string, at: nat)
    ensures Lex(text, at).Tokens? ==> GoodStream(Lex(text, at).tokens)
    decreases |text|
  {
    hide FirstStep;
    if text != "" {
      var s := FirstStep(text, at);
      if !s.Bad? {
        LexGood(text[s.used..], at + s.used);
        if s.Take? { FirstStepGood(text, at); }
      }
    }
  }
}
